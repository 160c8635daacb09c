/** test_flap_servo.py: the outcome of `test_flap_motion`, which finds the
    Arduino, opens it, sends 'F' and echoes what comes back for fifteen
    seconds. What the serial layer does is an input. */
module TestFlapServo {
  import opened Wrappers
  import opened SerialPorts

  /** `if not port`: no port, or a port whose device path is empty. */
  predicate PortFound(port: Option<string>) {
    port.Some? && port.value != ""
  }

  /** What the serial layer does: whether `serial.Serial` opens the device,
      whether the buffer reset, write, flush, the `in_waiting` polls and close
      all go without raising, and the lines echoed during the read window.
      An error from `readline` or `decode` is swallowed and does not count. */
  datatype FlapRun = FlapRun(opens: bool, ioOk: bool, echoed: seq<string>)

  /** What `test_flap_motion` did: whether it tried to open a device, and what it returned. */
  datatype FlapOutcome = FlapOutcome(triedOpen: bool, ok: bool)

  /** `test_flap_motion`, given the enumerated ports and, per device, what the serial layer does. */
  method TestFlapMotion(ports: seq<Port>, run: string -> FlapRun) returns (r: FlapOutcome)
    ensures !PortFound(FirstCandidateDevice(ports)) ==> r == FlapOutcome(false, false)
    ensures PortFound(FirstCandidateDevice(ports)) ==>
      var device := FirstCandidateDevice(ports).value;
      r.triedOpen && (r.ok <==> run(device).opens && run(device).ioOk)
  {
    var port := FindArduino(ports);
    if port.None? || port.value == "" {
      return FlapOutcome(false, false);
    }
    var outcome := run(port.value);
    if !outcome.opens {
      return FlapOutcome(true, false);
    }
    if !outcome.ioOk {
      return FlapOutcome(true, false);
    }
    return FlapOutcome(true, true);
  }

  /** A matching port whose device path is empty counts as not found. */
  lemma EmptyDevicePathIsNotFound(description: string)
    requires DescriptionMatch(Port("", description))
    ensures !PortFound(FirstCandidateDevice([Port("", description)]))
  {
  }
}
