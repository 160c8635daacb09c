/** test_positioning_servo.py: `main`, which finds the Arduino, clears what
    it has already sent, sends 'S', echoes the replies and then asks the
    operator whether the servo moved. What the serial layer and the operator
    do are inputs. */
module TestPositioningServo {
  import opened Wrappers
  import opened Strings
  import opened SerialPorts

  /** The input side of an open serial connection: the bytes waiting to be read. */
  class SerialLink {
    var pending: seq<bv8>

    constructor(waiting: seq<bv8>)
      ensures pending == waiting
    {
      pending := waiting;
    }

    /** `in_waiting` */
    function InWaiting(): (n: nat)
      reads this
      ensures n == |pending|
    {
      |pending|
    }

    /** `read()`: one waiting byte. */
    method Read() returns (b: bv8)
      requires pending != []
      modifies this
      ensures b == old(pending)[0] && pending == old(pending)[1..]
    {
      b := pending[0];
      pending := pending[1..];
    }

    /** `while arduino.in_waiting > 0: arduino.read()`: reads every waiting
        byte, in order, and leaves nothing waiting. */
    method DrainInput() returns (drained: seq<bv8>)
      modifies this
      ensures drained == old(pending) && pending == []
    {
      drained := [];
      while InWaiting() > 0
        invariant drained + pending == old(pending)
        decreases |pending|
      {
        var b := Read();
        drained := drained + [b];
      }
    }
  }

  /** What the serial layer and the operator do: whether `serial.Serial`
      opens the device, the bytes already waiting after the start-up pause,
      whether the write, flush and `in_waiting` polls go without raising
      (an error from `readline` or `decode` is swallowed), the line typed at
      the prompt (`None` when `input` hits end of file and raises) and
      whether `close` goes without raising. */
  datatype PositioningRun = PositioningRun(
    opens: bool, waiting: seq<bv8>, ioOk: bool, answer: Option<string>, closeOk: bool)

  /** What `main` did: whether it opened a connection, the bytes it cleared,
      the operator's verdict when one was read, and what it returned. */
  datatype PositioningOutcome = PositioningOutcome(
    connected: bool, cleared: seq<bv8>, servoMoved: Option<bool>, ok: bool)

  /** `input(...).strip().lower() == 'y'` */
  predicate AnsweredYes(answer: string) {
    Lower(Strip(answer)) == "y"
  }

  /** `main`, given the enumerated ports and, per device, the run. */
  method TestPositioning(ports: seq<Port>, run: string -> PositioningRun) returns (r: PositioningOutcome)
    ensures FirstCandidateDevice(ports).None? || FirstCandidateDevice(ports).value == "" ==>
      r == PositioningOutcome(false, [], None, false)
    ensures FirstCandidateDevice(ports).Some? && FirstCandidateDevice(ports).value != "" ==>
      r == PositioningOutcomeOf(run(FirstCandidateDevice(ports).value))
  {
    var port := FindArduino(ports);
    if port.None? || port.value == "" {
      return PositioningOutcome(false, [], None, false);
    }
    var x := run(port.value);
    if !x.opens {
      return PositioningOutcome(false, [], None, false);
    }
    var link := new SerialLink(x.waiting);
    var cleared := link.DrainInput();
    if !x.ioOk || x.answer.None? {
      return PositioningOutcome(true, cleared, None, false);
    }
    var moved := AnsweredYes(x.answer.value);
    return PositioningOutcome(true, cleared, Some(moved), x.closeOk);
  }

  /** The returned value does not depend on the operator's answer: any line
      read counts as a completed test, a 'y' as much as an 'n'. */
  lemma ResultIgnoresAnswer(run: PositioningRun, other: string)
    requires run.answer.Some?
    ensures PositioningOutcomeOf(run).ok == PositioningOutcomeOf(run.(answer := Some(other))).ok
  {
  }

  /** The outcome, once a device was found, as a function of the run. */
  function PositioningOutcomeOf(x: PositioningRun): (r: PositioningOutcome)
    ensures r.connected == x.opens
    ensures r.cleared == (if x.opens then x.waiting else [])
    ensures r.servoMoved.Some? <==> x.opens && x.ioOk && x.answer.Some?
    ensures r.servoMoved.Some? ==> r.servoMoved.value == AnsweredYes(x.answer.value)
    ensures r.ok <==> x.opens && x.ioOk && x.answer.Some? && x.closeOk
  {
    if !x.opens then PositioningOutcome(false, [], None, false)
    else if !x.ioOk || x.answer.None? then PositioningOutcome(true, x.waiting, None, false)
    else PositioningOutcome(true, x.waiting, Some(AnsweredYes(x.answer.value)), x.closeOk)
  }

  /** Surrounding blanks and case do not change the verdict. */
  lemma PaddedCapitalYes()
    ensures AnsweredYes(" Y\n")
  {
    assert Strip(" Y\n") == "Y";
  }

  /** Only the single letter counts: "yes" is a no. */
  lemma YesWordIsNo()
    ensures !AnsweredYes("yes")
  {
    assert Strip("yes") == "yes";
  }
}
