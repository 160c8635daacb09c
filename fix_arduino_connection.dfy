/** fix_arduino_connection.py: the Arduino IDE process matcher, the port
    search, the access test with its hints, the communication test and the
    port selection of `main`. The process table, the enumerated ports and
    what the serial layer does on each device are inputs. */
module FixArduinoConnection {
  import opened Wrappers
  import opened Strings
  import opened Sequences
  import opened SerialPorts
  import ArduinoDiagnostic

  type ProcInfo = ArduinoDiagnostic.ProcInfo

  /** `proc.info['name'] and 'arduino' in proc.info['name'].lower()` */
  predicate ArduinoProcess(p: ProcInfo) {
    p.name.Some? && p.name.value != [] && Contains(Lower(p.name.value), "arduino")
  }

  /** `check_processes_using_port`, over the table `process_iter` yields. */
  method CheckProcessesUsingPort(procs: seq<ProcInfo>) returns (arduinoProcesses: seq<ProcInfo>)
    ensures arduinoProcesses == Filter(procs, ArduinoProcess)
  {
    arduinoProcesses := [];
    for i := 0 to |procs|
      invariant arduinoProcesses == Filter(procs[..i], ArduinoProcess)
    {
      var proc := procs[i];
      FilterSnoc(procs[..i], proc, ArduinoProcess);
      assert procs[..i + 1] == procs[..i] + [proc];
      if proc.name.Some? && proc.name.value != [] && Contains(Lower(proc.name.value), "arduino") {
        arduinoProcesses := arduinoProcesses + [proc];
      }
    }
    assert procs[..|procs|] == procs;
  }

  /** A process is flagged iff its lower-cased name contains "arduino"; the
      command line is never looked at, and every process flagged here is
      also flagged by the diagnostic's wider test. */
  lemma ArduinoProcessIff(procs: seq<ProcInfo>, p: ProcInfo)
    ensures p in Filter(procs, ArduinoProcess) <==>
      p in procs && p.name.Some? && p.name.value != [] && Contains(Lower(p.name.value), "arduino")
    ensures ArduinoProcess(p) ==> ArduinoDiagnostic.Blocking(p)
    ensures ArduinoProcess(p) <==> ArduinoProcess(ArduinoDiagnostic.ProcInfo(p.pid, p.name, None))
  {
    FilterMembership(procs, ArduinoProcess, p);
    assert "arduino" in ArduinoDiagnostic.ProcessKeywords;
  }

  /** `find_arduino_ports`, over the ports `comports()` enumerates. */
  method FindArduinoPorts(allPorts: seq<Port>) returns (arduinoPorts: seq<Port>)
    ensures arduinoPorts == DescriptionCandidates(allPorts)
  {
    arduinoPorts := [];
    for i := 0 to |allPorts|
      invariant arduinoPorts == Filter(allPorts[..i], DescriptionMatch)
    {
      var port := allPorts[i];
      var description := Lower(port.description);
      FilterSnoc(allPorts[..i], port, DescriptionMatch);
      assert allPorts[..i + 1] == allPorts[..i] + [port];
      if AnyKeywordIn(DescriptionKeywords, description) {
        arduinoPorts := arduinoPorts + [port];
      }
    }
    assert allPorts[..|allPorts|] == allPorts;
    if arduinoPorts == [] {
      return [];
    }
  }

  /** The ports found are exactly the description matches, in order. */
  lemma FoundPortsIff(allPorts: seq<Port>, p: Port)
    ensures p in DescriptionCandidates(allPorts) <==> p in allPorts && DescriptionMatch(p)
    ensures IsSubsequence(DescriptionCandidates(allPorts), allPorts)
  {
    FilterMembership(allPorts, DescriptionMatch, p);
    FilterIsSubsequence(allPorts, DescriptionMatch);
  }

  /** What opening and closing a device briefly gives. */
  datatype AccessOutcome = Accessible | SerialError(message: string) | OtherError(message: string)

  /** The hint printed after a `SerialException`. */
  datatype AccessHint = PortBusy | PortMissing | NoAccessHint

  /** Case-sensitive, "Access is denied" tested first. */
  function AccessHintOf(message: string): AccessHint {
    if Contains(message, "Access is denied") then PortBusy
    else if Contains(message, "does not exist") then PortMissing
    else NoAccessHint
  }

  /** `test_port_access`: true iff the open succeeds; a hint only after a `SerialException`. */
  function TestPortAccess(outcome: AccessOutcome): (r: (bool, AccessHint))
    ensures r.0 <==> outcome.Accessible?
    ensures r.1 != NoAccessHint ==> outcome.SerialError?
    ensures outcome.SerialError? ==> r.1 == AccessHintOf(outcome.message)
  {
    match outcome
    case Accessible => (true, NoAccessHint)
    case SerialError(message) => (false, AccessHintOf(message))
    case OtherError(_) => (false, NoAccessHint)
  }

  /** A message naming both causes gets the busy-port hint only. */
  lemma AccessHintPriority(message: string)
    ensures AccessHintOf(message) == PortBusy <==> Contains(message, "Access is denied")
    ensures AccessHintOf(message) == PortMissing <==>
      !Contains(message, "Access is denied") && Contains(message, "does not exist")
  {
  }

  /** A line `readline()` delivers: text, or bytes `decode()` rejects. */
  datatype Line = Text(text: string) | Undecodable

  /** What the serial layer does during the communication test: whether the
      open succeeds, the lines waiting after the start-up delay, whether
      writing, flushing and closing succeed, and the lines that arrive after the command. */
  datatype CommRun = CommRun(opens: bool, pending: seq<Line>, writeOk: bool, arriving: seq<Line>, closeOk: bool)

  /** The startup messages the drain loop prints, and the lines it leaves
      behind: it stops at the end of the input or just after a line that does not decode.
      The waiting lines are a finite list, so a device that never stops
      sending, which keeps `while arduino.in_waiting > 0` running, is not modelled. */
  function Drain(pending: seq<Line>): (seq<string>, seq<Line>) {
    if pending == [] then ([], [])
    else match pending[0]
      case Undecodable => ([], pending[1..])
      case Text(s) =>
        var rest := Drain(pending[1..]);
        (if Strip(s) != [] then [Strip(s)] + rest.0 else rest.0, rest.1)
  }

  /** What the drain loop leaves is the end of the input after a line that
      does not decode, and all start-up lines are consumed when every one decodes. */
  lemma {:induction false} DrainLeavesSuffix(pending: seq<Line>)
    ensures |Drain(pending).1| <= |pending| && Drain(pending).1 == pending[|pending| - |Drain(pending).1|..]
    ensures Drain(pending).1 != [] ==>
      |Drain(pending).1| < |pending| && pending[|pending| - |Drain(pending).1| - 1] == Undecodable
    ensures (forall i :: 0 <= i < |pending| ==> pending[i].Text?) ==> Drain(pending).1 == []
  {
    if pending != [] && pending[0].Text? {
      DrainLeavesSuffix(pending[1..]);
      assert forall i :: 0 <= i < |pending[1..]| ==> pending[1..][i] == pending[i + 1];
    }
  }

  /** The drain loop `while arduino.in_waiting > 0`. */
  method DrainStartup(pending: seq<Line>) returns (shown: seq<string>, left: seq<Line>)
    ensures (shown, left) == Drain(pending)
  {
    shown := [];
    left := pending;
    assert shown + Drain(left).0 == Drain(left).0;
    while left != []
      invariant Drain(pending) == (shown + Drain(left).0, Drain(left).1)
      decreases |left|
    {
      var line := left[0];
      ghost var after := Drain(left[1..]).0;
      left := left[1..];
      match line {
        case Undecodable =>
          assert shown + [] == shown;
          return;
        case Text(s) =>
          var msg := Strip(s);
          if msg != [] {
            assert (shown + [msg]) + after == shown + ([msg] + after);
            shown := shown + [msg];
          }
      }
    }
    assert shown + [] == shown;
  }

  /** What the communication test prints and returns. */
  datatype CommResult = CommResult(ok: bool, startup: seq<string>, responseReceived: bool)

  /** `test_arduino_communication`. The reply is the first line waiting after
      the command, which is a leftover startup line if the drain loop stopped early. */
  function TestArduinoCommunication(run: CommRun): (r: CommResult)
    ensures r.ok <==> run.opens && run.writeOk && run.closeOk
    ensures r.responseReceived ==> run.opens && run.writeOk
  {
    if !run.opens then CommResult(false, [], false)
    else
      var (startup, left) := Drain(run.pending);
      if !run.writeOk then CommResult(false, startup, false)
      else
        var waiting := left + run.arriving;
        var received := waiting != [] && waiting[0].Text? && Strip(waiting[0].text) != [];
        CommResult(run.closeOk, startup, received)
  }

  /** The test passes whenever nothing raised, whether or not a reply came. */
  lemma CommunicationIgnoresReply(run: CommRun, arriving: seq<Line>)
    ensures TestArduinoCommunication(run).ok == TestArduinoCommunication(run.(arriving := arriving)).ok
    ensures run.opens && run.writeOk && run.closeOk ==> TestArduinoCommunication(run.(arriving := [])).ok
  {
  }

  /** A start-up line that does not decode stops the drain loop, and the
      start-up line after it is then read as the reply, whatever arrives. */
  lemma UndecodableStartupLeavesLeftover(leftover: string, arriving: seq<Line>)
    requires Strip(leftover) != []
    ensures TestArduinoCommunication(CommRun(true, [Undecodable, Text(leftover)], true, arriving, true)).responseReceived
  {
    var pending := [Undecodable, Text(leftover)];
    assert Drain(pending) == ([], [Text(leftover)]);
  }

  /** How `main` ends. */
  datatype FixOutcome =
    | NoArduinoFound
    | NoAccessiblePort(candidates: seq<Port>)
    | Tested(working: seq<Port>, tried: seq<string>, ready: Option<string>)

  /** `working_ports`: the candidates whose access test passes, in order. */
  function WorkingPorts(candidates: seq<Port>, access: string -> AccessOutcome): seq<Port> {
    Filter(candidates, (p: Port) => access(p.device).Accessible?)
  }

  /** The communication test passes on the port's device. */
  predicate Ready(comm: string -> CommRun, p: Port) {
    TestArduinoCommunication(comm(p.device)).ok
  }

  /** The index of the first working port whose communication test passes. */
  function FirstReady(working: seq<Port>, comm: string -> CommRun): (r: Option<nat>)
    ensures r.Some? ==> r.value < |working| && Ready(comm, working[r.value])
    ensures r.Some? ==> forall j :: 0 <= j < r.value ==> !Ready(comm, working[j])
    ensures r.None? <==> forall j :: 0 <= j < |working| ==> !Ready(comm, working[j])
  {
    if working == [] then None
    else if Ready(comm, working[0]) then Some(0)
    else match FirstReady(working[1..], comm)
      case None => None
      case Some(k) => Some(k + 1)
  }

  /** What `main` reports for the given inputs. */
  function FixSpec(allPorts: seq<Port>, access: string -> AccessOutcome, comm: string -> CommRun): FixOutcome {
    var candidates := DescriptionCandidates(allPorts);
    if candidates == [] then NoArduinoFound
    else
      var working := WorkingPorts(candidates, access);
      if working == [] then NoAccessiblePort(candidates)
      else match FirstReady(working, comm)
        case None => Tested(working, DevicePaths(working), None)
        case Some(k) => Tested(working, DevicePaths(working[..k + 1]), Some(working[k].device))
  }

  /** The final loop of `main`: communication is tried in order, up to the first success. */
  method TryCommunication(working: seq<Port>, comm: string -> CommRun) returns (tried: seq<string>, ready: Option<string>)
    ensures ready.None? ==> FirstReady(working, comm).None? && tried == DevicePaths(working)
    ensures ready.Some? ==>
      (FirstReady(working, comm).Some?
       && tried == DevicePaths(working[..FirstReady(working, comm).value + 1])
       && ready.value == working[FirstReady(working, comm).value].device)
  {
    tried := [];
    ready := None;
    var i := 0;
    while i < |working|
      invariant 0 <= i <= |working|
      invariant tried == DevicePaths(working[..i])
      invariant forall j :: 0 <= j < i ==> !Ready(comm, working[j])
    {
      var device := working[i].device;
      var success := TestArduinoCommunication(comm(device)).ok;
      assert success == Ready(comm, working[i]);
      tried := tried + [device];
      assert tried == DevicePaths(working[..i + 1]);
      if success {
        ready := Some(device);
        return;
      }
      i := i + 1;
    }
    assert working[..i] == working;
  }

  /** `main` */
  method Troubleshoot(procs: seq<ProcInfo>, allPorts: seq<Port>, access: string -> AccessOutcome, comm: string -> CommRun)
    returns (blocking: seq<ProcInfo>, outcome: FixOutcome)
    ensures blocking == Filter(procs, ArduinoProcess)
    ensures outcome == FixSpec(allPorts, access, comm)
  {
    blocking := CheckProcessesUsingPort(procs);
    var arduinoPorts := FindArduinoPorts(allPorts);
    if arduinoPorts == [] {
      return blocking, NoArduinoFound;
    }
    var keep := (p: Port) => access(p.device).Accessible?;
    var workingPorts: seq<Port> := [];
    for i := 0 to |arduinoPorts|
      invariant workingPorts == Filter(arduinoPorts[..i], keep)
    {
      var port := arduinoPorts[i];
      FilterSnoc(arduinoPorts[..i], port, keep);
      assert arduinoPorts[..i + 1] == arduinoPorts[..i] + [port];
      var (accessible, _) := TestPortAccess(access(port.device));
      if accessible {
        workingPorts := workingPorts + [port];
      }
    }
    assert arduinoPorts[..|arduinoPorts|] == arduinoPorts;
    if workingPorts == [] {
      return blocking, NoAccessiblePort(arduinoPorts);
    }
    var tried, ready := TryCommunication(workingPorts, comm);
    return blocking, Tested(workingPorts, tried, ready);
  }

  /** The working ports are the accessible candidates in order; the port
      declared ready is one that is accessible and passes the communication test. */
  lemma ReadyPortIsAccessible(allPorts: seq<Port>, access: string -> AccessOutcome, comm: string -> CommRun)
    requires FixSpec(allPorts, access, comm).Tested? && FixSpec(allPorts, access, comm).ready.Some?
    ensures var d := FixSpec(allPorts, access, comm).ready.value;
      exists p :: p in allPorts && DescriptionMatch(p) && p.device == d && access(d).Accessible?
        && TestArduinoCommunication(comm(d)).ok
  {
    var candidates := DescriptionCandidates(allPorts);
    var keep := (p: Port) => access(p.device).Accessible?;
    var working := WorkingPorts(candidates, access);
    var k := FirstReady(working, comm).value;
    var p := working[k];
    FilterMembership(candidates, keep, p);
    FilterMembership(allPorts, DescriptionMatch, p);
  }
}
