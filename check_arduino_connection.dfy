/** check_arduino_connection.py: the Arduino-like port filter and the
    monitor loop of `main`, which reports a change in the set of Arduino-like
    devices and then tries the candidates in order until one connects. The
    monitor runs until interrupted; here it runs over a finite sequence of scans. */
module CheckArduinoConnection {
  import opened Wrappers
  import opened Strings
  import opened Sequences
  import opened SerialPorts

  /** `check_arduino_ports`, over the ports `comports()` enumerates. */
  method CheckArduinoPorts(ports: seq<Port>) returns (arduinoPorts: seq<Port>)
    ensures arduinoPorts == ExtendedCandidates(ports)
  {
    arduinoPorts := [];
    for i := 0 to |ports|
      invariant arduinoPorts == Filter(ports[..i], ExtendedMatch)
    {
      var port := ports[i];
      var isArduinoLike := AnyKeywordIn(ExtendedKeywords, Lower(port.description));
      isArduinoLike := isArduinoLike || AnyKeywordIn(ExtendedKeywords, Lower(port.device));
      FilterSnoc(ports[..i], port, ExtendedMatch);
      assert ports[..i + 1] == ports[..i] + [port];
      if isArduinoLike {
        arduinoPorts := arduinoPorts + [port];
      }
    }
    assert ports[..|ports|] == ports;
  }

  /** The ports kept are exactly the Arduino-like ones, in enumeration order. */
  lemma ArduinoPortsAreOrderedSelection(ports: seq<Port>, p: Port)
    ensures p in ExtendedCandidates(ports) <==> p in ports && ExtendedMatch(p)
    ensures IsSubsequence(ExtendedCandidates(ports), ports)
  {
    FilterMembership(ports, ExtendedMatch, p);
    FilterIsSubsequence(ports, ExtendedMatch);
  }

  /** One pass of the monitor: the enumerated ports, and the devices on which
      the whole connection test (open, write, flush, optional read) succeeds. */
  datatype Scan = Scan(ports: seq<Port>, connectable: set<string>)

  /** What a pass prints when the set of devices changed: the devices found,
      the devices tried in order and the one that connected; or that none was found. */
  datatype Event =
    | Detected(devices: set<string>, tried: seq<string>, connected: Option<string>)
    | NoArduino

  /** `set(p.device for p in arduino_ports)` */
  function Devices(ports: seq<Port>): set<string> {
    set i | 0 <= i < |ports| :: ports[i].device
  }

  /** The index of the first candidate that connects. */
  function FirstConnectable(candidates: seq<Port>, connectable: set<string>): (r: Option<nat>)
    ensures r.Some? ==> r.value < |candidates| && candidates[r.value].device in connectable
    ensures r.Some? ==> forall j :: 0 <= j < r.value ==> candidates[j].device !in connectable
    ensures r.None? <==> forall j :: 0 <= j < |candidates| ==> candidates[j].device !in connectable
  {
    if candidates == [] then None
    else if candidates[0].device in connectable then Some(0)
    else match FirstConnectable(candidates[1..], connectable)
      case None => None
      case Some(k) => Some(k + 1)
  }

  /** The devices the inner loop tries, which stops at the first that connects, and that device. */
  function Attempts(candidates: seq<Port>, connectable: set<string>): (seq<string>, Option<string>) {
    match FirstConnectable(candidates, connectable)
    case None => (DevicePaths(candidates), None)
    case Some(k) => (DevicePaths(candidates[..k + 1]), Some(candidates[k].device))
  }

  /** Connection attempts go through the candidates in order: every device
      tried before the last one failed, and the last one tried is the one that
      connected, if any did; when none connects, every candidate was tried. */
  lemma AttemptsInOrder(candidates: seq<Port>, connectable: set<string>)
    ensures var (tried, connected) := Attempts(candidates, connectable);
      tried <= DevicePaths(candidates)
      && (forall j :: 0 <= j < |tried| - 1 ==> tried[j] !in connectable)
      && (connected.Some? <==> exists j :: 0 <= j < |candidates| && candidates[j].device in connectable)
      && (connected.Some? ==> tried != [] && connected.value == tried[|tried| - 1] && connected.value in connectable)
      && (connected.None? ==> tried == DevicePaths(candidates))
  {
  }

  /** What one pass prints, given `last_ports`: nothing when the devices did not change. */
  function ScanEvents(scan: Scan, last: set<string>): seq<Event> {
    var candidates := ExtendedCandidates(scan.ports);
    var current := Devices(candidates);
    if current == last then []
    else if current != {} then
      var (tried, connected) := Attempts(candidates, scan.connectable);
      [Detected(current, tried, connected)]
    else [NoArduino]
  }

  /** `last_ports` after one pass: the devices found, whether or not they changed. */
  function NextLast(scan: Scan, last: set<string>): (r: set<string>)
    ensures r == Devices(ExtendedCandidates(scan.ports))
  {
    var current := Devices(ExtendedCandidates(scan.ports));
    if current != last then current else last
  }

  /** The events of the monitor over the remaining scans, given `last_ports`. */
  function MonitorEvents(scans: seq<Scan>, last: set<string>): seq<Event>
    decreases |scans|
  {
    if scans == [] then []
    else ScanEvents(scans[0], last) + MonitorEvents(scans[1..], NextLast(scans[0], last))
  }

  /** The inner `for port in arduino_ports` loop with its `break`. */
  method TryConnect(candidates: seq<Port>, connectable: set<string>) returns (tried: seq<string>, connected: Option<string>)
    ensures (tried, connected) == Attempts(candidates, connectable)
  {
    tried := [];
    connected := None;
    var i := 0;
    while i < |candidates|
      invariant 0 <= i <= |candidates|
      invariant tried == DevicePaths(candidates[..i])
      invariant forall j :: 0 <= j < i ==> candidates[j].device !in connectable
    {
      var device := candidates[i].device;
      tried := tried + [device];
      assert tried == DevicePaths(candidates[..i + 1]);
      if device in connectable {
        connected := Some(device);
        return;
      }
      i := i + 1;
    }
    assert candidates[..i] == candidates;
  }

  /** One pass of `main`'s loop body: the events it prints and the new `last_ports`. */
  method Pass(scan: Scan, lastPorts: set<string>) returns (step: seq<Event>, nextPorts: set<string>)
    ensures step == ScanEvents(scan, lastPorts) && nextPorts == NextLast(scan, lastPorts)
  {
    var arduinoPorts := CheckArduinoPorts(scan.ports);
    var currentPorts := Devices(arduinoPorts);
    step := [];
    nextPorts := lastPorts;
    if currentPorts != lastPorts {
      if currentPorts != {} {
        var tried, connected := TryConnect(arduinoPorts, scan.connectable);
        step := [Detected(currentPorts, tried, connected)];
      } else {
        step := [NoArduino];
      }
      nextPorts := currentPorts;
    }
  }

  /** `main`'s `while True` loop over the given scans. */
  method Monitor(scans: seq<Scan>) returns (events: seq<Event>)
    ensures events == MonitorEvents(scans, {})
  {
    var lastPorts: set<string> := {};
    events := [];
    for i := 0 to |scans|
      invariant MonitorEvents(scans, {}) == events + MonitorEvents(scans[i..], lastPorts)
    {
      var step, nextPorts := Pass(scans[i], lastPorts);
      MonitorUnfold(scans, i, lastPorts);
      AppendAssoc(events, step, MonitorEvents(scans[i + 1..], nextPorts));
      events := events + step;
      lastPorts := nextPorts;
    }
    assert scans[|scans|..] == [];
  }

  /** The events of the scans from `i` on are those of scan `i` followed by the rest. */
  lemma MonitorUnfold(scans: seq<Scan>, i: nat, last: set<string>)
    requires i < |scans|
    ensures MonitorEvents(scans[i..], last)
      == ScanEvents(scans[i], last) + MonitorEvents(scans[i + 1..], NextLast(scans[i], last))
  {
    assert scans[i..][1..] == scans[i + 1..];
  }

  /** A scan that finds the same devices as the previous one prints nothing. */
  lemma UnchangedScanIsSilent(scan: Scan, rest: seq<Scan>, last: set<string>)
    requires Devices(ExtendedCandidates(scan.ports)) == last
    ensures MonitorEvents([scan] + rest, last) == MonitorEvents(rest, last)
  {
    assert ([scan] + rest)[1..] == rest;
  }

  /** There is at most one event per scan. */
  lemma {:induction false} AtMostOneEventPerScan(scans: seq<Scan>, last: set<string>)
    ensures |MonitorEvents(scans, last)| <= |scans|
  {
    if scans != [] {
      var current := Devices(ExtendedCandidates(scans[0].ports));
      AtMostOneEventPerScan(scans[1..], if current == last then last else current);
    }
  }

  /** A run of scans that all find the same devices reports once at most,
      and not at all when those are the devices already known. */
  lemma {:induction false} RepeatedScansReportOnce(scans: seq<Scan>, last: set<string>, devices: set<string>)
    requires forall i :: 0 <= i < |scans| ==> Devices(ExtendedCandidates(scans[i].ports)) == devices
    ensures |MonitorEvents(scans, last)| <= 1
    ensures devices == last ==> MonitorEvents(scans, last) == []
  {
    if scans != [] {
      assert forall i :: 0 <= i < |scans[1..]| ==> scans[1..][i] == scans[i + 1];
      RepeatedScansReportOnce(scans[1..], devices, devices);
      if devices == last {
        RepeatedScansReportOnce(scans[1..], last, devices);
      }
    }
  }
}
