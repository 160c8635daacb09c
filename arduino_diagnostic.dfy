/** arduino_diagnostic.py: the dependency check, the port listing with its
    Arduino-like flag, the connection test with its error hints, the
    blocking-process matcher and the gating and summary of `main`. The set
    of importable module names, the enumerated ports, the outcome of opening
    each device and the process table are inputs. */
module ArduinoDiagnostic {
  import opened Wrappers
  import opened Strings
  import opened Sequences
  import opened SerialPorts

  /** `required_packages`: names of distributions, handed to `__import__` as they are. */
  const RequiredPackages: seq<string> := ["pyserial", "psutil", "flask"]

  /** The packages whose `__import__(package)` fails, in list order. */
  function MissingPackages(importable: set<string>): seq<string> {
    Filter(RequiredPackages, p => p !in importable)
  }

  /** `check_python_dependencies` as written: it returns whether nothing is
      missing, and the missing list it prints. */
  method CheckPythonDependencies(importable: set<string>) returns (ok: bool, missing: seq<string>)
    ensures missing == MissingPackages(importable)
    ensures ok <==> missing == []
  {
    var keep := (p: string) => p !in importable;
    missing := [];
    for i := 0 to |RequiredPackages|
      invariant missing == Filter(RequiredPackages[..i], keep)
    {
      var package := RequiredPackages[i];
      FilterSnoc(RequiredPackages[..i], package, keep);
      assert RequiredPackages[..i + 1] == RequiredPackages[..i] + [package];
      if package !in importable {
        missing := missing + [package];
      }
    }
    assert RequiredPackages[..|RequiredPackages|] == RequiredPackages;
    ok := |missing| == 0;
  }

  /** The missing list is an ordered selection from the three packages, and
      the check passes iff every one of the three names imports. */
  lemma MissingPackagesIff(importable: set<string>, p: string)
    ensures p in MissingPackages(importable) <==> p in RequiredPackages && p !in importable
    ensures IsSubsequence(MissingPackages(importable), RequiredPackages)
    ensures MissingPackages(importable) == [] <==> "pyserial" in importable && "psutil" in importable && "flask" in importable
  {
    var keep := (q: string) => q !in importable;
    FilterMembership(RequiredPackages, keep, p);
    FilterIsSubsequence(RequiredPackages, keep);
    FilterEmptyIff(RequiredPackages, keep);
    assert RequiredPackages[0] == "pyserial" && RequiredPackages[1] == "psutil" && RequiredPackages[2] == "flask";
  }

  /** The distribution pyserial installs the module `serial`; no module is called `pyserial`. */
  function ModuleOf(package: string): string {
    if package == "pyserial" then "serial" else package
  }

  /** The module names a machine with pyserial, psutil and flask installed can import. */
  const AllInstalled: set<string> := {"serial", "psutil", "flask"}

  /** As written, the check reports pyserial missing on a machine that has
      all three installed, so `main` skips the connection test there. */
  lemma DependencyCheckRejectsInstalledPyserial()
    ensures MissingPackages(AllInstalled) == ["pyserial"]
    ensures !RunsConnectionTest(MissingPackages(AllInstalled) == [], [Port("/dev/ttyUSB0", "USB Serial")])
  {
    assert RequiredPackages == ["pyserial"] + ["psutil", "flask"];
    assert ["psutil", "flask"] == ["psutil"] + ["flask"];
    assert ["flask"][1..] == [];
  }

  /** The evidently intended check: import the module each distribution installs. */
  function MissingModules(importable: set<string>): seq<string> {
    Filter(RequiredPackages, p => ModuleOf(p) !in importable)
  }

  /** The corrected check passes iff the three modules import; in particular
      it passes on a machine with all three distributions installed. */
  lemma MissingModulesIff(importable: set<string>)
    ensures MissingModules(importable) == [] <==> "serial" in importable && "psutil" in importable && "flask" in importable
    ensures MissingModules(AllInstalled) == []
  {
    var keep := (q: string) => ModuleOf(q) !in importable;
    FilterEmptyIff(RequiredPackages, keep);
    assert RequiredPackages[0] == "pyserial" && RequiredPackages[1] == "psutil" && RequiredPackages[2] == "flask";
    var keepAll := (q: string) => ModuleOf(q) !in AllInstalled;
    FilterEmptyIff(RequiredPackages, keepAll);
  }

  /** `check_serial_ports`: every enumerated port is returned, each with its
      Arduino-like flag (description only, five keywords); nothing when
      `serial.tools.list_ports` cannot be imported. */
  method CheckSerialPorts(serialAvailable: bool, enumerated: seq<Port>) returns (ports: seq<Port>, arduinoLike: seq<bool>)
    ensures ports == if serialAvailable then enumerated else []
    ensures |arduinoLike| == |ports|
    ensures forall i :: 0 <= i < |ports| ==> arduinoLike[i] == DescriptionMatch(ports[i])
  {
    if !serialAvailable {
      return [], [];
    }
    ports := enumerated;
    arduinoLike := [];
    for i := 0 to |ports|
      invariant |arduinoLike| == i
      invariant forall j :: 0 <= j < i ==> arduinoLike[j] == DescriptionMatch(ports[j])
    {
      var isArduinoLike := AnyKeywordIn(DescriptionKeywords, Lower(ports[i].description));
      arduinoLike := arduinoLike + [isArduinoLike];
    }
  }

  /** The hint printed after a `SerialException`. */
  datatype Hint = PermissionHint | PortInUseHint | DisconnectedHint | NoHint

  /** The `if`/`elif` chain on `str(e)`: case-sensitive substrings, first match wins. */
  function SerialErrorHint(message: string): Hint {
    if Contains(message, "Permission denied") then PermissionHint
    else if Contains(message, "Access is denied") then PortInUseHint
    else if Contains(message, "Device not found") then DisconnectedHint
    else NoHint
  }

  /** Each hint is given exactly when its phrase occurs and no phrase earlier in the chain does. */
  lemma SerialErrorHintIff(message: string)
    ensures SerialErrorHint(message) == PermissionHint <==> Contains(message, "Permission denied")
    ensures SerialErrorHint(message) == PortInUseHint <==>
      !Contains(message, "Permission denied") && Contains(message, "Access is denied")
    ensures SerialErrorHint(message) == DisconnectedHint <==>
      !Contains(message, "Permission denied") && !Contains(message, "Access is denied") && Contains(message, "Device not found")
    ensures SerialErrorHint(message) == NoHint <==>
      !Contains(message, "Permission denied") && !Contains(message, "Access is denied") && !Contains(message, "Device not found")
  {
  }

  /** The phrases are matched case-sensitively: a lower-case "permission denied" gets no hint. */
  lemma LowerCasePhraseGetsNoHint()
    ensures SerialErrorHint("permission denied") == NoHint
  {
    var m := "permission denied";
    assert forall i :: 0 <= i < |m| ==> 'a' <= m[i] <= 'z' || m[i] == ' ';
    NotContainsIfCharAbsent(m, "Permission denied", 0);
    NotContainsIfCharAbsent(m, "Access is denied", 0);
    NotContainsIfCharAbsent(m, "Device not found", 0);
  }

  /** How the test of one device ended. `Completed` means every step of the
      `try` went through: the open, the write and flush, the `in_waiting`
      poll, the read of a waiting line (kept, if there was one) and the
      close. `SerialFailure` and `OtherFailure` mean that one of those steps
      raised a `SerialException` or another exception (a reply that is not
      UTF-8 raises `UnicodeDecodeError`); `didOpen` says whether
      `serial.Serial` had returned before that. */
  datatype PortTest =
    | Completed(response: Option<string>)
    | SerialFailure(didOpen: bool, message: string)
    | OtherFailure(didOpen: bool, message: string)

  /** What the test prints for one port: whether "Successfully opened" was
      printed, whether it went on to "Successfully closed", and the hint. */
  datatype TestReport = TestReport(device: string, didOpen: bool, completed: bool, hint: Hint)

  function ReportFor(port: Port, outcome: PortTest): (r: TestReport)
    ensures r.device == port.device
    ensures r.completed <==> outcome.Completed?
    ensures r.didOpen <==> outcome.Completed? || outcome.didOpen
    ensures r.hint != NoHint ==> outcome.SerialFailure?
    ensures outcome.SerialFailure? ==> r.hint == SerialErrorHint(outcome.message)
  {
    match outcome
    case Completed(_) => TestReport(port.device, true, true, NoHint)
    case SerialFailure(didOpen, message) => TestReport(port.device, didOpen, false, SerialErrorHint(message))
    case OtherFailure(didOpen, _) => TestReport(port.device, didOpen, false, NoHint)
  }

  /** A port that opens and then raises "Permission denied" on a later step
      is reported as opened, not completed, with the permission hint. */
  lemma OpenedThenDeniedReport(port: Port, message: string)
    requires Contains(message, "Permission denied")
    ensures ReportFor(port, SerialFailure(true, message)) == TestReport(port.device, true, false, PermissionHint)
  {
  }

  /** The reports of `test_serial_connection`: one per port, in order, whatever the earlier ones gave. */
  function ConnectionReports(ports: seq<Port>, outcome: string -> PortTest): (r: seq<TestReport>)
    ensures |r| == |ports|
    ensures forall i :: 0 <= i < |ports| ==> r[i] == ReportFor(ports[i], outcome(ports[i].device))
  {
    seq(|ports|, i requires 0 <= i < |ports| => ReportFor(ports[i], outcome(ports[i].device)))
  }

  /** `test_serial_connection`: every port is tried; nothing when there are
      no ports or `serial` cannot be imported. */
  method TestSerialConnection(ports: seq<Port>, serialAvailable: bool, outcome: string -> PortTest)
    returns (reports: seq<TestReport>)
    ensures reports == if serialAvailable then ConnectionReports(ports, outcome) else []
  {
    if ports == [] {
      return [];
    }
    if !serialAvailable {
      return [];
    }
    reports := [];
    for i := 0 to |ports|
      invariant reports == ConnectionReports(ports[..i], outcome)
    {
      reports := reports + [ReportFor(ports[i], outcome(ports[i].device))];
    }
    assert ports[..|ports|] == ports;
  }

  /** `arduino_keywords` of the process check. */
  const ProcessKeywords: seq<string> := ["arduino", "serial", "tty", "com"]

  /** A `proc.info` record; psutil gives None for a field it may not read. */
  datatype ProcInfo = ProcInfo(pid: int, name: Option<string>, cmdline: Option<seq<string>>)

  predicate NameMatches(p: ProcInfo) {
    p.name.Some? && p.name.value != [] && AnyKeywordIn(ProcessKeywords, Lower(p.name.value))
  }

  predicate CmdlineMatches(p: ProcInfo) {
    p.cmdline.Some? && p.cmdline.value != [] && AnyKeywordIn(ProcessKeywords, Lower(Join(p.cmdline.value, " ")))
  }

  /** The test on the name, and, when it fails, the test on the joined command line. */
  predicate Blocking(p: ProcInfo) {
    if NameMatches(p) then true else CmdlineMatches(p)
  }

  /** The processes flagged, in table order. */
  function BlockingProcesses(procs: seq<ProcInfo>): seq<ProcInfo> {
    Filter(procs, Blocking)
  }

  /** `check_running_processes`, with the table `process_iter` yields, or None when psutil cannot be imported. */
  method CheckRunningProcesses(procs: Option<seq<ProcInfo>>) returns (blocking: seq<ProcInfo>)
    ensures blocking == if procs.Some? then BlockingProcesses(procs.value) else []
  {
    blocking := [];
    if procs.None? {
      return;
    }
    var table := procs.value;
    for i := 0 to |table|
      invariant blocking == Filter(table[..i], Blocking)
    {
      var proc := table[i];
      FilterSnoc(table[..i], proc, Blocking);
      assert table[..i + 1] == table[..i] + [proc];
      if proc.name.Some? && proc.name.value != [] && AnyKeywordIn(ProcessKeywords, Lower(proc.name.value)) {
        blocking := blocking + [proc];
      } else if proc.cmdline.Some? && proc.cmdline.value != [] {
        var cmdlineStr := Lower(Join(proc.cmdline.value, " "));
        if AnyKeywordIn(ProcessKeywords, cmdlineStr) {
          blocking := blocking + [proc];
        }
      }
    }
    assert table[..|table|] == table;
  }

  /** A process is flagged iff its name or its command line matches; being
      flagged by both still adds it only once, so no process is listed more
      often than it occurs in the table. */
  lemma BlockingIff(procs: seq<ProcInfo>, p: ProcInfo)
    ensures Blocking(p) <==> NameMatches(p) || CmdlineMatches(p)
    ensures p in BlockingProcesses(procs) <==> p in procs && (NameMatches(p) || CmdlineMatches(p))
    ensures |BlockingProcesses(procs)| <= |procs|
    ensures IsSubsequence(BlockingProcesses(procs), procs)
  {
    FilterMembership(procs, Blocking, p);
    FilterLength(procs, Blocking);
    FilterIsSubsequence(procs, Blocking);
  }

  /** A keyword in any one argument, in any letter case, flags the process. */
  lemma ArgumentKeywordFlags(p: ProcInfo, i: int, k: string)
    requires p.cmdline.Some? && 0 <= i < |p.cmdline.value|
    requires k in ProcessKeywords && Contains(Lower(p.cmdline.value[i]), k)
    ensures Blocking(p)
  {
    var parts := p.cmdline.value;
    var lowered := seq(|parts|, j requires 0 <= j < |parts| => Lower(parts[j]));
    LowerJoin(parts, " ");
    assert Lower(" ") == " ";
    JoinContainsPart(lowered, " ", i, k);
  }

  /** `deps_ok and ports` */
  predicate RunsConnectionTest(depsOk: bool, ports: seq<Port>) {
    depsOk && ports != []
  }

  /** The line printed under SUMMARY. */
  datatype Summary = MissingDependencies | NoSerialPorts | LooksGood

  function SummaryOf(depsOk: bool, ports: seq<Port>): (s: Summary)
    ensures s == LooksGood <==> RunsConnectionTest(depsOk, ports)
    ensures s == MissingDependencies <==> !depsOk
  {
    if !depsOk then MissingDependencies
    else if ports == [] then NoSerialPorts
    else LooksGood
  }

  /** What one run of `main` reports. */
  datatype Diagnosis = Diagnosis(missing: seq<string>, ports: seq<Port>, arduinoLike: seq<bool>,
    tests: seq<TestReport>, blocking: seq<ProcInfo>, summary: Summary)

  /** `main` */
  method RunDiagnostic(importable: set<string>, enumerated: seq<Port>, outcome: string -> PortTest, procs: Option<seq<ProcInfo>>)
    returns (d: Diagnosis)
    ensures d.missing == MissingPackages(importable)
    ensures d.summary == SummaryOf(MissingPackages(importable) == [], d.ports)
    ensures d.ports == if "serial" in importable then enumerated else []
    ensures |d.arduinoLike| == |d.ports|
    ensures forall i :: 0 <= i < |d.ports| ==> d.arduinoLike[i] == DescriptionMatch(d.ports[i])
    ensures d.tests == if RunsConnectionTest(MissingPackages(importable) == [], d.ports) then ConnectionReports(d.ports, outcome) else []
    ensures d.blocking == if procs.Some? then BlockingProcesses(procs.value) else []
  {
    var depsOk, missing := CheckPythonDependencies(importable);
    var ports, arduinoLike := CheckSerialPorts("serial" in importable, enumerated);
    var tests := [];
    if depsOk && ports != [] {
      tests := TestSerialConnection(ports, "serial" in importable, outcome);
    }
    var blocking := CheckRunningProcesses(procs);
    d := Diagnosis(missing, ports, arduinoLike, tests, blocking, SummaryOf(depsOk, ports));
  }

  /** `main` runs the connection test iff the three names pyserial, psutil
      and flask all import and at least one port was listed. */
  lemma ConnectionTestGate(importable: set<string>, ports: seq<Port>)
    ensures RunsConnectionTest(MissingPackages(importable) == [], ports) <==>
      "pyserial" in importable && "psutil" in importable && "flask" in importable && ports != []
  {
    MissingPackagesIff(importable, "pyserial");
  }

  /** As written, no machine runs the connection test unless something
      importable is called `pyserial`. */
  lemma ConnectionTestNeedsPyserialModule(importable: set<string>, ports: seq<Port>)
    requires "pyserial" !in importable
    ensures !RunsConnectionTest(MissingPackages(importable) == [], ports)
  {
    MissingPackagesIff(importable, "pyserial");
  }
}
