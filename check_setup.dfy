/** check_setup.py: the requirements-file parser, the dependency and
    Arduino checks with their aggregation, the version predicate and the
    exit code of `main`. What the environment answers (which modules import,
    which ports exist, the interpreter version) is given as input. */
module CheckSetup {
  import opened Wrappers
  import opened Strings
  import opened Sequences
  import opened SerialPorts

  /** The lines kept by the comprehension: not blank once stripped, and not
      starting with '#' (tested on the line before stripping). */
  predicate IsRequirementLine(line: string) {
    Strip(line) != [] && !("#" <= line)
  }

  /** `line.strip().split('>=')[0].split('==')[0]` */
  function RequirementName(line: string): string {
    BeforeFirst(BeforeFirst(Strip(line), ">="), "==")
  }

  /** The comprehension over the lines of requirements.txt. */
  function Requirements(lines: seq<string>): seq<string> {
    if lines == [] then []
    else if IsRequirementLine(lines[0]) then [RequirementName(lines[0])] + Requirements(lines[1..])
    else Requirements(lines[1..])
  }

  /** A name is a prefix of its stripped line and holds neither `>=` nor `==`;
      it is the whole stripped line exactly when that line holds neither. */
  lemma RequirementNameShape(line: string)
    ensures RequirementName(line) <= Strip(line)
    ensures !Contains(RequirementName(line), ">=") && !Contains(RequirementName(line), "==")
    ensures RequirementName(line) == Strip(line) <==> !Contains(Strip(line), ">=") && !Contains(Strip(line), "==")
  {
    var s := Strip(line);
    var first := BeforeFirst(s, ">=");
    var name := BeforeFirst(first, "==");
    PrefixTransitive(name, first, s);
    if Contains(name, ">=") {
      ContainsInPrefix(name, first, ">=");
    }
    BeforeFirstWhole(s, ">=");
    BeforeFirstWhole(first, "==");
    if name == s {
      assert first == s by {
        assert |name| <= |first| <= |s|;
      }
    }
  }

  /** The requirements are the names of the kept lines, in file order:
      one name per kept line, none for a blank or comment line. */
  lemma {:induction false} RequirementsOfLines(lines: seq<string>)
    ensures |Requirements(lines)| == |Filter(lines, IsRequirementLine)|
    ensures forall i :: 0 <= i < |Requirements(lines)| ==>
      Requirements(lines)[i] == RequirementName(Filter(lines, IsRequirementLine)[i])
  {
    if lines != [] {
      RequirementsOfLines(lines[1..]);
      var rest := Requirements(lines[1..]);
      var kept := Filter(lines[1..], IsRequirementLine);
      if IsRequirementLine(lines[0]) {
        assert Requirements(lines) == [RequirementName(lines[0])] + rest;
        assert Filter(lines, IsRequirementLine) == [lines[0]] + kept;
      } else {
        assert Requirements(lines) == rest;
        assert Filter(lines, IsRequirementLine) == kept;
      }
    }
  }

  /** Blank lines and comment lines contribute nothing. */
  lemma {:induction false} SkippedLinesIgnored(lines: seq<string>, skipped: seq<string>)
    requires forall i :: 0 <= i < |skipped| ==> !IsRequirementLine(skipped[i])
    ensures Requirements(skipped + lines) == Requirements(lines)
  {
    if skipped != [] {
      assert (skipped + lines)[0] == skipped[0];
      assert (skipped + lines)[1..] == skipped[1..] + lines;
      assert !IsRequirementLine(skipped[0]);
      assert Requirements(skipped + lines) == Requirements(skipped[1..] + lines);
      assert forall i :: 0 <= i < |skipped[1..]| ==> skipped[1..][i] == skipped[i + 1];
      SkippedLinesIgnored(lines, skipped[1..]);
    } else {
      assert skipped + lines == lines;
    }
  }

  /** `package_mappings` */
  const PackageMappings: map<string, string> :=
    map["opencv-python" := "cv2", "pillow" := "PIL", "scikit-learn" := "sklearn", "ultralytics" := "ultralytics"]

  /** `package_mappings.get(package, package)` */
  function ImportName(package: string): string {
    if package in PackageMappings then PackageMappings[package] else package
  }

  /** Three distributions import under another name; every other package,
      ultralytics included, imports under its own. */
  lemma ImportNameCases(package: string)
    ensures package == "opencv-python" ==> ImportName(package) == "cv2"
    ensures package == "pillow" ==> ImportName(package) == "PIL"
    ensures package == "scikit-learn" ==> ImportName(package) == "sklearn"
    ensures package !in {"opencv-python", "pillow", "scikit-learn"} ==> ImportName(package) == package
  {
  }

  /** `importlib.import_module` raises something other than `ImportError`
      for an empty name (`ValueError`) and for a relative name (`TypeError`);
      `check_dependencies` does not catch either. */
  predicate ImportRaisesOther(name: string) {
    name == [] || name[0] == '.'
  }

  /** Some requirement makes `import_module` raise an uncaught error. */
  predicate AnyImportRaisesOther(requirements: seq<string>) {
    exists i :: 0 <= i < |requirements| && ImportRaisesOther(ImportName(requirements[i]))
  }

  /** `package` is the first requirement whose import raises an uncaught error. */
  predicate FirstCrash(requirements: seq<string>, package: string) {
    exists k :: 0 <= k < |requirements| && requirements[k] == package && ImportRaisesOther(ImportName(requirements[k]))
      && forall j :: 0 <= j < k ==> !ImportRaisesOther(ImportName(requirements[j]))
  }

  /** The packages whose import fails, in requirement order. */
  function Missing(requirements: seq<string>, importable: set<string>): seq<string> {
    Filter(requirements, p => ImportName(p) !in importable)
  }

  /** A package is missing iff it is required and its import name does not import;
      the missing list is an order-preserving subsequence of the requirements. */
  lemma MissingIff(requirements: seq<string>, importable: set<string>, p: string)
    ensures p in Missing(requirements, importable) <==> p in requirements && ImportName(p) !in importable
    ensures IsSubsequence(Missing(requirements, importable), requirements)
    ensures Missing(requirements, importable) == [] <==>
      forall i :: 0 <= i < |requirements| ==> ImportName(requirements[i]) in importable
  {
    var keep := (q: string) => ImportName(q) !in importable;
    FilterMembership(requirements, keep, p);
    FilterIsSubsequence(requirements, keep);
    FilterEmptyIff(requirements, keep);
  }

  /** What `check_dependencies` ends with. */
  datatype DependencyResult =
    | NoRequirementsFile
    | Checked(allGood: bool, missing: seq<string>)
    | ImportCrashed(package: string)

  /** `check_dependencies`, with the lines of requirements.txt (None when the
      file does not exist) and the set of module names that import. */
  method CheckDependencies(requirementsFile: Option<seq<string>>, importable: set<string>) returns (r: DependencyResult)
    ensures requirementsFile.None? <==> r == NoRequirementsFile
    ensures r.Checked? ==> (r.allGood <==> r.missing == [])
    ensures r.Checked? ==> r.missing == Missing(Requirements(requirementsFile.value), importable)
    ensures requirementsFile.Some? ==> (r.ImportCrashed? <==> AnyImportRaisesOther(Requirements(requirementsFile.value)))
    ensures r.ImportCrashed? ==> r.package in Requirements(requirementsFile.value) && ImportRaisesOther(ImportName(r.package))
    ensures r.ImportCrashed? ==> FirstCrash(Requirements(requirementsFile.value), r.package)
  {
    if requirementsFile.None? {
      return NoRequirementsFile;
    }
    r := CheckImports(Requirements(requirementsFile.value), importable);
  }

  /** The loop of `check_dependencies` over the parsed requirements. */
  method CheckImports(requirements: seq<string>, importable: set<string>) returns (r: DependencyResult)
    ensures !r.NoRequirementsFile?
    ensures r.Checked? ==> (r.allGood <==> r.missing == [])
    ensures r.Checked? ==> r.missing == Missing(requirements, importable)
    ensures r.ImportCrashed? <==> AnyImportRaisesOther(requirements)
    ensures r.ImportCrashed? ==> r.package in requirements && ImportRaisesOther(ImportName(r.package))
    ensures r.ImportCrashed? ==> FirstCrash(requirements, r.package)
  {
    var allGood := true;
    var missing: seq<string> := [];
    var keep := (q: string) => ImportName(q) !in importable;
    for i := 0 to |requirements|
      invariant missing == Filter(requirements[..i], keep)
      invariant allGood <==> missing == []
      invariant forall j :: 0 <= j < i ==> !ImportRaisesOther(ImportName(requirements[j]))
    {
      var package := requirements[i];
      var importName := ImportName(package);
      FilterSnoc(requirements[..i], package, keep);
      assert requirements[..i + 1] == requirements[..i] + [package];
      if ImportRaisesOther(importName) {
        assert AnyImportRaisesOther(requirements);
        assert FirstCrash(requirements, package);
        return ImportCrashed(package);
      }
      if importName !in importable {
        missing := missing + [package];
        allGood := false;
      }
    }
    assert requirements[..|requirements|] == requirements;
    return Checked(allGood, missing);
  }

  /** `check_python_version` as written: both components compared separately. */
  predicate PythonVersionOk(major: int, minor: int) {
    major >= 3 && minor >= 8
  }

  /** The evidently intended test, "at least 3.8", ordering versions lexicographically. */
  predicate PythonVersionAtLeast(major: int, minor: int) {
    major > 3 || (major == 3 && minor >= 8)
  }

  /** The test as written rejects every version 4.0 to 4.7, which are at least 3.8. */
  lemma PythonVersionRejectsFourZero()
    ensures !PythonVersionOk(4, 0) && PythonVersionAtLeast(4, 0)
  {
  }

  /** The two tests agree on every release of Python 3, and the one as
      written never accepts a version the intended one rejects. */
  lemma PythonVersionTestsOnThree(major: int, minor: int)
    ensures major == 3 ==> (PythonVersionOk(major, minor) <==> PythonVersionAtLeast(major, minor))
    ensures PythonVersionOk(major, minor) ==> PythonVersionAtLeast(major, minor)
  {
  }

  /** The intended test is upward closed: whatever is newer than an accepted version is accepted. */
  lemma PythonVersionAtLeastUpward(major: int, minor: int, major': int, minor': int)
    requires PythonVersionAtLeast(major, minor)
    requires major' > major || (major' == major && minor' >= minor)
    ensures PythonVersionAtLeast(major', minor')
  {
  }

  /** `check_arduino_connection`, with the enumerated ports, or None when
      `serial.tools.list_ports` cannot be imported. */
  method CheckArduinoConnection(ports: Option<seq<Port>>) returns (ok: bool, arduinoPorts: seq<Port>)
    ensures ports.None? ==> !ok && arduinoPorts == []
    ensures ports.Some? ==> arduinoPorts == ExtendedCandidates(ports.value)
    ensures ok <==> arduinoPorts != []
  {
    if ports.None? {
      return false, [];
    }
    var all := ports.value;
    arduinoPorts := [];
    for i := 0 to |all|
      invariant arduinoPorts == Filter(all[..i], ExtendedMatch)
    {
      var port := all[i];
      var isArduinoLike := AnyKeywordIn(ExtendedKeywords, Lower(port.description));
      isArduinoLike := isArduinoLike || AnyKeywordIn(ExtendedKeywords, Lower(port.device));
      FilterSnoc(all[..i], port, ExtendedMatch);
      assert all[..i + 1] == all[..i] + [port];
      if isArduinoLike {
        arduinoPorts := arduinoPorts + [port];
      }
    }
    assert all[..|all|] == all;
    ok := |arduinoPorts| > 0;
  }

  /** The Arduino check passes iff some enumerated port is Arduino-like. */
  lemma ArduinoCheckIff(ports: seq<Port>)
    ensures ExtendedCandidates(ports) != [] <==> exists i :: 0 <= i < |ports| && ExtendedMatch(ports[i])
  {
    FilterEmptyIff(ports, ExtendedMatch);
  }

  /** `check_system_requirements`: the RAM and disk probes (None when they
      cannot run) only print; the check passes whatever they find. */
  function CheckSystemRequirements(memoryGb: Option<real>, freeSpaceGb: Option<real>): (r: bool)
    ensures r
  {
    true
  }

  /** The seven entries of `results`, in the order `main` runs the checks. */
  datatype SetupResults = SetupResults(pythonVersion: bool, dependencies: bool, projectFiles: bool,
    model: bool, arduino: bool, camera: bool, system: bool)
  {
    function Values(): seq<bool> {
      [pythonVersion, dependencies, projectFiles, model, arduino, camera, system]
    }
  }

  /** `sum(results.values())`: the number of true entries. */
  function CountTrue(values: seq<bool>): (n: nat)
    ensures n <= |values|
    ensures n == |values| <==> forall i :: 0 <= i < |values| ==> values[i]
  {
    if values == [] then 0
    else (if values[0] then 1 else 0) + CountTrue(values[1..])
  }

  /** `main`: the passed count out of seven, and the exit code. */
  function MainSummary(results: SetupResults): (r: (nat, nat, int))
    ensures r.1 == 7 && r.0 <= r.1
    ensures r.2 == 0 <==> r.0 == r.1
    ensures r.2 == 0 || r.2 == 1
  {
    var passed := CountTrue(results.Values());
    var total := |results.Values()|;
    (passed, total, if passed == total then 0 else 1)
  }

  /** `main` exits with 0 iff every check passed, which is also when
      `provide_next_steps` reports that all checks passed. */
  lemma MainExitCodeIff(results: SetupResults)
    ensures MainSummary(results).2 == 0 <==>
      results.pythonVersion && results.dependencies && results.projectFiles && results.model
      && results.arduino && results.camera && results.system
  {
    var v := results.Values();
    assert v[0] == results.pythonVersion && v[1] == results.dependencies && v[2] == results.projectFiles;
    assert v[3] == results.model && v[4] == results.arduino && v[5] == results.camera && v[6] == results.system;
  }

  /** Each failing check lowers the passed count by one. */
  lemma {:induction false} CountTrueCountsFalse(values: seq<bool>)
    ensures CountTrue(values) + |Filter(values, (b: bool) => !b)| == |values|
  {
    if values != [] {
      CountTrueCountsFalse(values[1..]);
    }
  }
}
