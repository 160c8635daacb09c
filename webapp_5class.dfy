/** webapp_5class.py: the state of the web classifier, the 4-class
    adaptation of its tables, the camera guards, the acceptance gate of the
    `/api/classify` route and the threshold clamp of `/api/set_confidence`. */
module Webapp5Class {
  import opened Wrappers
  import Logic

  /** The colour and command tables of the 5-class system. */
  const FiveClasses: seq<string> := ["paper", "metal", "plastic", "glass", "trash"]
  const FiveColors: map<string, string> :=
    map["paper" := "#00FF00", "metal" := "#FF0000", "plastic" := "#FFA500", "glass" := "#00BFFF", "trash" := "#8B4513"]
  const FiveCommands: map<string, char> :=
    map["paper" := 'P', "metal" := 'M', "plastic" := 'L', "glass" := 'G', "trash" := 'T']

  /** The tables after the rewrite for a 4-class model: glass and trash merged into "other". */
  const FourClasses: seq<string> := ["paper", "metal", "plastic", "other"]
  const FourColors: map<string, string> :=
    map["paper" := "#00FF00", "metal" := "#FF0000", "plastic" := "#FFA500", "other" := "#8B4513"]
  const FourCommands: map<string, char> :=
    map["paper" := 'P', "metal" := 'M', "plastic" := 'L', "other" := 'T']

  /** `classes`, `colors` and `cmd_map` taken together. */
  datatype Tables = Tables(classes: seq<string>, colors: map<string, string>, cmdMap: map<string, char>)

  const FiveTables := Tables(FiveClasses, FiveColors, FiveCommands)
  const FourTables := Tables(FourClasses, FourColors, FourCommands)

  /** Every class has a colour and a command, and neither table has another key. */
  predicate TablesAgree(t: Tables) {
    (set c | c in t.classes) == t.colors.Keys && t.colors.Keys == t.cmdMap.Keys
  }

  /** The labels of each set of tables. */
  const FiveLabels: set<string> := {"paper", "metal", "plastic", "glass", "trash"}
  const FourLabels: set<string> := {"paper", "metal", "plastic", "other"}

  lemma FiveLabelSets()
    ensures (set c | c in FiveClasses) == FiveLabels
    ensures FiveColors.Keys == FiveLabels
    ensures FiveCommands.Keys == FiveLabels
  {
  }

  lemma FourLabelSets()
    ensures (set c | c in FourClasses) == FourLabels
    ensures FourColors.Keys == FourLabels
    ensures FourCommands.Keys == FourLabels
  {
  }

  lemma BothTablesAgree()
    ensures TablesAgree(FiveTables) && TablesAgree(FourTables)
    ensures |FiveClasses| == 5 && |FourClasses| == 4
  {
    FiveLabelSets();
    FourLabelSets();
  }

  /** Both tables send paper, metal and plastic to the characters `label_to_command`
      gives them; a label outside the table gets 'T' here, where `label_to_command` gives 'O'. */
  lemma CommandsAgreeWithLogic(predicted: string)
    ensures predicted in {"paper", "metal", "plastic"} ==>
      FiveCommands[predicted] == Logic.LabelToCommand(predicted) && FourCommands[predicted] == Logic.LabelToCommand(predicted)
    ensures predicted !in FiveCommands && predicted !in FourCommands ==> Logic.LabelToCommand(predicted) == 'O'
    ensures FiveCommands["trash"] == FourCommands["other"] == 'T'
  {
    Logic.LabelToCommandCases(predicted);
  }

  /** The in-place rewrite for a 4-class model, one step at a time: the
      classes are replaced, "other" is given its colour and command, and then
      glass and trash are deleted from each table. A `del` of an absent key
      raises `KeyError`; the result then holds the tables as far as the rewrite
      got, and `false`. */
  function AdaptToFourClasses(t: Tables): (Tables, bool) {
    var colors := t.colors["other" := "#8B4513"];
    var cmds := t.cmdMap["other" := 'T'];
    if "glass" !in colors then (Tables(FourClasses, colors, cmds), false)
    else
      var colors1 := colors - {"glass"};
      if "trash" !in colors1 then (Tables(FourClasses, colors1, cmds), false)
      else
        var colors2 := colors1 - {"trash"};
        if "glass" !in cmds then (Tables(FourClasses, colors2, cmds), false)
        else
          var cmds1 := cmds - {"glass"};
          if "trash" !in cmds1 then (Tables(FourClasses, colors2, cmds1), false)
          else (Tables(FourClasses, colors2, cmds1 - {"trash"}), true)
  }

  /** From agreeing 5-class tables over the five labels, the rewrite succeeds,
      keeps the agreement, keeps the entries of paper, metal and plastic, gives
      "other" the command 'T' and the colour of trash, and leaves no glass or trash entry. */
  lemma AdaptFromFiveClasses(t: Tables)
    requires TablesAgree(t) && t.colors.Keys == FiveLabels
    requires t.colors["trash"] == "#8B4513"
    ensures AdaptToFourClasses(t).1
    ensures AdaptToFourClasses(t).0.colors.Keys == FourLabels == AdaptToFourClasses(t).0.cmdMap.Keys
    ensures TablesAgree(AdaptToFourClasses(t).0)
    ensures AdaptToFourClasses(t).0.classes == FourClasses
    ensures AdaptToFourClasses(t).0.cmdMap["other"] == 'T' && AdaptToFourClasses(t).0.colors["other"] == t.colors["trash"]
    ensures forall c :: c in {"paper", "metal", "plastic"} ==>
      AdaptToFourClasses(t).0.cmdMap[c] == t.cmdMap[c] && AdaptToFourClasses(t).0.colors[c] == t.colors[c]
    ensures "glass" !in AdaptToFourClasses(t).0.cmdMap && "trash" !in AdaptToFourClasses(t).0.cmdMap
  {
    FourLabelSets();
    AdaptedKeys(t.colors, t.cmdMap);
  }

  /** Adding "other" to tables over the five labels and deleting glass and
      trash leaves tables over the four labels. */
  lemma AdaptedKeys(colors: map<string, string>, cmds: map<string, char>)
    requires colors.Keys == FiveLabels
    requires cmds.Keys == FiveLabels
    ensures (colors["other" := "#8B4513"] - {"glass"} - {"trash"}).Keys == FourLabels
    ensures (cmds["other" := 'T'] - {"glass"} - {"trash"}).Keys == FourLabels
  {
  }

  lemma AdaptFiveTables()
    ensures AdaptToFourClasses(FiveTables) == (FourTables, true)
  {
    var r := AdaptToFourClasses(FiveTables).0;
    assert r.colors == FourColors;
    assert r.cmdMap == FourCommands;
  }

  /** Rewriting tables that are already 4-class stops at the first `del` and
      leaves them as they were. */
  lemma AdaptFourTables()
    ensures AdaptToFourClasses(FourTables) == (FourTables, false)
  {
    var r := AdaptToFourClasses(FourTables).0;
    assert r.colors == FourColors;
    assert r.cmdMap == FourCommands;
  }

  /** The candidate weight files `load_model` tries, in order. */
  const ModelPaths: seq<string> := [
    "runs/classify/runs/classify/5class_model/weights/best.pt",
    "runs/classify/5class_model/weights/best.pt",
    "runs/classify/improved_model/weights/best.pt",
    "runs/classify/train2/weights/best.pt"]

  /** What happens at one candidate path: the file is absent, `YOLO(path)`
      raises, or a model with `nameCount` class names is loaded. */
  datatype LoadAttempt = Missing | LoadError | Loaded(nameCount: nat)

  /** One candidate path, from the given model and tables: whether
      `load_model` returns here, the new model and the new tables. */
  function LoadStep(attempt: LoadAttempt, model: Option<nat>, t: Tables): (bool, Option<nat>, Tables) {
    match attempt
    case Missing => (false, model, t)
    case LoadError => (false, model, t)
    case Loaded(n) =>
      if n == 4 then
        var (t', done) := AdaptToFourClasses(t);
        (done, Some(n), t')
      else (true, Some(n), t)
  }

  /** `load_model` over the outcomes at the remaining paths, from the given model and tables:
      the result, the new model (given by its number of class names) and the new tables. */
  function LoadSpec(attempts: seq<LoadAttempt>, model: Option<nat>, t: Tables): (bool, Option<nat>, Tables) {
    if attempts == [] then (false, model, t)
    else
      var (done, model', t') := LoadStep(attempts[0], model, t);
      if done then (true, model', t') else LoadSpec(attempts[1..], model', t')
  }

  /** Whether any candidate path yields a model. */
  predicate AnyLoaded(attempts: seq<LoadAttempt>) {
    exists i :: 0 <= i < |attempts| && attempts[i].Loaded?
  }

  /** The index of the first path that yields a model. */
  function FirstLoaded(attempts: seq<LoadAttempt>): (i: nat)
    requires AnyLoaded(attempts)
    ensures i < |attempts| && attempts[i].Loaded?
    ensures forall j :: 0 <= j < i ==> !attempts[j].Loaded?
  {
    if attempts[0].Loaded? then 0
    else
      assert AnyLoaded(attempts[1..]) by {
        var i :| 0 <= i < |attempts| && attempts[i].Loaded?;
        assert attempts[1..][i - 1] == attempts[i];
      }
      1 + FirstLoaded(attempts[1..])
  }

  /** From the 5-class tables, loading succeeds iff some path yields a model;
      the first such model is kept, and the tables become the 4-class ones
      exactly when that model has four class names. With no model, nothing changes. */
  lemma {:induction false} LoadFromFiveTables(attempts: seq<LoadAttempt>, model: Option<nat>)
    ensures LoadSpec(attempts, model, FiveTables).0 <==> AnyLoaded(attempts)
    ensures AnyLoaded(attempts) ==>
      var n := attempts[FirstLoaded(attempts)].nameCount;
      LoadSpec(attempts, model, FiveTables).1 == Some(n)
      && LoadSpec(attempts, model, FiveTables).2 == (if n == 4 then FourTables else FiveTables)
    ensures !AnyLoaded(attempts) ==>
      (LoadSpec(attempts, model, FiveTables).1 == model && LoadSpec(attempts, model, FiveTables).2 == FiveTables)
  {
    if attempts != [] {
      AdaptFiveTables();
      if !attempts[0].Loaded? {
        LoadFromFiveTables(attempts[1..], model);
        assert AnyLoaded(attempts) <==> AnyLoaded(attempts[1..]) by {
          if AnyLoaded(attempts) {
            var i :| 0 <= i < |attempts| && attempts[i].Loaded?;
            assert attempts[1..][i - 1] == attempts[i];
          }
          if AnyLoaded(attempts[1..]) {
            var i :| 0 <= i < |attempts[1..]| && attempts[1..][i].Loaded?;
            assert attempts[i + 1] == attempts[1..][i];
          }
        }
      } else {
        assert AnyLoaded(attempts) by { assert attempts[0].Loaded?; }
      }
    }
  }

  /** Once the tables are the 4-class ones, loading never changes them again. */
  lemma {:induction false} LoadFromFourTables(attempts: seq<LoadAttempt>, model: Option<nat>)
    ensures LoadSpec(attempts, model, FourTables).2 == FourTables
    ensures LoadSpec(attempts, model, FourTables).0 <==> exists i :: 0 <= i < |attempts| && attempts[i].Loaded? && attempts[i].nameCount != 4
  {
    if attempts != [] {
      AdaptFourTables();
      LoadFromFourTables(attempts[1..], if attempts[0].Loaded? then Some(attempts[0].nameCount) else model);
      var rest := attempts[1..];
      assert forall i :: 0 <= i < |rest| ==> rest[i] == attempts[i + 1];
      if (exists i :: 0 <= i < |attempts| && attempts[i].Loaded? && attempts[i].nameCount != 4) {
        var i :| 0 <= i < |attempts| && attempts[i].Loaded? && attempts[i].nameCount != 4;
        if i > 0 { assert rest[i - 1] == attempts[i]; }
      }
    }
  }

  /** A camera handle: the index it was opened with and whether `isOpened()` was true. */
  datatype Camera = Capture(index: int, isOpen: bool)

  /** A camera frame; its pixels are not interpreted. */
  datatype Frame = Frame(pixels: seq<int>)

  /** The stored result of an accepted classification. */
  datatype Prediction = Prediction(predicted: string, confidence: real, arduinoCmd: char, color: string)

  /** The reply of `/api/classify`. */
  datatype ClassifyResult =
    | NoFrame
    | Accepted(prediction: Prediction)
    | LowConfidence(confidence: real)
    | NoDetection

  /** Python truthiness of the predicted class: present and not "". */
  predicate Detected(pred: Option<string>) {
    pred.Some? && pred.value != ""
  }

  /** The decision of `/api/classify` once a frame was classified. */
  function Gate(pred: Option<string>, confidence: real, threshold: real, t: Tables): (r: ClassifyResult)
    ensures r.Accepted? <==> Detected(pred) && confidence > threshold
    ensures r.Accepted? ==> r.prediction.predicted == pred.value && r.prediction.confidence == confidence
    ensures r.Accepted? ==> r.prediction.arduinoCmd == (if pred.value in t.cmdMap then t.cmdMap[pred.value] else 'T')
    ensures r.Accepted? ==> r.prediction.color == (if pred.value in t.colors then t.colors[pred.value] else "#FFFFFF")
    ensures !r.Accepted? ==> r == (if Detected(pred) then LowConfidence(confidence) else NoDetection)
  {
    if Detected(pred) && confidence > threshold then
      var p := pred.value;
      Accepted(Prediction(p, confidence,
        if p in t.cmdMap then t.cmdMap[p] else 'T',
        if p in t.colors then t.colors[p] else "#FFFFFF"))
    else if Detected(pred) then LowConfidence(confidence)
    else NoDetection
  }

  /** A confidence equal to the threshold is rejected. */
  lemma GateRejectsEquality(pred: Option<string>, threshold: real, t: Tables)
    ensures !Gate(pred, threshold, threshold, t).Accepted?
  {
  }

  /** Lowering the threshold never turns an accepted classification into a rejected one. */
  lemma GateMonotone(pred: Option<string>, confidence: real, low: real, high: real, t: Tables)
    requires low <= high && Gate(pred, confidence, high, t).Accepted?
    ensures Gate(pred, confidence, low, t) == Gate(pred, confidence, high, t)
  {
  }

  /** With the 5-class tables an accepted label of those tables gets its own
      command, and any other label is sorted as trash. */
  lemma GateCommandsWithFiveClasses(pred: Option<string>, confidence: real, threshold: real)
    requires Gate(pred, confidence, threshold, FiveTables).Accepted?
    ensures var cmd := Gate(pred, confidence, threshold, FiveTables).prediction.arduinoCmd;
      cmd in {'P', 'M', 'L', 'G', 'T'} && (cmd == 'T' <==> pred.value !in {"paper", "metal", "plastic", "glass"})
  {
  }

  /** `max(0.1, min(1.0, threshold))` */
  function Clamp(threshold: real): (r: real)
    ensures 0.1 <= r <= 1.0
    ensures 0.1 <= threshold <= 1.0 ==> r == threshold
    ensures threshold < 0.1 ==> r == 0.1
    ensures threshold > 1.0 ==> r == 1.0
  {
    var upper := if threshold < 1.0 then threshold else 1.0;
    if 0.1 < upper then upper else 0.1
  }

  lemma ClampIdempotent(threshold: real)
    ensures Clamp(Clamp(threshold)) == Clamp(threshold)
  {
  }

  lemma ClampMonotone(a: real, b: real)
    requires a <= b
    ensures Clamp(a) <= Clamp(b)
  {
  }

  /** The reply of `/api/status`. */
  datatype Status = Status(cameraRunning: bool, cameraIndex: int, modelLoaded: bool,
    lastPrediction: Option<Prediction>, confidenceThreshold: real, numClasses: nat, classes: seq<string>)

  /** `GarbageClassifier5Class`. The loaded model is represented by the
      number of its class names. */
  class GarbageClassifier5Class {
    var model: Option<nat>
    var camera: Option<Camera>
    var cameraIndex: int
    var isRunning: bool
    var lastPrediction: Option<Prediction>
    var confidenceThreshold: real
    var classes: seq<string>
    var colors: map<string, string>
    var cmdMap: map<string, char>

    function TablesOf(): Tables
      reads this
    {
      Tables(classes, colors, cmdMap)
    }

    /** The tables are the 5-class or the 4-class ones, and the threshold is in range. */
    ghost predicate Valid()
      reads this
    {
      (TablesOf() == FiveTables || TablesOf() == FourTables)
      && 0.1 <= confidenceThreshold <= 1.0
    }

    /** `__init__`: the defaults, then `load_model()` over the outcomes at the four paths. */
    constructor (attempts: seq<LoadAttempt>)
      requires |attempts| == |ModelPaths|
      ensures Valid()
      ensures camera == None && cameraIndex == 0 && !isRunning && lastPrediction == None
      ensures confidenceThreshold == 0.5
      ensures model == LoadSpec(attempts, None, FiveTables).1
      ensures TablesOf() == LoadSpec(attempts, None, FiveTables).2
    {
      model := None;
      camera := None;
      cameraIndex := 0;
      isRunning := false;
      lastPrediction := None;
      confidenceThreshold := 0.5;
      classes := FiveClasses;
      colors := FiveColors;
      cmdMap := FiveCommands;
      new;
      var _ := LoadModel(attempts);
    }

    /** The rewrite of the tables for a 4-class model; the `del`s raise
        `KeyError` on an absent key, and the rewrite then stops where it got to. */
    method AdaptTables() returns (done: bool)
      modifies this`classes, this`colors, this`cmdMap
      ensures (TablesOf(), done) == AdaptToFourClasses(old(TablesOf()))
    {
      classes := FourClasses;
      colors := colors["other" := "#8B4513"];
      cmdMap := cmdMap["other" := 'T'];
      if "glass" !in colors { return false; }
      colors := colors - {"glass"};
      if "trash" !in colors { return false; }
      colors := colors - {"trash"};
      if "glass" !in cmdMap { return false; }
      cmdMap := cmdMap - {"glass"};
      if "trash" !in cmdMap { return false; }
      cmdMap := cmdMap - {"trash"};
      return true;
    }

    /** The body of `load_model`'s loop for one path: `YOLO(path)`, and the
        rewrite of the tables for a 4-class model. */
    method TryPath(attempt: LoadAttempt) returns (done: bool)
      requires Valid()
      modifies this`model, this`classes, this`colors, this`cmdMap
      ensures Valid()
      ensures (done, model, TablesOf()) == LoadStep(attempt, old(model), old(TablesOf()))
    {
      AdaptFiveTables();
      AdaptFourTables();
      match attempt {
        case Missing => return false;
        case LoadError => return false;
        case Loaded(n) =>
          model := Some(n);
          if n == 4 {
            done := AdaptTables();
            return;
          }
          return true;
      }
    }

    /** `load_model`: try the paths in order; the first load returns True,
        unless the 4-class rewrite raises, in which case the next path is tried. */
    method LoadModel(attempts: seq<LoadAttempt>) returns (ok: bool)
      requires Valid() && |attempts| == |ModelPaths|
      modifies this`model, this`classes, this`colors, this`cmdMap
      ensures Valid()
      ensures (ok, model, TablesOf()) == LoadSpec(attempts, old(model), old(TablesOf()))
    {
      for i := 0 to |attempts|
        invariant Valid()
        invariant LoadSpec(attempts, old(model), old(TablesOf())) == LoadSpec(attempts[i..], model, TablesOf())
      {
        assert attempts[i..][1..] == attempts[i + 1..];
        var done := TryPath(attempts[i]);
        if done {
          return true;
        }
      }
      return false;
    }

    /** `start_camera`: a fresh capture replaces the old one; only when it
        opens do the index and the running flag change. */
    method StartCamera(index: int, opens: bool) returns (ok: bool)
      requires Valid()
      modifies this`camera, this`cameraIndex, this`isRunning
      ensures Valid()
      ensures camera == Some(Capture(index, opens))
      ensures ok == opens
      ensures ok ==> cameraIndex == index && isRunning
      ensures !ok ==> cameraIndex == old(cameraIndex) && isRunning == old(isRunning)
    {
      camera := Some(Capture(index, opens));
      if opens {
        cameraIndex := index;
        isRunning := true;
        return true;
      }
      return false;
    }

    /** `stop_camera` */
    method StopCamera()
      requires Valid()
      modifies this`camera, this`isRunning
      ensures Valid()
      ensures !isRunning && camera == None
    {
      isRunning := false;
      camera := None;
    }

    /** `get_frame`, with `read` the frame `camera.read()` would deliver. A
        capture that did not open delivers none. */
    function GetFrame(read: Option<Frame>): (r: Option<Frame>)
      reads this
      ensures r.Some? <==> camera.Some? && camera.value.isOpen && isRunning && read.Some?
      ensures r.Some? ==> r == read
    {
      if camera.None? || !isRunning then None
      else if !camera.value.isOpen then None
      else read
    }

    /** `classify_frame`, with `inference` the top class name and confidence
        the model gives, or None when it gives no probabilities or raises. */
    function ClassifyFrame(frame: Frame, inference: Option<(string, real)>): (r: (Option<string>, real))
      reads this
      ensures model.None? ==> r == (None, 0.0)
      ensures model.Some? && inference.Some? ==> r == (Some(inference.value.0), inference.value.1)
      ensures inference.None? ==> r == (None, 0.0)
    {
      if model.None? then (None, 0.0)
      else match inference
        case None => (None, 0.0)
        case Some((name, confidence)) => (Some(name), confidence)
    }

    /** `/api/classify`: only an accepted classification is stored as the last prediction. */
    method Classify(read: Option<Frame>, inference: Option<(string, real)>) returns (r: ClassifyResult)
      requires Valid()
      modifies this`lastPrediction
      ensures Valid()
      ensures r == NoFrame <==> GetFrame(read).None?
      ensures r.Accepted? <==>
        GetFrame(read).Some? && model.Some? && inference.Some? && inference.value.0 != ""
        && inference.value.1 > confidenceThreshold
      ensures GetFrame(read).Some? ==>
        r == Gate(ClassifyFrame(GetFrame(read).value, inference).0, ClassifyFrame(GetFrame(read).value, inference).1,
                  confidenceThreshold, TablesOf())
      ensures lastPrediction == if r.Accepted? then Some(r.prediction) else old(lastPrediction)
    {
      var frame := GetFrame(read);
      if frame.None? {
        return NoFrame;
      }
      var (pred, confidence) := ClassifyFrame(frame.value, inference);
      r := Gate(pred, confidence, confidenceThreshold, TablesOf());
      if r.Accepted? {
        lastPrediction := Some(r.prediction);
      }
    }

    /** `/api/status` */
    function GetStatus(): (s: Status)
      reads this
      ensures s.numClasses == |classes| && s.classes == classes
      ensures s.modelLoaded <==> model.Some?
      ensures Valid() ==> 0.1 <= s.confidenceThreshold <= 1.0
      ensures Valid() ==> s.numClasses == 4 || s.numClasses == 5
    {
      Status(isRunning, cameraIndex, model.Some?, lastPrediction, confidenceThreshold, |classes|, classes)
    }

    /** `/api/set_confidence`, with `threshold` the JSON field if present (0.5 otherwise). */
    method SetConfidence(threshold: Option<real>) returns (stored: real)
      requires Valid()
      modifies this`confidenceThreshold
      ensures Valid()
      ensures stored == confidenceThreshold == Clamp(threshold.GetOr(0.5))
    {
      confidenceThreshold := Clamp(threshold.GetOr(0.5));
      stored := confidenceThreshold;
    }
  }

  /** The tables of a valid classifier always agree with its class list. */
  lemma ValidTablesAgree(c: GarbageClassifier5Class)
    requires c.Valid()
    ensures TablesAgree(c.TablesOf())
  {
    BothTablesAgree();
  }
}
