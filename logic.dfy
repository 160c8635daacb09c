/** logic.py: the command character for each predicted label, and the
    selection of image files that `iter_images` yields. */
module Logic {
  import opened Wrappers
  import opened Strings
  import opened Sequences

  /** `CLASSES`: the four labels of the classifier. */
  const Classes: seq<string> := ["paper", "metal", "plastic", "others"]

  /** `LABEL_TO_CMD`: the serial command character for each label. */
  const LabelToCmd: map<string, char> := map["paper" := 'P', "metal" := 'M', "plastic" := 'L', "others" := 'O']

  /** `label_to_command`: the table entry, and the entry of "others" for any other label. */
  function LabelToCommand(predicted: string): (c: char)
    ensures c in LabelToCmd.Values
  {
    if predicted in LabelToCmd then LabelToCmd[predicted] else LabelToCmd["others"]
  }

  /** The mapping paper→P, metal→M, plastic→L, and O for everything else. */
  lemma LabelToCommandCases(predicted: string)
    ensures predicted == "paper" ==> LabelToCommand(predicted) == 'P'
    ensures predicted == "metal" ==> LabelToCommand(predicted) == 'M'
    ensures predicted == "plastic" ==> LabelToCommand(predicted) == 'L'
    ensures LabelToCommand(predicted) == 'O' <==> predicted !in {"paper", "metal", "plastic"}
    ensures LabelToCommand(predicted) in {'P', 'M', 'L', 'O'}
  {
  }

  /** Every class has a table entry, the table has no other key, and
      distinct classes get distinct characters, so a command names its class. */
  lemma ClassTableComplete()
    ensures (set c | c in Classes) == LabelToCmd.Keys
    ensures forall i, j :: 0 <= i < j < |Classes| ==> LabelToCommand(Classes[i]) != LabelToCommand(Classes[j])
  {
    assert LabelToCmd.Keys == {"paper", "metal", "plastic", "others"};
    assert LabelToCommand(Classes[0]) == 'P' && LabelToCommand(Classes[1]) == 'M';
    assert LabelToCommand(Classes[2]) == 'L' && LabelToCommand(Classes[3]) == 'O';
  }

  /** `valid_suffixes` */
  const ValidSuffixes: set<string> := {".jpg", ".jpeg", ".png", ".bmp"}

  /** `PurePath.name`: what follows the last '/'. */
  function Name(path: string): (r: string)
    ensures |r| <= |path| && path[|path| - |r|..] == r
    ensures '/' !in r
    ensures |r| < |path| ==> path[|path| - |r| - 1] == '/'
  {
    if path == [] then []
    else if path[|path| - 1] == '/' then []
    else Name(path[..|path| - 1]) + [path[|path| - 1]]
  }

  /** `str.rfind('.')`: the index of the last '.', or -1. */
  function LastDot(s: string): (i: int)
    ensures -1 <= i < |s|
    ensures i >= 0 ==> s[i] == '.'
    ensures forall j :: i < j < |s| ==> s[j] != '.'
  {
    if s == [] then -1
    else if s[|s| - 1] == '.' then |s| - 1
    else LastDot(s[..|s| - 1])
  }

  /** `PurePath.suffix`: the name from its last '.', provided that dot is
      neither the first nor the last character of the name; else "". */
  function Suffix(path: string): (r: string)
    ensures r == [] || (|r| >= 2 && r[0] == '.' && forall j :: 1 <= j < |r| ==> r[j] != '.')
  {
    var name := Name(path);
    var i := LastDot(name);
    if 0 < i < |name| - 1 then name[i..] else []
  }

  /** `path.suffix.lower() in valid_suffixes` */
  predicate HasImageSuffix(path: string) {
    Lower(Suffix(path)) in ValidSuffixes
  }

  /** What `iter_images` is handed: a file, a directory given by its
      listing in `sorted()` order and the listed entries that are files, or
      a path that `is_file()` rejects and that is no directory (a missing
      path, a FIFO). */
  datatype Target =
    | FileTarget(path: string)
    | DirectoryTarget(listing: seq<string>, files: set<string>)
    | OtherTarget(path: string)

  /** `list(iter_images(path))`, or None when `path.iterdir()` raises. */
  function IterImages(target: Target): (r: Option<seq<string>>)
    ensures r.None? <==> target.OtherTarget?
  {
    match target
    case FileTarget(p) => Some(if HasImageSuffix(p) then [p] else [])
    case DirectoryTarget(listing, files) => Some(Filter(listing, e => e in files && HasImageSuffix(e)))
    case OtherTarget(_) => None
  }

  /** A file yields itself when its suffix is an image suffix, and nothing otherwise. */
  lemma IterImagesOfFile(path: string, x: string)
    ensures IterImages(FileTarget(path)).Some?
    ensures x in IterImages(FileTarget(path)).value <==> x == path && HasImageSuffix(path)
    ensures |IterImages(FileTarget(path)).value| <= 1
  {
  }

  /** A directory yields exactly its file entries with an image suffix,
      as a subsequence of its listing, so in the listing's sorted order. */
  lemma IterImagesOfDirectory(listing: seq<string>, files: set<string>, x: string, le: (string, string) -> bool)
    ensures IterImages(DirectoryTarget(listing, files)).Some?
    ensures x in IterImages(DirectoryTarget(listing, files)).value <==> x in listing && x in files && HasImageSuffix(x)
    ensures IsSubsequence(IterImages(DirectoryTarget(listing, files)).value, listing)
    ensures SortedBy(listing, le) ==> SortedBy(IterImages(DirectoryTarget(listing, files)).value, le)
  {
    var keep := e => e in files && HasImageSuffix(e);
    FilterMembership(listing, keep, x);
    FilterIsSubsequence(listing, keep);
    if SortedBy(listing, le) {
      FilterPreservesSorted(listing, keep, le);
    }
  }

  /** A path that is neither a file nor a directory yields no list: `iterdir` raises,
      even when the path itself has an image suffix. */
  lemma IterImagesOfOther(path: string)
    requires HasImageSuffix(path)
    ensures IterImages(OtherTarget(path)) == None
    ensures IterImages(FileTarget(path)) == Some([path])
  {
  }

  lemma NameWithoutSlash(path: string)
    requires forall j :: 0 <= j < |path| ==> path[j] != '/'
    ensures Name(path) == path
  {
  }

  /** A name without '/' whose last dot is at `i` has the suffix that starts there,
      unless that dot is the name's first or last character. */
  lemma SuffixOfPlainName(path: string, i: int)
    requires forall j :: 0 <= j < |path| ==> path[j] != '/'
    requires 0 <= i < |path| && path[i] == '.'
    requires forall j :: i < j < |path| ==> path[j] != '.'
    ensures Suffix(path) == if 0 < i < |path| - 1 then path[i..] else []
  {
    NameWithoutSlash(path);
  }

  lemma UpperCaseSuffix(p: string)
    requires p == "cat.JPG"
    ensures Suffix(p) == ".JPG"
  {
    SuffixOfPlainName(p, 3);
    assert p[3..] == ".JPG";
  }

  /** Upper-case suffixes count. */
  lemma UpperCaseSuffixCounts(p: string)
    requires p == "cat.JPG"
    ensures HasImageSuffix(p)
  {
    UpperCaseSuffix(p);
    LowerJpg(Suffix(p));
  }

  lemma LowerJpg(s: string)
    requires s == ".JPG"
    ensures Lower(s) == ".jpg"
  {
  }

  /** A path without a suffix is no image. */
  lemma NoSuffixIsNoImage(p: string)
    requires Suffix(p) == []
    ensures !HasImageSuffix(p)
  {
    assert Lower(Suffix(p)) == [];
    assert [] !in ValidSuffixes;
  }

  /** A name that starts with its only dot has no suffix. */
  lemma HiddenFileHasNoSuffix(p: string)
    requires p == ".png"
    ensures Suffix(p) == [] && !HasImageSuffix(p)
  {
    SuffixOfPlainName(p, 0);
    NoSuffixIsNoImage(p);
  }

  lemma TextSuffixIsNoImage()
    ensures Lower(".txt") !in ValidSuffixes
  {
    assert Lower(".txt")[1] == 't';
  }

  /** Only the last suffix counts. */
  lemma OnlyLastSuffixCounts(p: string)
    requires p == "a.png.txt"
    ensures !HasImageSuffix(p)
  {
    SuffixOfPlainName(p, 5);
    assert p[5..] == ".txt";
    TextSuffixIsNoImage();
  }
}
