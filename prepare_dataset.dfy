/** prepare_dataset.py: the four-class relabelling and the 80/20 split by
    position in each folder's shuffled listing. The directory tree is a map
    from each source folder that exists to its entries; the shuffle is a
    parameter. */
module PrepareDataset {

  /** The created class folders, in creation order. */
  const Classes: seq<string> := ["paper", "metal", "plastic", "other"]

  /** `mapping`, in its insertion order: source folder to class. */
  const Mapping: seq<(string, string)> := [
    ("cardboard", "paper"), ("metal", "metal"), ("plastic", "plastic"),
    ("glass", "other"), ("trash", "other")]

  /** Every target is one of the created folders, glass and trash both
      become other, and cardboard becomes paper. */
  lemma MappingShape()
    ensures forall k :: 0 <= k < |Mapping| ==> Mapping[k].1 in Classes
    ensures forall k :: 0 <= k < |Mapping| && Mapping[k].0 in {"glass", "trash"} ==> Mapping[k].1 == "other"
    ensures forall k :: 0 <= k < |Mapping| && Mapping[k].0 == "cardboard" ==> Mapping[k].1 == "paper"
  {
    assert Mapping[3].1 == "other" && Mapping[4].1 == "other";
  }

  /** The folder loop: for each class, its train and then its val folder. */
  method MakeFolders() returns (folders: seq<(string, string)>)
    ensures |folders| == 2 * |Classes|
    ensures forall j :: 0 <= j < |Classes| ==> folders[2 * j] == ("train", Classes[j]) && folders[2 * j + 1] == ("val", Classes[j])
  {
    folders := [];
    for j := 0 to |Classes|
      invariant |folders| == 2 * j
      invariant forall k :: 0 <= k < j ==> folders[2 * k] == ("train", Classes[k]) && folders[2 * k + 1] == ("val", Classes[k])
    {
      folders := folders + [("train", Classes[j]), ("val", Classes[j])];
    }
  }

  /** The double nearest 0.8 is (2^54 + 1) / 5 / 2^52. */
  const Two52: nat := 0x10_0000_0000_0000
  const PointEight: nat := 3602879701896397

  /** `int(0.8 * n)` with the product taken exactly: n * PointEight / 2^52,
      rounded down. Python rounds the product to a double first; the two
      agree for n below 3 * 2^49. */
  function SplitOf(n: nat): nat {
    (n * PointEight) / Two52
  }

  /** For every listing shorter than 2^52 entries the split is floor(4n/5),
      hence between 0 and n. */
  lemma SplitIsFourFifths(n: nat)
    requires n < Two52
    ensures SplitOf(n) == (4 * n) / 5
    ensures SplitOf(n) <= n
  {
    var q := (4 * n) / 5;
    var r := (4 * n) % 5;
    assert 5 * PointEight == 4 * Two52 + 1;
    assert 5 * (n * PointEight) == 4 * n * Two52 + n;
    assert 4 * n == 5 * q + r && 0 <= r < 5;
    assert 5 * (n * PointEight) == 5 * q * Two52 + r * Two52 + n;
    assert r * Two52 + n < 5 * Two52;
    assert q * Two52 <= n * PointEight < (q + 1) * Two52;
    DivisionBetween(n * PointEight, q);
  }

  /** The double nearest 0.8 is below 1, so the split never exceeds the listing. */
  lemma SplitAtMost(n: nat)
    ensures SplitOf(n) <= n
  {
    assert n * PointEight <= n * Two52;
    assert n * Two52 / Two52 == n;
  }

  /** Division by 2^52 rounds down. */
  lemma DivisionBetween(a: nat, q: nat)
    requires q * 0x10_0000_0000_0000 <= a < q * 0x10_0000_0000_0000 + 0x10_0000_0000_0000
    ensures a / Two52 == q
  {
  }

  /** One `shutil.copy`: `SRC/original/name` to `DEST/subset/cls/name`. */
  datatype Copy = Copy(original: string, name: string, subset: string, cls: string)

  /** `"train" if i < split else "val"` */
  function SubsetOf(i: nat, split: nat): string {
    if i < split then "train" else "val"
  }

  /** The `enumerate` loop's copies for one folder's shuffled listing. */
  function FolderCopies(original: string, cls: string, files: seq<string>): (r: seq<Copy>)
    ensures |r| == |files|
  {
    var split := SplitOf(|files|);
    seq(|files|, i requires 0 <= i < |files| => Copy(original, files[i], SubsetOf(i, split), cls))
  }

  /** The copies of `files` into one subset folder, in order. */
  function CopyAll(original: string, subset: string, cls: string, files: seq<string>): (r: seq<Copy>)
    ensures |r| == |files|
  {
    seq(|files|, i requires 0 <= i < |files| => Copy(original, files[i], subset, cls))
  }

  /** Picking the subset by position is the same as copying the first
      `split` files to train and the rest to val: each file lands in exactly
      one subset under its own name, train receives `split` files and val the rest. */
  lemma FolderCopiesSplit(original: string, cls: string, files: seq<string>)
    ensures SplitOf(|files|) <= |files|
    ensures FolderCopies(original, cls, files)
      == CopyAll(original, "train", cls, files[..SplitOf(|files|)]) + CopyAll(original, "val", cls, files[SplitOf(|files|)..])
  {
    SplitAtMost(|files|);
  }

  /** What the script does before it finishes or stops: it raises when a
      source folder is missing (`os.listdir`), after the earlier copies. */
  datatype Outcome = Prepared(copies: seq<Copy>) | ListingFailed(folder: string, copies: seq<Copy>)

  function Prepend(before: seq<Copy>, o: Outcome): Outcome {
    match o
    case Prepared(cs) => Prepared(before + cs)
    case ListingFailed(f, cs) => ListingFailed(f, before + cs)
  }

  /** The script over the given mapping entries. */
  function PrepareSpec(mapping: seq<(string, string)>, dirs: map<string, seq<string>>,
                       shuffle: (string, seq<string>) -> seq<string>): Outcome {
    if mapping == [] then Prepared([])
    else if mapping[0].0 !in dirs then ListingFailed(mapping[0].0, [])
    else Prepend(FolderCopies(mapping[0].0, mapping[0].1, shuffle(mapping[0].0, dirs[mapping[0].0])),
                 PrepareSpec(mapping[1..], dirs, shuffle))
  }

  /** The `enumerate` loop for one folder. */
  method CopyFolder(original: string, cls: string, files: seq<string>) returns (copies: seq<Copy>)
    ensures copies == FolderCopies(original, cls, files)
  {
    var split := (PointEight * |files|) / Two52;
    copies := [];
    for i := 0 to |files|
      invariant copies == FolderCopies(original, cls, files)[..i]
    {
      var subset := if i < split then "train" else "val";
      copies := copies + [Copy(original, files[i], subset, cls)];
    }
  }

  /** The script: the loop over `mapping`. */
  method Prepare(dirs: map<string, seq<string>>, shuffle: (string, seq<string>) -> seq<string>) returns (r: Outcome)
    ensures r == PrepareSpec(Mapping, dirs, shuffle)
  {
    var copies: seq<Copy> := [];
    for i := 0 to |Mapping|
      invariant PrepareSpec(Mapping, dirs, shuffle) == Prepend(copies, PrepareSpec(Mapping[i..], dirs, shuffle))
    {
      assert Mapping[i..][1..] == Mapping[i + 1..];
      var (src, dst) := Mapping[i];
      if src !in dirs {
        return ListingFailed(src, copies);
      }
      var files := shuffle(src, dirs[src]);
      var step := CopyFolder(src, dst, files);
      PrependTwice(copies, step, PrepareSpec(Mapping[i + 1..], dirs, shuffle));
      copies := copies + step;
    }
    assert Mapping[|Mapping|..] == [];
    return Prepared(copies);
  }

  lemma PrependTwice(a: seq<Copy>, b: seq<Copy>, o: Outcome)
    ensures Prepend(a, Prepend(b, o)) == Prepend(a + b, o)
  {
    assert a + (b + o.copies) == (a + b) + o.copies;
  }

  /** The script copies every entry of every folder it lists, and it stops
      at the first missing folder; all folders present means it finishes. */
  lemma {:induction false} PreparedIffAllFoldersExist(mapping: seq<(string, string)>, dirs: map<string, seq<string>>,
                                                      shuffle: (string, seq<string>) -> seq<string>)
    ensures PrepareSpec(mapping, dirs, shuffle).Prepared? <==> forall k :: 0 <= k < |mapping| ==> mapping[k].0 in dirs
    ensures PrepareSpec(mapping, dirs, shuffle).ListingFailed? ==>
      exists k :: 0 <= k < |mapping| && PrepareSpec(mapping, dirs, shuffle).folder == mapping[k].0 && mapping[k].0 !in dirs
  {
    if mapping != [] && mapping[0].0 in dirs {
      PreparedIffAllFoldersExist(mapping[1..], dirs, shuffle);
      assert forall k :: 1 <= k < |mapping| ==> mapping[k] == mapping[1..][k - 1];
      var rest := PrepareSpec(mapping[1..], dirs, shuffle);
      if rest.ListingFailed? {
        var k :| 0 <= k < |mapping[1..]| && rest.folder == mapping[1..][k].0 && mapping[1..][k].0 !in dirs;
        assert mapping[k + 1] == mapping[1..][k];
      }
    }
  }

  /** Every copy lands in train or val under one of the created class folders. */
  lemma {:induction false} CopiesLandInClassFolders(mapping: seq<(string, string)>, dirs: map<string, seq<string>>,
                                                    shuffle: (string, seq<string>) -> seq<string>, c: Copy)
    requires forall k :: 0 <= k < |mapping| ==> mapping[k].1 in Classes
    requires c in PrepareSpec(mapping, dirs, shuffle).copies
    ensures c.subset in {"train", "val"} && c.cls in Classes
  {
    var original := mapping[0].0;
    var here := FolderCopies(original, mapping[0].1, shuffle(original, dirs[original]));
    if c !in here {
      CopiesLandInClassFolders(mapping[1..], dirs, shuffle, c);
    }
  }
}
