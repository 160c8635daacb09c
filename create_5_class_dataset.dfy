/** create_5_class_dataset.py: `create_5_class_dataset`, which relabels the
    source dataset into five classes and splits each class's shuffled images
    75/25 into train and val. The directory tree is a map from each source
    class folder that exists to its entries; the shuffle is a parameter. */
module Create5ClassDataset {
  import opened Sequences

  /** `classes` */
  const Classes: seq<string> := ["paper", "metal", "plastic", "glass", "trash"]

  const Splits: seq<string> := ["train", "val"]

  /** `class_mapping`, in its insertion order: source folder to class. */
  const ClassMapping: seq<(string, string)> := [
    ("cardboard", "paper"), ("paper", "paper"), ("metal", "metal"),
    ("plastic", "plastic"), ("glass", "glass"), ("trash", "trash")]

  /** Every target is one of the five classes, every class is some folder's
      target, and only cardboard changes its name (to paper). */
  lemma ClassMappingShape()
    ensures forall k :: 0 <= k < |ClassMapping| ==> ClassMapping[k].1 in Classes
    ensures forall c :: c in Classes ==> exists k :: 0 <= k < |ClassMapping| && ClassMapping[k].1 == c
    ensures forall k :: 0 <= k < |ClassMapping| ==>
      (ClassMapping[k].0 != ClassMapping[k].1 <==> ClassMapping[k].0 == "cardboard")
    ensures forall k :: 0 <= k < |ClassMapping| && ClassMapping[k].0 == "cardboard" ==> ClassMapping[k].1 == "paper"
  {
    assert ClassMapping[1].1 == "paper" && ClassMapping[2].1 == "metal" && ClassMapping[3].1 == "plastic";
    assert ClassMapping[4].1 == "glass" && ClassMapping[5].1 == "trash";
  }

  /** The nested `mkdir` loops: one folder per (split, class) pair, splits outermost. */
  method MakeFolders() returns (folders: seq<(string, string)>)
    ensures |folders| == |Splits| * |Classes|
    ensures forall s, c :: s in Splits && c in Classes ==> (s, c) in folders
    ensures forall f :: f in folders ==> f.0 in Splits && f.1 in Classes
  {
    folders := [];
    for i := 0 to |Splits|
      invariant |folders| == i * |Classes|
      invariant forall s, c :: s in Splits[..i] && c in Classes ==> (s, c) in folders
      invariant forall f :: f in folders ==> f.0 in Splits && f.1 in Classes
    {
      for j := 0 to |Classes|
        invariant |folders| == i * |Classes| + j
        invariant forall s, c :: s in Splits[..i] && c in Classes ==> (s, c) in folders
        invariant forall c :: c in Classes[..j] ==> (Splits[i], c) in folders
        invariant forall f :: f in folders ==> f.0 in Splits && f.1 in Classes
      {
        folders := folders + [(Splits[i], Classes[j])];
      }
      assert Classes[..|Classes|] == Classes;
      assert Splits[..i + 1] == Splits[..i] + [Splits[i]];
    }
    assert Splits[..|Splits|] == Splits;
  }

  /** `str.endswith`, which is what pattern `*` + `ext` tests of a name on
      POSIX systems; on Windows `glob` ignores case, which is not modelled. */
  predicate EndsWith(name: string, ext: string) {
    |ext| <= |name| && name[|name| - |ext|..] == ext
  }

  /** The three `glob` calls in order: the .jpg, then the .jpeg, then the .png entries. */
  function ImageFiles(entries: seq<string>): seq<string> {
    Filter(entries, (e: string) => EndsWith(e, ".jpg"))
    + Filter(entries, (e: string) => EndsWith(e, ".jpeg"))
    + Filter(entries, (e: string) => EndsWith(e, ".png"))
  }

  /** `int(n * 0.75)`, taken as the integer part of three quarters of n.
      Python rounds the product to a double first; the two agree for n up
      to 3002399751580332, just above 2^53 / 3. From n = 3002399751580333
      on, a fraction of .75 can round up to the next integer. */
  function SplitIndex(n: nat): nat {
    (3 * n) / 4
  }

  /** The split index is floor(3n/4), hence between 0 and n. */
  lemma SplitIndexIsFloor(n: nat)
    ensures 4 * SplitIndex(n) <= 3 * n < 4 * SplitIndex(n) + 4
    ensures SplitIndex(n) <= n
  {
  }

  /** One `shutil.copy2`: the file `name` of source folder `original` to `subset/cls/name`. */
  datatype Copy = Copy(original: string, name: string, subset: string, cls: string)

  /** The copies of `files` into one subset folder, in order. */
  function CopyAll(original: string, subset: string, cls: string, files: seq<string>): (r: seq<Copy>)
    ensures |r| == |files|
    ensures forall i :: 0 <= i < |files| ==> r[i] == Copy(original, files[i], subset, cls)
  {
    seq(|files|, i requires 0 <= i < |files| => Copy(original, files[i], subset, cls))
  }

  /** The files copied, in order. */
  function Names(copies: seq<Copy>): (r: seq<string>)
    ensures |r| == |copies| && forall i :: 0 <= i < |copies| ==> r[i] == copies[i].name
  {
    seq(|copies|, i requires 0 <= i < |copies| => copies[i].name)
  }

  /** `train_files = image_files[:split_idx]`, `val_files = image_files[split_idx:]`, each copied. */
  function ClassCopies(original: string, cls: string, files: seq<string>): seq<Copy> {
    var k := SplitIndex(|files|);
    CopyAll(original, "train", cls, files[..k]) + CopyAll(original, "val", cls, files[k..])
  }

  /** The split partitions the shuffled list: every file is copied exactly
      once, in order, into train when its position is below the split index
      and into val otherwise, under its own class. */
  lemma ClassCopiesPartition(original: string, cls: string, files: seq<string>)
    ensures Names(ClassCopies(original, cls, files)) == files
    ensures forall i :: 0 <= i < |files| ==>
      ClassCopies(original, cls, files)[i]
        == Copy(original, files[i], if i < SplitIndex(|files|) then "train" else "val", cls)
  {
    var k := SplitIndex(|files|);
    var r := ClassCopies(original, cls, files);
    assert |r| == |files|;
    forall i | 0 <= i < |files|
      ensures r[i] == Copy(original, files[i], if i < k then "train" else "val", cls)
    {
      if i < k {
        assert r[i] == CopyAll(original, "train", cls, files[..k])[i];
      } else {
        assert r[i] == CopyAll(original, "val", cls, files[k..])[i - k];
      }
    }
  }

  /** What one source folder contributes: nothing when it is missing or has
      no images, otherwise the split copies of its shuffled images. */
  function FolderCopies(original: string, cls: string, dirs: map<string, seq<string>>,
                        shuffle: (string, seq<string>) -> seq<string>): seq<Copy> {
    if original !in dirs then []
    else
      var images := ImageFiles(dirs[original]);
      if images == [] then [] else ClassCopies(original, cls, shuffle(original, images))
  }

  /** What one source folder adds to `total_files`. */
  function FolderTotal(original: string, dirs: map<string, seq<string>>,
                       shuffle: (string, seq<string>) -> seq<string>): nat {
    if original !in dirs then 0
    else
      var images := ImageFiles(dirs[original]);
      if images == [] then 0 else |shuffle(original, images)|
  }

  /** All copies made for the given mapping entries, folder by folder. */
  function DatasetCopies(mapping: seq<(string, string)>, dirs: map<string, seq<string>>,
                         shuffle: (string, seq<string>) -> seq<string>): seq<Copy> {
    if mapping == [] then []
    else FolderCopies(mapping[0].0, mapping[0].1, dirs, shuffle) + DatasetCopies(mapping[1..], dirs, shuffle)
  }

  /** `total_files` over the given mapping entries. */
  function TotalFiles(mapping: seq<(string, string)>, dirs: map<string, seq<string>>,
                      shuffle: (string, seq<string>) -> seq<string>): nat {
    if mapping == [] then 0
    else FolderTotal(mapping[0].0, dirs, shuffle) + TotalFiles(mapping[1..], dirs, shuffle)
  }

  /** The copy loop for one subset. */
  method CopyFiles(original: string, subset: string, cls: string, files: seq<string>) returns (copies: seq<Copy>)
    ensures copies == CopyAll(original, subset, cls, files)
  {
    copies := [];
    for i := 0 to |files|
      invariant copies == CopyAll(original, subset, cls, files[..i])
    {
      copies := copies + [Copy(original, files[i], subset, cls)];
    }
    assert files[..|files|] == files;
  }

  /** The body of the loop over `class_mapping` for one entry. */
  method ProcessFolder(original: string, cls: string, dirs: map<string, seq<string>>,
                       shuffle: (string, seq<string>) -> seq<string>) returns (copies: seq<Copy>, count: nat)
    ensures copies == FolderCopies(original, cls, dirs, shuffle)
    ensures count == FolderTotal(original, dirs, shuffle)
  {
    if original !in dirs {
      return [], 0;
    }
    var imageFiles := ImageFiles(dirs[original]);
    if imageFiles == [] {
      return [], 0;
    }
    imageFiles := shuffle(original, imageFiles);
    var splitIdx := (3 * |imageFiles|) / 4;
    var trainCopies := CopyFiles(original, "train", cls, imageFiles[..splitIdx]);
    var valCopies := CopyFiles(original, "val", cls, imageFiles[splitIdx..]);
    copies := trainCopies + valCopies;
    count := |imageFiles|;
  }

  /** `create_5_class_dataset`: the copies it makes and `total_files`. */
  method CreateDataset(dirs: map<string, seq<string>>, shuffle: (string, seq<string>) -> seq<string>)
    returns (copies: seq<Copy>, totalFiles: nat)
    ensures copies == DatasetCopies(ClassMapping, dirs, shuffle)
    ensures totalFiles == TotalFiles(ClassMapping, dirs, shuffle)
  {
    copies := [];
    totalFiles := 0;
    for i := 0 to |ClassMapping|
      invariant DatasetCopies(ClassMapping, dirs, shuffle) == copies + DatasetCopies(ClassMapping[i..], dirs, shuffle)
      invariant TotalFiles(ClassMapping, dirs, shuffle) == totalFiles + TotalFiles(ClassMapping[i..], dirs, shuffle)
    {
      var step, count := ProcessFolder(ClassMapping[i].0, ClassMapping[i].1, dirs, shuffle);
      DatasetUnfold(ClassMapping, i, dirs, shuffle);
      AppendAssoc(copies, step, DatasetCopies(ClassMapping[i + 1..], dirs, shuffle));
      copies := copies + step;
      totalFiles := totalFiles + count;
    }
  }

  /** The copies and the count from entry `i` on are those of entry `i` followed by the rest. */
  lemma DatasetUnfold(mapping: seq<(string, string)>, i: nat, dirs: map<string, seq<string>>,
                      shuffle: (string, seq<string>) -> seq<string>)
    requires i < |mapping|
    ensures DatasetCopies(mapping[i..], dirs, shuffle)
      == FolderCopies(mapping[i].0, mapping[i].1, dirs, shuffle) + DatasetCopies(mapping[i + 1..], dirs, shuffle)
    ensures TotalFiles(mapping[i..], dirs, shuffle)
      == FolderTotal(mapping[i].0, dirs, shuffle) + TotalFiles(mapping[i + 1..], dirs, shuffle)
  {
    assert mapping[i..][1..] == mapping[i + 1..];
  }

  /** `total_files` counts exactly the files copied: none is lost or copied twice. */
  lemma {:induction false} TotalCountsCopies(mapping: seq<(string, string)>, dirs: map<string, seq<string>>,
                                             shuffle: (string, seq<string>) -> seq<string>)
    ensures |DatasetCopies(mapping, dirs, shuffle)| == TotalFiles(mapping, dirs, shuffle)
  {
    if mapping != [] {
      TotalCountsCopies(mapping[1..], dirs, shuffle);
      var original := mapping[0].0;
      if original in dirs && ImageFiles(dirs[original]) != [] {
        ClassCopiesPartition(original, mapping[0].1, shuffle(original, ImageFiles(dirs[original])));
      }
    }
  }

  /** Every copy lands in one of the five class folders of train or val. */
  lemma {:induction false} CopiesLandInClassFolders(mapping: seq<(string, string)>, dirs: map<string, seq<string>>,
                                                    shuffle: (string, seq<string>) -> seq<string>, c: Copy)
    requires forall k :: 0 <= k < |mapping| ==> mapping[k].1 in Classes
    requires c in DatasetCopies(mapping, dirs, shuffle)
    ensures c.subset in Splits && c.cls in Classes
  {
    var original := mapping[0].0;
    if c in FolderCopies(original, mapping[0].1, dirs, shuffle) {
      var files := shuffle(original, ImageFiles(dirs[original]));
      ClassCopiesPartition(original, mapping[0].1, files);
      var i :| 0 <= i < |files| && ClassCopies(original, mapping[0].1, files)[i] == c;
    } else {
      CopiesLandInClassFolders(mapping[1..], dirs, shuffle, c);
    }
  }

  /** When the shuffle only reorders, the files copied from a folder are
      exactly its images, each once. */
  lemma ShuffledImagesAllCopied(original: string, cls: string, dirs: map<string, seq<string>>,
                                shuffle: (string, seq<string>) -> seq<string>)
    requires original in dirs
    requires multiset(shuffle(original, ImageFiles(dirs[original]))) == multiset(ImageFiles(dirs[original]))
    ensures multiset(Names(FolderCopies(original, cls, dirs, shuffle))) == multiset(ImageFiles(dirs[original]))
  {
    var images := ImageFiles(dirs[original]);
    if images != [] {
      ClassCopiesPartition(original, cls, shuffle(original, images));
    }
  }
}
