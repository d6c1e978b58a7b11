/**
 * The owner's-manual index: load the persisted index unless it is missing,
 * incomplete or older than a source PDF, otherwise build it from the PDFs
 * present and persist it.
 */
module MustangIndex {
  import opened Outcomes
  import opened Storage

  const PdfNames: seq<string> := [
    "2016-Mustang-Owners-Manual-version-2_om_EN-US_11_2015.pdf",
    "2017-Ford-Mustang-Owners-Manual-version-2_om_EN-US_EN-CA_12_2016.pdf",
    "2018-Ford-Mustang-Owners-Manual-version-3_om_EN-US_03_2018.pdf",
    "2019-Ford-Mustang-Owners-Manual-version-2_om_EN-US_01_2019.pdf",
    "2020-Ford-Mustang-Owners-Manual-version-2_om_EN-US_12_2019.pdf",
    "2021-Ford-Mustang-Owners-Manual-version-2_om_EN-US_03_2021.pdf",
    "2022-Ford-Mustang-Owners-Manual-version-1_om_EN-US_11_2021.pdf",
    "2023_Ford_Mustang_Owners_Manual_version_1_om_EN-US.pdf",
    "2024_Ford_Mustang_Owners_Manual_version_1_om_EN-US.pdf",
    "2025_MustangS650_OM_ENG_version1.pdf"
  ]

  const IndexFiles: seq<string> := ["default__vector_store.json", "index_store.json", "docstore.json"]

  /**
   * The file lists an index manager consults: the source PDFs it looks for in
   * the data directory and the files a valid persisted index holds.
   */
  datatype Layout = Layout(pdfNames: seq<string>, indexFiles: seq<string>)

  const ManualLayout: Layout := Layout(PdfNames, IndexFiles)

  /** The storage directory exists and holds each index file, non-empty. */
  predicate IndexValid(l: Layout, fs: FS) {
    fs.storageExists && forall i :: 0 <= i < |l.indexFiles| ==> l.indexFiles[i] in fs.storage && fs.storage[l.indexFiles[i]].size > 0
  }

  /** The least modification time among the named files present, as the `oldest_index_time` loop finds it. */
  function Oldest(names: seq<string>, files: map<string, FileMeta>): (r: Option<int>)
    ensures r.Some? <==> exists i :: 0 <= i < |names| && names[i] in files
    ensures r.Some? ==> forall i :: 0 <= i < |names| && names[i] in files ==> r.value <= files[names[i]].mtime
    ensures r.Some? ==> exists i :: 0 <= i < |names| && names[i] in files && r.value == files[names[i]].mtime
  {
    if |names| == 0 then None
    else
      var init := Oldest(names[..|names| - 1], files);
      var last := names[|names| - 1];
      assert forall i :: 0 <= i < |names| - 1 ==> names[..|names| - 1][i] == names[i];
      if last in files && (init.None? || files[last].mtime < init.value) then Some(files[last].mtime) else init
  }

  /** Some of `names` exists in `data` with a modification time strictly after `t`. */
  predicate AnyNewer(names: seq<string>, data: map<string, FileMeta>, t: int) {
    exists i :: 0 <= i < |names| && names[i] in data && data[names[i]].mtime > t
  }

  /** No index file has a time to compare with, or some PDF present is strictly newer than the oldest one. */
  predicate SourceNewer(l: Layout, fs: FS) {
    var oldest := Oldest(l.indexFiles, fs.storage);
    oldest.None? || AnyNewer(l.pdfNames, fs.data, oldest.value)
  }

  /** Scanning only the files `Present` found decides `AnyNewer` over all names. */
  lemma AnyNewerPresent(names: seq<string>, data: map<string, FileMeta>, t: int)
    ensures AnyNewer(names, data, t) <==> exists k :: 0 <= k < |Present(names, data)| && data[Present(names, data)[k]].mtime > t
  {
    var p := Present(names, data);
    if AnyNewer(names, data, t) {
      var i :| 0 <= i < |names| && names[i] in data && data[names[i]].mtime > t;
      assert names[i] in p;
    }
    if exists k :: 0 <= k < |p| && data[p[k]].mtime > t {
      var k :| 0 <= k < |p| && data[p[k]].mtime > t;
      assert p[k] in names;
    }
  }

  /** Newer than the least of the times is newer than one of them. */
  lemma AnyNewerThanOldest(names: seq<string>, index: seq<string>, data: map<string, FileMeta>, files: map<string, FileMeta>)
    requires Oldest(index, files).Some?
    ensures AnyNewer(names, data, Oldest(index, files).value) <==>
      exists i, j :: 0 <= i < |names| && 0 <= j < |index| && names[i] in data && index[j] in files &&
        data[names[i]].mtime > files[index[j]].mtime
  {
    var t := Oldest(index, files).value;
    var j0 :| 0 <= j0 < |index| && index[j0] in files && t == files[index[j0]].mtime;
    if AnyNewer(names, data, t) {
      var i :| 0 <= i < |names| && names[i] in data && data[names[i]].mtime > t;
      assert data[names[i]].mtime > files[index[j0]].mtime;
    }
  }

  /** `_should_rebuild_index`, given whether reading a modification time raises. */
  function NeedsRebuild(l: Layout, forceRebuild: bool, fs: FS, statFails: bool): (b: bool)
    ensures forceRebuild || !IndexValid(l, fs) || statFails ==> b
    ensures !forceRebuild && IndexValid(l, fs) && !statFails && |l.indexFiles| > 0 ==>
      (b <==> (exists i, j :: 0 <= i < |l.pdfNames| && 0 <= j < |l.indexFiles| && l.pdfNames[i] in fs.data &&
                 fs.data[l.pdfNames[i]].mtime > fs.storage[l.indexFiles[j]].mtime))
  {
    if IndexValid(l, fs) && |l.indexFiles| > 0 then
      SourceNewerIff(l, fs);
      forceRebuild || statFails || SourceNewer(l, fs)
    else
      forceRebuild || !IndexValid(l, fs) || statFails || SourceNewer(l, fs)
  }

  /**
   * For a valid index, "newer than the oldest index file" is "newer than some
   * index file": a PDF with the same time as every index file does not count.
   */
  lemma SourceNewerIff(l: Layout, fs: FS)
    requires IndexValid(l, fs) && |l.indexFiles| > 0
    ensures SourceNewer(l, fs) <==>
      exists i, j :: 0 <= i < |l.pdfNames| && 0 <= j < |l.indexFiles| && l.pdfNames[i] in fs.data &&
        fs.data[l.pdfNames[i]].mtime > fs.storage[l.indexFiles[j]].mtime
  {
    assert l.indexFiles[0] in fs.storage;
    AnyNewerThanOldest(l.pdfNames, l.indexFiles, fs.data, fs.storage);
  }

  /** One call of `_create_new_index`. */
  function CreateSpec(l: Layout, fs: FS, a: Attempt): (o: Outcome)
    ensures o.fs.storageExists && o.fs.data == fs.data
    ensures o.result == Err(NoPdfFiles) <==> Present(l.pdfNames, fs.data) == []
    ensures o.result.Ok? <==> Present(l.pdfNames, fs.data) != [] && !a.readFails && !a.buildFails && !a.persistFails
    ensures o.result.Ok? ==> o.result.value == Built(Present(l.pdfNames, fs.data)) && o.fs.storage == fs.storage + a.written
    ensures o.result.Err? ==> o.fs.storage == fs.storage
  {
    var fs1 := fs.(storageExists := true);
    var pdfs := Present(l.pdfNames, fs.data);
    if pdfs == [] then Outcome(fs1, Err(NoPdfFiles)) else BuildAndPersist(fs1, a, pdfs)
  }

  /** One call of `load_or_create_index`: load when no rebuild is due, else (or when loading raises) create. */
  function AttemptSpec(l: Layout, fs: FS, forceRebuild: bool, a: Attempt): (o: Outcome)
    ensures o.result.Ok? && o.result.value.Loaded? <==> !NeedsRebuild(l, forceRebuild, fs, a.statFails) && !a.loadFails
    ensures o.result.Ok? && o.result.value.Loaded? ==> o == Outcome(fs, Ok(Loaded(fs.storage)))
    ensures NeedsRebuild(l, forceRebuild, fs, a.statFails) || a.loadFails ==> o == CreateSpec(l, fs, a)
  {
    if !NeedsRebuild(l, forceRebuild, fs, a.statFails) && !a.loadFails then Outcome(fs, Ok(Loaded(fs.storage)))
    else CreateSpec(l, fs, a)
  }

  function AttemptStep(l: Layout, forceRebuild: bool, faults: nat -> Attempt): (FS, nat) -> Outcome {
    (fs: FS, i: nat) => AttemptSpec(l, fs, forceRebuild, faults(i))
  }

  /**
   * A build that persists every index file, non-empty and with times no
   * older than any PDF, is loaded by the next call instead of rebuilt.
   */
  lemma {:induction false} BuildSettles(l: Layout, fs: FS, a: Attempt)
    requires |l.indexFiles| > 0
    requires forall i :: 0 <= i < |l.indexFiles| ==> l.indexFiles[i] in a.written && a.written[l.indexFiles[i]].size > 0
    requires forall i, j :: 0 <= i < |l.pdfNames| && 0 <= j < |l.indexFiles| && l.pdfNames[i] in fs.data ==>
      fs.data[l.pdfNames[i]].mtime <= a.written[l.indexFiles[j]].mtime
    requires CreateSpec(l, fs, a).result.Ok?
    ensures var next := CreateSpec(l, fs, a).fs; !NeedsRebuild(l, false, next, false)
    ensures var next := CreateSpec(l, fs, a).fs; AttemptSpec(l, next, false, a.(loadFails := false, statFails := false)).result == Ok(Loaded(next.storage))
  {
    var next := CreateSpec(l, fs, a).fs;
    assert next.storage == fs.storage + a.written && next.data == fs.data;
    assert forall j :: 0 <= j < |l.indexFiles| ==> next.storage[l.indexFiles[j]] == a.written[l.indexFiles[j]];
    assert IndexValid(l, next);
    SourceNewerIff(l, next);
  }

  /** A forced rebuild never loads: the attempt is a create. */
  lemma ForcedAttemptCreates(l: Layout, fs: FS, a: Attempt)
    ensures AttemptSpec(l, fs, true, a) == CreateSpec(l, fs, a)
  {
  }

  /** No attempt touches the data directory. */
  lemma {:induction false} AttemptsKeepData(l: Layout, fs: FS, forceRebuild: bool, faults: nat -> Attempt, j: nat)
    ensures AttemptDisk(fs, AttemptStep(l, forceRebuild, faults), j).data == fs.data
  {
    if j > 0 {
      var step := AttemptStep(l, forceRebuild, faults);
      AttemptsKeepData(l, fs, forceRebuild, faults, j - 1);
      var prev := AttemptDisk(fs, step, j - 1);
      assert step(prev, j - 1) == AttemptSpec(l, prev, forceRebuild, faults(j - 1));
    }
  }

  /**
   * A forced rebuild, retried, never returns the persisted index: when it
   * succeeds, the index is built from exactly the PDFs present.
   */
  lemma {:induction false} ForcedRetryBuilds(l: Layout, fs: FS, faults: nat -> Attempt)
    ensures var o := Retry(fs, AttemptStep(l, true, faults));
      o.result.Ok? ==> o.result.value == Built(Present(l.pdfNames, fs.data))
  {
    var step := AttemptStep(l, true, faults);
    RetryOutcome(fs, step, 0);
    var o := Retry(fs, step);
    if o.result.Ok? {
      var j :| 0 <= j < MaxAttempts && o == step(AttemptDisk(fs, step, j), j) &&
               forall k :: 0 <= k < j ==> AttemptFails(fs, step, k);
      var d := AttemptDisk(fs, step, j);
      AttemptsKeepData(l, fs, true, faults, j);
      assert o == AttemptSpec(l, d, true, faults(j));
      ForcedAttemptCreates(l, d, faults(j));
    }
  }

  class IndexManager {
    var forceRebuild: bool
    var index: Option<Index>
    const layout: Layout
    const disk: Disk

    constructor(disk: Disk, forceRebuild: bool)
      ensures this.disk == disk && this.forceRebuild == forceRebuild && index.None? && layout == ManualLayout
    {
      this.disk := disk;
      this.forceRebuild := forceRebuild;
      index := None;
      layout := ManualLayout;
    }

    /** `_get_pdf_files`: the listed PDFs present, in list order. */
    method GetPdfFiles() returns (files: seq<string>)
      ensures files == Present(layout.pdfNames, disk.data)
      ensures forall n :: n in files <==> n in layout.pdfNames && n in disk.data
    {
      files := CollectPresent(disk, layout.pdfNames);
    }

    /** `_index_exists_and_valid` */
    method IndexExistsAndValid() returns (valid: bool)
      ensures valid == IndexValid(layout, disk.State())
    {
      if !disk.storageExists {
        return false;
      }
      for i := 0 to |layout.indexFiles|
        invariant forall j :: 0 <= j < i ==> layout.indexFiles[j] in disk.storage && disk.storage[layout.indexFiles[j]].size > 0
      {
        var name := layout.indexFiles[i];
        if name !in disk.storage {
          return false;
        }
        if disk.storage[name].size == 0 {
          return false;
        }
      }
      return true;
    }

    /** The `oldest_index_time` loop over the index files. */
    method OldestIndexTime() returns (oldest: Option<int>)
      ensures oldest == Oldest(layout.indexFiles, disk.storage)
    {
      var names := layout.indexFiles;
      oldest := None;
      for i := 0 to |names|
        invariant oldest == Oldest(names[..i], disk.storage)
      {
        assert names[..i + 1][..i] == names[..i];
        var name := names[i];
        if name in disk.storage {
          var t := disk.storage[name].mtime;
          if oldest.None? || t < oldest.value {
            oldest := Some(t);
          }
        }
      }
      assert names[..|names|] == names;
    }

    /** `_should_rebuild_index`; `statFails` says whether a `stat()` in the guarded block raises. */
    method ShouldRebuildIndex(statFails: bool) returns (rebuild: bool)
      ensures rebuild == NeedsRebuild(layout, forceRebuild, disk.State(), statFails)
    {
      if forceRebuild {
        return true;
      }
      var valid := IndexExistsAndValid();
      if !valid {
        return true;
      }
      if statFails {
        return true;
      }
      var oldest := OldestIndexTime();
      if oldest.None? {
        return true;
      }
      rebuild := AnyPdfNewer(oldest.value);
    }

    /** The PDF loop of `_should_rebuild_index`: is a PDF present newer than `t`? */
    method AnyPdfNewer(t: int) returns (newer: bool)
      ensures newer == AnyNewer(layout.pdfNames, disk.data, t)
    {
      var pdfs := GetPdfFiles();
      AnyNewerPresent(layout.pdfNames, disk.data, t);
      // Every PDF `GetPdfFiles` returns exists, so its time can be read.
      for j := 0 to |pdfs|
        invariant forall k :: 0 <= k < j ==> disk.data[pdfs[k]].mtime <= t
      {
        if disk.data[pdfs[j]].mtime > t {
          return true;
        }
      }
      return false;
    }

    /** `_create_new_index`: make the storage directory, then build from the PDFs present and persist. */
    method CreateNewIndex(a: Attempt) returns (r: Result<Index, IndexError>)
      modifies disk
      ensures Outcome(disk.State(), r) == CreateSpec(layout, old(disk.State()), a)
    {
      if !disk.storageExists {
        disk.storageExists := true;
      }
      var pdfs := GetPdfFiles();
      if pdfs == [] {
        return Err(NoPdfFiles);
      }
      r := BuildAndPersistIndex(disk, a, pdfs);
    }

    /** The body of `load_or_create_index`, one attempt. */
    method LoadOrCreateOnce(a: Attempt) returns (r: Result<Index, IndexError>)
      modifies disk
      ensures Outcome(disk.State(), r) == AttemptSpec(layout, old(disk.State()), forceRebuild, a)
    {
      var rebuild := ShouldRebuildIndex(a.statFails);
      if !rebuild {
        if !a.loadFails {
          return Ok(Loaded(disk.storage));
        }
      }
      r := CreateNewIndex(a);
    }

    /** `load_or_create_index` under `@retry`: attempt `i` raises as `faults(i)` says. */
    method LoadOrCreateIndex(faults: nat -> Attempt) returns (r: Result<Index, IndexError>)
      modifies disk
      ensures Outcome(disk.State(), r) == Retry(old(disk.State()), AttemptStep(layout, forceRebuild, faults))
    {
      var i: nat := 0;
      while true
        invariant i < MaxAttempts
        invariant Retry(old(disk.State()), AttemptStep(layout, forceRebuild, faults)) ==
          RetryFrom(disk.State(), AttemptStep(layout, forceRebuild, faults), i)
        decreases MaxAttempts - i
      {
        r := LoadOrCreateOnce(faults(i));
        if r.Ok? {
          return;
        }
        if i + 1 == MaxAttempts {
          return Err(RetryError(r.error));
        }
        i := i + 1;
      }
    }

    /** `rebuild_index`: always builds; the flag is cleared again only when the build succeeded. */
    method RebuildIndex(a: Attempt) returns (r: Result<Index, IndexError>)
      modifies this, disk
      ensures Outcome(disk.State(), r) == CreateSpec(layout, old(disk.State()), a)
      ensures r.Ok? ==> !forceRebuild && index == Some(r.value)
      ensures r.Err? ==> forceRebuild && index == old(index)
    {
      forceRebuild := true;
      r := CreateNewIndex(a);
      if r.Ok? {
        index := Some(r.value);
        forceRebuild := false;
      }
    }
  }

  /** `IndexManager(force_rebuild=...)`: the constructor loads or creates the index, or raises. */
  method NewIndexManager(disk: Disk, forceRebuild: bool, faults: nat -> Attempt) returns (r: Result<IndexManager, IndexError>)
    modifies disk
    ensures var o := Retry(old(disk.State()), AttemptStep(ManualLayout, forceRebuild, faults));
      && disk.State() == o.fs
      && (r.Ok? <==> o.result.Ok?)
      && (r.Ok? ==> fresh(r.value) && r.value.disk == disk && r.value.layout == ManualLayout &&
                    r.value.index == Some(o.result.value) && r.value.forceRebuild == forceRebuild)
      && (r.Err? ==> r.error == o.result.error)
  {
    var m := new IndexManager(disk, forceRebuild);
    var idx := m.LoadOrCreateIndex(faults);
    if idx.Err? {
      return Err(idx.error);
    }
    m.index := Some(idx.value);
    return Ok(m);
  }
}
