/**
 * The two admin endpoints of the Mustang manual back-end: a forced index
 * rebuild for an initialized app, and the index status report, which
 * recomputes the rebuild decision from the files on disk. Its chat and
 * initialization are those of `LlamaBackend`.
 */
module MustangBackend {
  import opened Outcomes
  import opened Storage
  import opened MustangIndex
  import opened Backend

  /** The parts of `app_state` the admin endpoints read and write. */
  class AppState {
    var initialized: bool
    /** The index the current query engine answers from, if one was built here. */
    var queryEngine: Option<Index>

    constructor()
      ensures !initialized && queryEngine.None?
    {
      initialized := false;
      queryEngine := None;
    }
  }

  /**
   * `rebuild_index()`: 500 unless the app is initialized; otherwise a new
   * index manager with `force_rebuild=True` builds (retried), and its query
   * engine replaces the current one; a failed build is 500 and leaves the
   * current one.
   */
  method RebuildIndexEndpoint(state: AppState, disk: Disk, faults: nat -> Attempt) returns (r: Result<(), nat>)
    modifies state, disk
    ensures state.initialized == old(state.initialized)
    ensures r.Err? ==> r.error == InternalError && state.queryEngine == old(state.queryEngine)
    ensures !old(state.initialized) ==> r.Err? && disk.State() == old(disk.State())
    ensures old(state.initialized) ==>
      var o := Retry(old(disk.State()), AttemptStep(ManualLayout, true, faults));
      && disk.State() == o.fs
      && (r.Ok? <==> o.result.Ok?)
      && (r.Ok? ==> state.queryEngine == Some(o.result.value))
  {
    if !state.initialized {
      return Err(InternalError);
    }
    var manager := NewIndexManager(disk, true, faults);
    if manager.Err? {
      return Err(InternalError);
    }
    state.queryEngine := manager.value.index;
    return Ok(());
  }

  /** A successful rebuild endpoint installs an index built from the PDFs present, never the persisted one. */
  lemma RebuildInstallsBuiltIndex(fs: FS, faults: nat -> Attempt)
    ensures var o := Retry(fs, AttemptStep(ManualLayout, true, faults));
      o.result.Ok? ==> o.result.value == Built(Present(PdfNames, fs.data))
  {
    ForcedRetryBuilds(ManualLayout, fs, faults);
  }

  // ---------------------------------------------------------------------------
  // `index_status()`
  // ---------------------------------------------------------------------------

  /** The report; an index file entry is `None` for `{"exists": False}`. */
  datatype IndexStatus = IndexStatus(
    indexExists: bool,
    shouldRebuild: bool,
    pdfFilesFound: nat,
    indexFiles: map<string, Option<FileMeta>>,
    pdfFiles: map<string, FileMeta>)

  /** The `index_exists` loop, which breaks at the first missing or empty file. */
  method StatusIndexExists(disk: Disk, l: Layout) returns (indexExists: bool)
    ensures indexExists == IndexValid(l, disk.State())
  {
    if !disk.storageExists {
      return false;
    }
    indexExists := true;
    var i := 0;
    while i < |l.indexFiles|
      invariant 0 <= i <= |l.indexFiles|
      invariant forall j :: 0 <= j < i ==> l.indexFiles[j] in disk.storage && disk.storage[l.indexFiles[j]].size > 0
    {
      var name := l.indexFiles[i];
      if name !in disk.storage || disk.storage[name].size == 0 {
        return false;
      }
      i := i + 1;
    }
  }

  /** The `oldest_index_time` loop over the index files present. */
  method StatusOldest(disk: Disk, l: Layout) returns (oldest: Option<int>)
    ensures oldest == Oldest(l.indexFiles, disk.storage)
  {
    oldest := None;
    for i := 0 to |l.indexFiles|
      invariant oldest == Oldest(l.indexFiles[..i], disk.storage)
    {
      var name := l.indexFiles[i];
      assert l.indexFiles[..i + 1][..i] == l.indexFiles[..i];
      if name in disk.storage {
        var t := disk.storage[name].mtime;
        if oldest.None? || t < oldest.value {
          oldest := Some(t);
        }
      }
    }
    assert l.indexFiles[..|l.indexFiles|] == l.indexFiles;
  }

  /** The loop over the PDFs found, breaking at the first one newer than `t`. */
  method StatusAnyNewer(disk: Disk, l: Layout, pdfs: seq<string>, t: int) returns (newer: bool)
    requires pdfs == Present(l.pdfNames, disk.data)
    ensures newer == AnyNewer(l.pdfNames, disk.data, t)
  {
    AnyNewerPresent(l.pdfNames, disk.data, t);
    for k := 0 to |pdfs|
      invariant forall j :: 0 <= j < k ==> disk.data[pdfs[j]].mtime <= t
    {
      if disk.data[pdfs[k]].mtime > t {
        return true;
      }
    }
    return false;
  }

  /** The `index_files_info` loop. */
  method IndexFilesInfo(disk: Disk, l: Layout) returns (info: map<string, Option<FileMeta>>)
    ensures !disk.storageExists ==> info == map[]
    ensures disk.storageExists ==> forall n :: n in info <==> n in l.indexFiles
    ensures forall n :: n in info ==> info[n] == Lookup(disk.storage, n)
  {
    info := map[];
    if disk.storageExists {
      for i := 0 to |l.indexFiles|
        invariant forall n :: n in info <==> n in l.indexFiles[..i]
        invariant forall n :: n in info ==> info[n] == Lookup(disk.storage, n)
      {
        assert l.indexFiles[..i + 1] == l.indexFiles[..i] + [l.indexFiles[i]];
        var name := l.indexFiles[i];
        if name in disk.storage {
          info := info[name := Some(disk.storage[name])];
        } else {
          info := info[name := None];
        }
      }
      assert l.indexFiles[..|l.indexFiles|] == l.indexFiles;
    }
  }

  /** The `pdf_files_info` loop over the PDFs found. */
  method PdfFilesInfo(disk: Disk, pdfs: seq<string>) returns (info: map<string, FileMeta>)
    requires forall n :: n in pdfs ==> n in disk.data
    ensures forall n :: n in info <==> n in pdfs
    ensures forall n :: n in info ==> info[n] == disk.data[n]
  {
    info := map[];
    for i := 0 to |pdfs|
      invariant forall n :: n in info <==> n in pdfs[..i]
      invariant forall n :: n in info ==> info[n] == disk.data[n]
    {
      assert pdfs[..i + 1] == pdfs[..i] + [pdfs[i]];
      info := info[pdfs[i] := disk.data[pdfs[i]]];
    }
    assert pdfs[..|pdfs|] == pdfs;
  }

  /**
   * `index_status()` for a layout with at least one index file, given
   * whether reading a modification time raises. The endpoint reaches the
   * same rebuild decision as an index manager without `force_rebuild`: a
   * missing or empty index file, then a failing stat, then a PDF newer than
   * the oldest index file.
   */
  method GetIndexStatus(disk: Disk, l: Layout, statFails: bool) returns (s: IndexStatus)
    requires |l.indexFiles| > 0
    ensures s.indexExists == IndexValid(l, disk.State())
    ensures s.shouldRebuild == NeedsRebuild(l, false, disk.State(), statFails)
    ensures s.pdfFilesFound == |Present(l.pdfNames, disk.data)|
    ensures !disk.storageExists ==> s.indexFiles == map[]
    ensures disk.storageExists ==> forall n :: n in s.indexFiles <==> n in l.indexFiles
    ensures forall n :: n in s.indexFiles ==> s.indexFiles[n] == Lookup(disk.storage, n)
    ensures forall n :: n in s.pdfFiles <==> n in l.pdfNames && n in disk.data
    ensures forall n :: n in s.pdfFiles ==> s.pdfFiles[n] == disk.data[n]
  {
    var indexExists := StatusIndexExists(disk, l);
    var pdfs := CollectPresent(disk, l.pdfNames);
    var shouldRebuild := false;
    if !indexExists {
      shouldRebuild := true;
    } else if statFails {
      shouldRebuild := true;
    } else {
      var oldest := StatusOldest(disk, l);
      assert l.indexFiles[0] in disk.storage;
      if oldest.Some? {
        shouldRebuild := StatusAnyNewer(disk, l, pdfs, oldest.value);
      }
    }
    var indexInfo := IndexFilesInfo(disk, l);
    var pdfInfo := PdfFilesInfo(disk, pdfs);
    s := IndexStatus(indexExists, shouldRebuild, |pdfs|, indexInfo, pdfInfo);
  }

  /** The endpoint itself, over the manual's file lists. */
  method IndexStatusEndpoint(disk: Disk, statFails: bool) returns (s: IndexStatus)
    ensures s.indexExists == IndexValid(ManualLayout, disk.State())
    ensures s.shouldRebuild == NeedsRebuild(ManualLayout, false, disk.State(), statFails)
    ensures s.pdfFilesFound == |Present(PdfNames, disk.data)|
  {
    s := GetIndexStatus(disk, ManualLayout, statFails);
  }
}
