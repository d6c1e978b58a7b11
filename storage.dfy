/**
 * What the index managers see of the filesystem, and what they share: the
 * storage directory that holds a persisted index, the data directory that
 * holds the source PDFs, the directory-clearing loop, the two file-collecting
 * loops, the persist step and the three-attempt retry.
 *
 * Document parsing, embedding and index building are opaque: an `Attempt`
 * says which of them raise in one call, and which files a persist writes.
 */
module Storage {
  import opened Outcomes

  /** `st_size` and `st_mtime` (modification times as integers). */
  datatype FileMeta = FileMeta(size: nat, mtime: int)

  /** A snapshot of the two directories. */
  datatype FS = FS(storageExists: bool, storage: map<string, FileMeta>, data: map<string, FileMeta>)

  class Disk {
    var storageExists: bool
    var storage: map<string, FileMeta>
    var data: map<string, FileMeta>

    function State(): FS
      reads this
    {
      FS(storageExists, storage, data)
    }

    constructor(fs: FS)
      ensures State() == fs
    {
      storageExists := fs.storageExists;
      storage := fs.storage;
      data := fs.data;
    }
  }

  /** An index: loaded from storage, built from source files, or the placeholder document. */
  datatype Index = Loaded(files: map<string, FileMeta>) | Built(sources: seq<string>) | Placeholder

  datatype IndexError =
    | NoPdfFiles
    | FileNotFound(name: string)
    | ReadFailed
    | BuildFailed
    | PersistFailed
    | RetryError(last: IndexError)

  /** Which opaque steps raise in one call of `load_or_create_index`, and what a persist writes. */
  datatype Attempt = Attempt(
    loadFails: bool,
    statFails: bool,
    readFails: bool,
    buildFails: bool,
    persistFails: bool,
    written: map<string, FileMeta>)

  /** The disk after a call and what the call returned or raised. */
  datatype Outcome = Outcome(fs: FS, result: Result<Index, IndexError>)

  /** `stop_after_attempt(3)` */
  const MaxAttempts: nat := 3

  /** The names in `names` that exist in `files`, in list order. */
  function Present(names: seq<string>, files: map<string, FileMeta>): (r: seq<string>)
    ensures forall n :: n in r <==> n in names && n in files
    ensures |r| <= |names|
    ensures r == [] <==> forall i :: 0 <= i < |names| ==> names[i] !in files
  {
    if |names| == 0 then []
    else
      var init := Present(names[..|names| - 1], files);
      var last := names[|names| - 1];
      assert names == names[..|names| - 1] + [last];
      if last in files then init + [last] else init
  }

  /** The collecting loop that raises on the first missing name, else returns all of them. */
  function Required(names: seq<string>, files: map<string, FileMeta>): (r: Result<seq<string>, IndexError>)
    ensures r.Ok? <==> forall i :: 0 <= i < |names| ==> names[i] in files
    ensures r.Ok? ==> r.value == names
    ensures r.Err? ==> exists i :: 0 <= i < |names| && r.error == FileNotFound(names[i]) && names[i] !in files &&
                         forall j :: 0 <= j < i ==> names[j] in files
  {
    if |names| == 0 then Ok([])
    else if names[0] !in files then Err(FileNotFound(names[0]))
    else
      var rest := Required(names[1..], files);
      assert forall i :: 1 <= i < |names| ==> names[i] == names[1..][i - 1];
      if rest.Err? then
        var i :| 0 <= i < |names[1..]| && rest.error == FileNotFound(names[1..][i]) && names[1..][i] !in files &&
                 forall j :: 0 <= j < i ==> names[1..][j] in files;
        assert rest.error == FileNotFound(names[i + 1]);
        rest
      else
        assert names == [names[0]] + names[1..];
        Ok([names[0]] + rest.value)
  }

  /** `for filename in filenames: if exists: pdf_files.append(...)` */
  method CollectPresent(disk: Disk, names: seq<string>) returns (found: seq<string>)
    ensures found == Present(names, disk.data)
  {
    found := [];
    for i := 0 to |names|
      invariant found == Present(names[..i], disk.data)
    {
      assert names[..i + 1][..i] == names[..i];
      if names[i] in disk.data {
        found := found + [names[i]];
      }
    }
    assert names[..|names|] == names;
  }

  /** The same loop raising `FileNotFoundError` on the first missing name. */
  method CollectRequired(disk: Disk, names: seq<string>) returns (r: Result<seq<string>, IndexError>)
    ensures r == Required(names, disk.data)
  {
    var found := [];
    for i := 0 to |names|
      invariant found == names[..i]
      invariant forall j :: 0 <= j < i ==> names[j] in disk.data
    {
      if names[i] !in disk.data {
        RequiredStopsAt(names, disk.data, i);
        return Err(FileNotFound(names[i]));
      }
      found := found + [names[i]];
    }
    assert found == names;
    return Ok(found);
  }

  /** The first missing name decides what `Required` raises. */
  lemma {:induction false} RequiredStopsAt(names: seq<string>, files: map<string, FileMeta>, i: nat)
    requires i < |names| && names[i] !in files
    requires forall j :: 0 <= j < i ==> names[j] in files
    ensures Required(names, files) == Err(FileNotFound(names[i]))
  {
    if i > 0 {
      assert forall j :: 0 <= j < i - 1 ==> names[1..][j] == names[j + 1];
      RequiredStopsAt(names[1..], files, i - 1);
    }
  }

  /** The disk once the storage directory exists and is empty. */
  function Cleared(fs: FS): FS {
    fs.(storageExists := true, storage := map[])
  }

  /** Create the storage directory, or unlink every entry of it. */
  method ClearOrCreateStorage(disk: Disk)
    modifies disk
    ensures disk.State() == Cleared(old(disk.State()))
  {
    if !disk.storageExists {
      disk.storageExists := true;
      disk.storage := map[];
    } else {
      var entries := disk.storage.Keys;
      while entries != {}
        invariant disk.storageExists && disk.data == old(disk.data)
        invariant disk.storage == old(disk.storage) - (old(disk.storage).Keys - entries)
        invariant entries <= old(disk.storage).Keys
        decreases |entries|
      {
        var name :| name in entries;
        disk.storage := disk.storage - {name};
        entries := entries - {name};
      }
      assert disk.storage == map[];
    }
  }

  /** `index.storage_context.persist(persist_dir)`: the written files land in storage. */
  function PersistSpec(fs: FS, a: Attempt, index: Index): (o: Outcome)
    ensures o.result.Ok? <==> !a.persistFails
    ensures o.result.Ok? ==> o.fs.storage == fs.storage + a.written && o.result.value == index
    ensures o.fs.data == fs.data && o.fs.storageExists == fs.storageExists
  {
    if a.persistFails then Outcome(fs, Err(PersistFailed))
    else Outcome(fs.(storage := fs.storage + a.written), Ok(index))
  }

  /** Read the documents, build the index from them, persist it. */
  function BuildAndPersist(fs: FS, a: Attempt, sources: seq<string>): (o: Outcome)
    ensures o.result.Ok? <==> !a.readFails && !a.buildFails && !a.persistFails
    ensures o.result.Ok? ==> o.result.value == Built(sources) && o.fs.storage == fs.storage + a.written
    ensures o.result.Err? ==> o.fs == fs
    ensures o.fs.data == fs.data && o.fs.storageExists == fs.storageExists
  {
    if a.readFails then Outcome(fs, Err(ReadFailed))
    else if a.buildFails then Outcome(fs, Err(BuildFailed))
    else PersistSpec(fs, a, Built(sources))
  }

  method Persist(disk: Disk, a: Attempt, index: Index) returns (r: Result<Index, IndexError>)
    modifies disk
    ensures Outcome(disk.State(), r) == PersistSpec(old(disk.State()), a, index)
  {
    if a.persistFails {
      return Err(PersistFailed);
    }
    disk.storage := disk.storage + a.written;
    return Ok(index);
  }

  method BuildAndPersistIndex(disk: Disk, a: Attempt, sources: seq<string>) returns (r: Result<Index, IndexError>)
    modifies disk
    ensures Outcome(disk.State(), r) == BuildAndPersist(old(disk.State()), a, sources)
  {
    if a.readFails {
      return Err(ReadFailed);
    }
    if a.buildFails {
      return Err(BuildFailed);
    }
    r := Persist(disk, a, Built(sources));
  }

  // ---------------------------------------------------------------------------
  // `@retry(stop=stop_after_attempt(3))`
  // ---------------------------------------------------------------------------

  /** Attempts `i` and later: a success is returned, the third failure is wrapped. */
  function RetryFrom(fs: FS, step: (FS, nat) -> Outcome, i: nat): (o: Outcome)
    requires i < MaxAttempts
    decreases MaxAttempts - i
    ensures o.result.Err? ==> o.result.error.RetryError?
    ensures o.result.Ok? ==> exists j, d :: i <= j < MaxAttempts && o == step(d, j)
  {
    var o := step(fs, i);
    if o.result.Ok? then o
    else if i + 1 == MaxAttempts then Outcome(o.fs, Err(RetryError(o.result.error)))
    else RetryFrom(o.fs, step, i + 1)
  }

  /** `@retry(stop=stop_after_attempt(3))` without `reraise`: every failure surfaces as `RetryError`. */
  function Retry(fs: FS, step: (FS, nat) -> Outcome): (o: Outcome)
    ensures o.result.Err? ==> o.result.error.RetryError?
    ensures o.result.Ok? ==> exists j, d :: 0 <= j < MaxAttempts && o == step(d, j)
  {
    RetryFrom(fs, step, 0)
  }

  /** Each attempt sees the disk as the attempt before it left it. */
  function AttemptDisk(fs: FS, step: (FS, nat) -> Outcome, i: nat): FS
    decreases i
  {
    if i == 0 then fs else step(AttemptDisk(fs, step, i - 1), i - 1).fs
  }

  predicate AttemptFails(fs: FS, step: (FS, nat) -> Outcome, i: nat) {
    step(AttemptDisk(fs, step, i), i).result.Err?
  }

  /**
   * The retried call succeeds with the first successful attempt among the
   * first three; when all three fail it raises `RetryError` wrapping the last
   * failure, and no fourth attempt is made.
   */
  lemma {:induction false} RetryOutcome(fs: FS, step: (FS, nat) -> Outcome, i: nat)
    requires i < MaxAttempts
    ensures var o := RetryFrom(AttemptDisk(fs, step, i), step, i);
      && (o.result.Err? <==> forall j :: i <= j < MaxAttempts ==> AttemptFails(fs, step, j))
      && (o.result.Err? ==> AttemptFails(fs, step, MaxAttempts - 1) && o.result.error == RetryError(step(AttemptDisk(fs, step, MaxAttempts - 1), MaxAttempts - 1).result.error))
      && (o.result.Ok? ==> exists j :: i <= j < MaxAttempts && o == step(AttemptDisk(fs, step, j), j) &&
                             forall k :: i <= k < j ==> AttemptFails(fs, step, k))
    decreases MaxAttempts - i
  {
    var o := step(AttemptDisk(fs, step, i), i);
    if o.result.Ok? {
      assert RetryFrom(AttemptDisk(fs, step, i), step, i) == o;
      assert !AttemptFails(fs, step, i);
    } else if i + 1 == MaxAttempts {
      assert AttemptFails(fs, step, i);
    } else {
      assert AttemptDisk(fs, step, i + 1) == o.fs;
      RetryOutcome(fs, step, i + 1);
      var r := RetryFrom(AttemptDisk(fs, step, i), step, i);
      if r.result.Ok? {
        var j :| i + 1 <= j < MaxAttempts && r == step(AttemptDisk(fs, step, j), j) &&
                 forall k :: i + 1 <= k < j ==> AttemptFails(fs, step, k);
        assert forall k :: i <= k < j ==> AttemptFails(fs, step, k);
      }
    }
  }

  lemma RetryFirstSuccess(fs: FS, step: (FS, nat) -> Outcome)
    requires step(fs, 0).result.Ok?
    ensures Retry(fs, step) == step(fs, 0)
  {
  }
}
