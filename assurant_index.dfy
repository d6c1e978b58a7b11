/**
 * The Assurant 10-K index: always cleared and rebuilt, from whichever of the
 * two annual reports are present, or from a placeholder document when
 * neither is.
 */
module AssurantIndex {
  import opened Outcomes
  import opened Storage

  const SourceFiles: seq<string> := ["AIZ 10K - 2023.pdf", "AIZ 10K - 2024.pdf"]

  /** The placeholder branch: build from the placeholder document alone (nothing is read from disk), then persist. */
  function PlaceholderSpec(fs: FS, a: Attempt): (o: Outcome)
    ensures o.result.Ok? <==> !a.buildFails && !a.persistFails
    ensures o.result.Ok? ==> o.result.value == Placeholder && o.fs.storage == fs.storage + a.written
    ensures o.result.Err? ==> o.fs == fs
    ensures o.fs.data == fs.data && o.fs.storageExists == fs.storageExists
  {
    if a.buildFails then Outcome(fs, Err(BuildFailed)) else PersistSpec(fs, a, Placeholder)
  }

  /** One call of `load_or_create_index`; a missing report is only logged. */
  function AttemptSpec(fs: FS, a: Attempt): (o: Outcome)
    ensures o.fs.storageExists && o.fs.data == fs.data
    ensures o.result.Ok? ==> o.fs.storage == a.written && !o.result.value.Loaded?
    ensures o.result.Err? ==> o.fs.storage == map[] && o.result.error in {ReadFailed, BuildFailed, PersistFailed}
    ensures Present(SourceFiles, fs.data) != [] ==>
      (o.result.Ok? <==> !a.readFails && !a.buildFails && !a.persistFails) &&
      (o.result.Ok? ==> o.result.value == Built(Present(SourceFiles, fs.data)))
    ensures Present(SourceFiles, fs.data) == [] ==>
      (o.result.Ok? <==> !a.buildFails && !a.persistFails) && (o.result.Ok? ==> o.result.value == Placeholder)
  {
    var cleared := Cleared(fs);
    var pdfs := Present(SourceFiles, fs.data);
    if pdfs != [] then BuildAndPersist(cleared, a, pdfs) else PlaceholderSpec(cleared, a)
  }

  function AttemptStep(faults: nat -> Attempt): (FS, nat) -> Outcome {
    (fs: FS, i: nat) => AttemptSpec(fs, faults(i))
  }

  /** What was stored before plays no part: the retried call depends on the data directory alone. */
  lemma {:induction false} RetryIgnoresStoredIndex(fs1: FS, fs2: FS, faults: nat -> Attempt)
    requires fs1.data == fs2.data
    ensures Retry(fs1, AttemptStep(faults)) == Retry(fs2, AttemptStep(faults))
  {
    var step := AttemptStep(faults);
    assert Cleared(fs1) == Cleared(fs2);
    assert AttemptSpec(fs1, faults(0)) == AttemptSpec(fs2, faults(0));
    assert step(fs1, 0) == AttemptSpec(fs1, faults(0)) && step(fs2, 0) == AttemptSpec(fs2, faults(0));
  }

  class IndexManager {
    var index: Option<Index>
    const disk: Disk

    constructor(disk: Disk)
      ensures this.disk == disk && index.None?
    {
      this.disk := disk;
      index := None;
    }

    /** The body of `load_or_create_index`, one attempt. */
    method LoadOrCreateOnce(a: Attempt) returns (r: Result<Index, IndexError>)
      modifies disk
      ensures Outcome(disk.State(), r) == AttemptSpec(old(disk.State()), a)
    {
      ClearOrCreateStorage(disk);
      var pdfs := CollectPresent(disk, SourceFiles);
      if pdfs != [] {
        r := BuildAndPersistIndex(disk, a, pdfs);
      } else {
        if a.buildFails {
          return Err(BuildFailed);
        }
        r := Persist(disk, a, Placeholder);
      }
    }

    /** `load_or_create_index` under `@retry`: attempt `i` raises as `faults(i)` says. */
    method LoadOrCreateIndex(faults: nat -> Attempt) returns (r: Result<Index, IndexError>)
      modifies disk
      ensures Outcome(disk.State(), r) == Retry(old(disk.State()), AttemptStep(faults))
    {
      var i: nat := 0;
      while true
        invariant i < MaxAttempts
        invariant Retry(old(disk.State()), AttemptStep(faults)) == RetryFrom(disk.State(), AttemptStep(faults), i)
        decreases MaxAttempts - i
      {
        r := LoadOrCreateOnce(faults(i));
        if r.Ok? {
          return;
        }
        if i + 1 == MaxAttempts {
          return Err(RetryError(r.error));
        }
        i := i + 1;
      }
    }
  }

  /** `IndexManager()`: the constructor creates the index, or raises. */
  method NewIndexManager(disk: Disk, faults: nat -> Attempt) returns (r: Result<IndexManager, IndexError>)
    modifies disk
    ensures var o := Retry(old(disk.State()), AttemptStep(faults));
      && disk.State() == o.fs
      && (r.Ok? <==> o.result.Ok?)
      && (r.Ok? ==> fresh(r.value) && r.value.disk == disk && r.value.index == Some(o.result.value))
      && (r.Err? ==> r.error == o.result.error)
  {
    var m := new IndexManager(disk);
    var idx := m.LoadOrCreateIndex(faults);
    if idx.Err? {
      return Err(idx.error);
    }
    m.index := Some(idx.value);
    return Ok(m);
  }
}
