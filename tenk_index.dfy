/**
 * The 10-K documentation index: load whatever the storage directory holds;
 * when it is empty, missing or fails to load, clear it and rebuild from the
 * one required PDF.
 */
module TenKIndex {
  import opened Outcomes
  import opened Storage

  const SourceFiles: seq<string> := ["Arize AI Docs.pdf"]

  /** `storage_path.exists() and any(storage_path.iterdir())` */
  predicate HasStoredIndex(fs: FS) {
    fs.storageExists && fs.storage != map[]
  }

  /** The create half of `load_or_create_index`: clear, require every source file, build, persist. */
  function CreateSpec(fs: FS, a: Attempt): (o: Outcome)
    ensures o.fs.storageExists && o.fs.data == fs.data
    ensures o.result.Ok? <==> SourceFiles[0] in fs.data && !a.readFails && !a.buildFails && !a.persistFails
    ensures SourceFiles[0] !in fs.data ==> o.result == Err(FileNotFound(SourceFiles[0]))
    ensures o.result.Ok? ==> o.result.value == Built(SourceFiles) && o.fs.storage == a.written
    ensures o.result.Err? ==> o.fs.storage == map[]
  {
    var cleared := Cleared(fs);
    match Required(SourceFiles, fs.data)
    case Err(e) => Outcome(cleared, Err(e))
    case Ok(pdfs) => BuildAndPersist(cleared, a, pdfs)
  }

  /** One call of `load_or_create_index`: a stored index is loaded unless loading raises. */
  function AttemptSpec(fs: FS, a: Attempt): (o: Outcome)
    ensures o.result.Ok? && o.result.value.Loaded? <==> HasStoredIndex(fs) && !a.loadFails
    ensures HasStoredIndex(fs) && !a.loadFails ==> o == Outcome(fs, Ok(Loaded(fs.storage)))
    ensures !HasStoredIndex(fs) || a.loadFails ==> o == CreateSpec(fs, a)
    ensures o.result.Err? ==> o.fs.storageExists && o.fs.storage == map[]
  {
    if HasStoredIndex(fs) && !a.loadFails then Outcome(fs, Ok(Loaded(fs.storage)))
    else CreateSpec(fs, a)
  }

  function AttemptStep(faults: nat -> Attempt): (FS, nat) -> Outcome {
    (fs: FS, i: nat) => AttemptSpec(fs, faults(i))
  }

  /**
   * A failed attempt leaves the storage directory empty, so under the retry
   * only the first attempt can load a stored index; later ones rebuild.
   */
  lemma {:induction false} OnlyFirstAttemptLoads(fs: FS, faults: nat -> Attempt)
    ensures var o := Retry(fs, AttemptStep(faults));
      o.result.Ok? && o.result.value.Loaded? ==> HasStoredIndex(fs) && !faults(0).loadFails && o == Outcome(fs, Ok(Loaded(fs.storage)))
  {
    var step := AttemptStep(faults);
    var o := Retry(fs, step);
    RetryOutcome(fs, step, 0);
    assert AttemptDisk(fs, step, 0) == fs;
    if o.result.Ok? {
      var j :| 0 <= j < MaxAttempts && o == step(AttemptDisk(fs, step, j), j) &&
               forall k :: 0 <= k < j ==> AttemptFails(fs, step, k);
      var d := AttemptDisk(fs, step, j);
      assert o == AttemptSpec(d, faults(j));
      if j > 0 {
        var prev := AttemptDisk(fs, step, j - 1);
        assert AttemptFails(fs, step, j - 1);
        assert step(prev, j - 1) == AttemptSpec(prev, faults(j - 1));
        assert d == AttemptSpec(prev, faults(j - 1)).fs;
        assert !HasStoredIndex(d);
      }
    }
  }

  class IndexManager {
    var index: Option<Index>
    const disk: Disk

    constructor(disk: Disk)
      ensures this.disk == disk && index.None?
    {
      this.disk := disk;
      index := None;
    }

    /** The body of `load_or_create_index`, one attempt. */
    method LoadOrCreateOnce(a: Attempt) returns (r: Result<Index, IndexError>)
      modifies disk
      ensures Outcome(disk.State(), r) == AttemptSpec(old(disk.State()), a)
    {
      if disk.storageExists && disk.storage != map[] {
        if !a.loadFails {
          return Ok(Loaded(disk.storage));
        }
      }
      ClearOrCreateStorage(disk);
      var pdfs := CollectRequired(disk, SourceFiles);
      if pdfs.Err? {
        return Err(pdfs.error);
      }
      // The count check that follows in the source always passes.
      assert |pdfs.value| == |SourceFiles|;
      r := BuildAndPersistIndex(disk, a, pdfs.value);
    }

    /** `load_or_create_index` under `@retry`: attempt `i` raises as `faults(i)` says. */
    method LoadOrCreateIndex(faults: nat -> Attempt) returns (r: Result<Index, IndexError>)
      modifies disk
      ensures Outcome(disk.State(), r) == Retry(old(disk.State()), AttemptStep(faults))
    {
      var i: nat := 0;
      while true
        invariant i < MaxAttempts
        invariant Retry(old(disk.State()), AttemptStep(faults)) == RetryFrom(disk.State(), AttemptStep(faults), i)
        decreases MaxAttempts - i
      {
        r := LoadOrCreateOnce(faults(i));
        if r.Ok? {
          return;
        }
        if i + 1 == MaxAttempts {
          return Err(RetryError(r.error));
        }
        i := i + 1;
      }
    }
  }

  /** `IndexManager()`: the constructor loads or creates the index, or raises. */
  method NewIndexManager(disk: Disk, faults: nat -> Attempt) returns (r: Result<IndexManager, IndexError>)
    modifies disk
    ensures var o := Retry(old(disk.State()), AttemptStep(faults));
      && disk.State() == o.fs
      && (r.Ok? <==> o.result.Ok?)
      && (r.Ok? ==> fresh(r.value) && r.value.disk == disk && r.value.index == Some(o.result.value))
      && (r.Err? ==> r.error == o.result.error)
  {
    var m := new IndexManager(disk);
    var idx := m.LoadOrCreateIndex(faults);
    if idx.Err? {
      return Err(idx.error);
    }
    m.index := Some(idx.value);
    return Ok(m);
  }
}
