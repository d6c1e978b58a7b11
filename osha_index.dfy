/**
 * The OSHA index: always cleared and rebuilt from both required PDFs; a
 * missing one raises.
 */
module OshaIndex {
  import opened Outcomes
  import opened Storage

  const SourceFiles: seq<string> := ["AIZ 10K - 2023.pdf", "AIZ 10K - 2024.pdf"]

  /** One call of `load_or_create_index`. */
  function AttemptSpec(fs: FS, a: Attempt): (o: Outcome)
    ensures o.fs.storageExists && o.fs.data == fs.data
    ensures o.result.Ok? <==> SourceFiles[0] in fs.data && SourceFiles[1] in fs.data && !a.readFails && !a.buildFails && !a.persistFails
    ensures SourceFiles[0] !in fs.data ==> o.result == Err(FileNotFound(SourceFiles[0]))
    ensures SourceFiles[0] in fs.data && SourceFiles[1] !in fs.data ==> o.result == Err(FileNotFound(SourceFiles[1]))
    ensures o.result.Ok? ==> o.result.value == Built(SourceFiles) && o.fs.storage == a.written
    ensures o.result.Err? ==> o.fs.storage == map[]
  {
    var cleared := Cleared(fs);
    match Required(SourceFiles, fs.data)
    case Err(e) => Outcome(cleared, Err(e))
    case Ok(pdfs) => BuildAndPersist(cleared, a, pdfs)
  }

  function AttemptStep(faults: nat -> Attempt): (FS, nat) -> Outcome {
    (fs: FS, i: nat) => AttemptSpec(fs, faults(i))
  }

  /**
   * A missing report fails every attempt the same way, so the retried call
   * raises `RetryError` wrapping `FileNotFoundError` for it.
   */
  lemma {:induction false} MissingFileFailsRetry(fs: FS, faults: nat -> Attempt)
    requires SourceFiles[0] !in fs.data
    ensures Retry(fs, AttemptStep(faults)).result == Err(RetryError(FileNotFound(SourceFiles[0])))
  {
    var step := AttemptStep(faults);
    var o0 := step(fs, 0);
    assert o0 == AttemptSpec(fs, faults(0));
    var o1 := step(o0.fs, 1);
    assert o1 == AttemptSpec(o0.fs, faults(1));
    var o2 := step(o1.fs, 2);
    assert o2 == AttemptSpec(o1.fs, faults(2));
  }

  class IndexManager {
    var index: Option<Index>
    const disk: Disk

    constructor(disk: Disk)
      ensures this.disk == disk && index.None?
    {
      this.disk := disk;
      index := None;
    }

    /** The body of `load_or_create_index`, one attempt. */
    method LoadOrCreateOnce(a: Attempt) returns (r: Result<Index, IndexError>)
      modifies disk
      ensures Outcome(disk.State(), r) == AttemptSpec(old(disk.State()), a)
    {
      ClearOrCreateStorage(disk);
      var pdfs := CollectRequired(disk, SourceFiles);
      if pdfs.Err? {
        return Err(pdfs.error);
      }
      // The `len(pdf_files) == 2` check that follows in the source always passes.
      assert |pdfs.value| == 2;
      r := BuildAndPersistIndex(disk, a, pdfs.value);
    }

    /** `load_or_create_index` under `@retry`: attempt `i` raises as `faults(i)` says. */
    method LoadOrCreateIndex(faults: nat -> Attempt) returns (r: Result<Index, IndexError>)
      modifies disk
      ensures Outcome(disk.State(), r) == Retry(old(disk.State()), AttemptStep(faults))
    {
      var i: nat := 0;
      while true
        invariant i < MaxAttempts
        invariant Retry(old(disk.State()), AttemptStep(faults)) == RetryFrom(disk.State(), AttemptStep(faults), i)
        decreases MaxAttempts - i
      {
        r := LoadOrCreateOnce(faults(i));
        if r.Ok? {
          return;
        }
        if i + 1 == MaxAttempts {
          return Err(RetryError(r.error));
        }
        i := i + 1;
      }
    }
  }

  /** `IndexManager()`: the constructor creates the index, or raises. */
  method NewIndexManager(disk: Disk, faults: nat -> Attempt) returns (r: Result<IndexManager, IndexError>)
    modifies disk
    ensures var o := Retry(old(disk.State()), AttemptStep(faults));
      && disk.State() == o.fs
      && (r.Ok? <==> o.result.Ok?)
      && (r.Ok? ==> fresh(r.value) && r.value.disk == disk && r.value.index == Some(o.result.value))
      && (r.Err? ==> r.error == o.result.error)
  {
    var m := new IndexManager(disk);
    var idx := m.LoadOrCreateIndex(faults);
    if idx.Err? {
      return Err(idx.error);
    }
    m.index := Some(idx.value);
    return Ok(m);
  }
}
