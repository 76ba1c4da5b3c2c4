/**
 * The persisted snapshot of the three stores and the rule that merges the
 * snapshot read from the shared state file with the one held in memory.
 */
module StateSync {
  import opened Base

  /**
   * The state file's document: request counts, bot verdicts and solved
   * challenges by key, plus a `Memory` map the merge carries along untouched.
   */
  datatype State = State(
    rate: map<string, Uint>,
    bots: map<string, bool>,
    verified: map<string, bool>,
    memory: map<string, nat>)

  const EmptyState := State(map[], map[], map[], map[])

  /** The snapshot holds no count, no verdict and no solved challenge. */
  predicate IsEmpty(s: State)
  {
    |s.rate| == 0 && |s.bots| == 0 && |s.verified| == 0
  }

  /** Per key, the larger of the two counts; a key present on one side only keeps its count. */
  function MaxMerge(file: map<string, Uint>, mem: map<string, Uint>): (r: map<string, Uint>)
    ensures r.Keys == file.Keys + mem.Keys
    ensures forall k :: k in file ==> r[k] >= file[k]
    ensures forall k :: k in mem ==> r[k] >= mem[k]
    ensures forall k :: k in r ==> (k in file && r[k] == file[k]) || (k in mem && r[k] == mem[k])
  {
    map k | k in file.Keys + mem.Keys ::
      if k in file && k in mem then Max(file[k], mem[k]) as Uint
      else if k in mem then mem[k] else file[k]
  }

  /** The union of the keys; where both sides hold a key, memory's value is kept. */
  function MemoryWins<V>(file: map<string, V>, mem: map<string, V>): (r: map<string, V>)
    ensures r.Keys == file.Keys + mem.Keys
    ensures forall k :: k in mem ==> r[k] == mem[k]
    ensures forall k :: k in file && k !in mem ==> r[k] == file[k]
  {
    file + mem
  }

  /** The reconciled snapshot, with memory's snapshot as the base. */
  function Reconciled(file: State, mem: State): State
  {
    State(MaxMerge(file.rate, mem.rate), MemoryWins(file.bots, mem.bots), MemoryWins(file.verified, mem.verified), mem.memory)
  }

  /**
   * `reconcileStates`: starts from memory's snapshot and folds every entry
   * of the file's snapshot into it, map by map.
   */
  method ReconcileStates(fileState: State, memoryState: State) returns (r: State)
    ensures r == Reconciled(fileState, memoryState)
  {
    var rate := memoryState.rate;
    var todo := fileState.rate.Keys;
    while todo != {}
      invariant todo <= fileState.rate.Keys
      invariant rate.Keys == memoryState.rate.Keys + (fileState.rate.Keys - todo)
      invariant forall k :: k in rate && k in todo ==> rate[k] == memoryState.rate[k]
      invariant forall k :: k in rate && k !in todo ==>
                  rate[k] == (if k in memoryState.rate && k in fileState.rate then Max(fileState.rate[k], memoryState.rate[k])
                              else if k in memoryState.rate then memoryState.rate[k] else fileState.rate[k])
      decreases todo
    {
      var ip :| ip in todo;
      var fileRate := fileState.rate[ip];
      if ip in rate {
        if fileRate > rate[ip] {
          rate := rate[ip := fileRate];
        }
      } else {
        rate := rate[ip := fileRate];
      }
      todo := todo - {ip};
    }
    var bots := FoldMissing(memoryState.bots, fileState.bots);
    var verified := FoldMissing(memoryState.verified, fileState.verified);
    assert rate == MaxMerge(fileState.rate, memoryState.rate);
    r := State(rate, bots, verified, memoryState.memory);
  }

  /** Copies every entry of `file` whose key `base` lacks into `base`. */
  method FoldMissing<V>(base: map<string, V>, file: map<string, V>) returns (r: map<string, V>)
    ensures r == MemoryWins(file, base)
  {
    r := base;
    var todo := file.Keys;
    while todo != {}
      invariant todo <= file.Keys
      invariant r.Keys == base.Keys + (file.Keys - todo)
      invariant forall k :: k in base ==> r[k] == base[k]
      invariant forall k :: k in r && k !in base ==> r[k] == file[k]
      decreases todo
    {
      var ip :| ip in todo;
      if ip !in r {
        r := r[ip := file[ip]];
      }
      todo := todo - {ip};
    }
  }

  /** No count is lost: every key of either side survives with at least its count. */
  lemma ReconcileNeverUndercounts(file: State, mem: State)
    ensures forall k :: k in file.rate ==> k in Reconciled(file, mem).rate && Reconciled(file, mem).rate[k] >= file.rate[k]
    ensures forall k :: k in mem.rate ==> k in Reconciled(file, mem).rate && Reconciled(file, mem).rate[k] >= mem.rate[k]
  {
  }

  /** The count merge does not depend on which side is the file. */
  lemma {:induction false} RateMergeCommutes(a: map<string, Uint>, b: map<string, Uint>)
    ensures MaxMerge(a, b) == MaxMerge(b, a)
  {
    var x, y := MaxMerge(a, b), MaxMerge(b, a);
    assert x.Keys == y.Keys;
    forall k | k in x ensures x[k] == y[k] {
      if k in a && k in b {
        assert x[k] >= a[k] && x[k] >= b[k] && y[k] >= a[k] && y[k] >= b[k];
      }
    }
  }

  /** Bots and solved challenges end up with the same keys whichever side is the file. */
  lemma UnionKeysCommute(file: State, mem: State)
    ensures Reconciled(file, mem).bots.Keys == Reconciled(mem, file).bots.Keys
    ensures Reconciled(file, mem).verified.Keys == Reconciled(mem, file).verified.Keys
  {
  }

  /** Merging the same file again changes nothing. */
  lemma {:induction false} ReconcileIdempotent(file: State, mem: State)
    ensures Reconciled(file, Reconciled(file, mem)) == Reconciled(file, mem)
  {
    var once := Reconciled(file, mem);
    var twice := Reconciled(file, once);
    var x, y := twice.rate, once.rate;
    assert x.Keys == y.Keys;
    forall k | k in x ensures x[k] == y[k] {
      assert y[k] >= x[k] || k !in file.rate;
    }
    assert twice.bots == once.bots;
    assert twice.verified == once.verified;
  }

  /** An empty file snapshot leaves memory's snapshot as it is. */
  lemma ReconcileWithEmptyFile(mem: State)
    ensures Reconciled(EmptyState, mem) == mem
  {
    assert MaxMerge(map[], mem.rate) == mem.rate;
    assert MemoryWins(map[], mem.bots) == mem.bots;
    assert MemoryWins(map[], mem.verified) == mem.verified;
  }
}
