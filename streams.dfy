/**
  `CURAND_RandomStreams`: the session object that hands out seeds, builds one sampling
  op per request and records the (generator, new generator) update pair of each.
*/
module RandomStreams {
  import opened Errors
  import opened CurandOps

  /** The seeds start, start + 1, ..., start + n - 1, in the order they are handed out. */
  function SeedsFrom(start: int, n: nat): (seeds: seq<int>)
    ensures |seeds| == n
    ensures n > 0 ==> seeds[n - 1] == start + n - 1
  {
    if n == 0 then [] else SeedsFrom(start, n - 1) + [start + n - 1]
  }

  /** The k-th seed handed out is start + k. */
  lemma {:induction false} SeedsFromAt(start: int, n: nat)
    ensures forall k :: 0 <= k < n ==> SeedsFrom(start, n)[k] == start + k
  {
    if n > 0 {
      SeedsFromAt(start, n - 1);
    }
  }

  /** Seeds are handed out in strictly increasing order, so none is handed out twice. */
  lemma SeedsStrictlyIncreasing(start: int, n: nat)
    ensures forall j, k :: 0 <= j < k < |SeedsFrom(start, n)| ==> SeedsFrom(start, n)[j] < SeedsFrom(start, n)[k]
    ensures start + n !in SeedsFrom(start, n)
  {
    SeedsFromAt(start, n);
  }

  /** The shape of the `size` argument: a tuple of items, a symbolic variable of some rank, or anything else. */
  datatype SizeItem = IntItem(n: int) | VarItem(v: Var) | OtherItem
  datatype SizeShape = TupleSize(items: seq<SizeItem>) | VariableSize(ndim: nat) | OtherSize

  /**
    The `size` argument as the stream sees it: its shape, the variable the framework's
    `cast(as_tensor_variable(size), 'int32')` returns for it, and what `get_vector_length`
    says of the tensor variable.
  */
  datatype SizeArg = SizeArg(shape: SizeShape, int32Tensor: Var, vectorLength: Option<nat>)

  /** The stream's assertion on `size`: a tuple of ints and variables, or a rank-1 variable. */
  predicate SizeAccepted(s: SizeShape): (ok: bool)
    ensures s.TupleSize? ==> (ok <==> forall i :: 0 <= i < |s.items| ==> s.items[i].IntItem? || s.items[i].VarItem?)
    ensures s.VariableSize? ==> (ok <==> s.ndim == 1)
    ensures s.OtherSize? ==> !ok
  {
    match s
    case TupleSize(items) => forall i :: 0 <= i < |items| ==> !items[i].OtherItem?
    case VariableSize(ndim) => ndim == 1
    case OtherSize => false
  }

  /** `theano.shared(False)`: a fresh generic shared variable, identified by the framework. */
  function SharedFalse(id: nat): (v: Var)
    ensures v.origin.Leaf? && v.typ == Generic
  {
    Var(Leaf(id), Generic)
  }

  /** The update pair of a non-destructive CURAND node: its generator input and its first output. */
  ghost predicate WellFormedUpdate(p: UpdatePair) {
    && p.updated.origin.Out?
    && p.updated.origin.index == 0
    && p.updated.origin.node.CurandApply?
    && p.updated.origin.node.generator == p.generator
    && !p.updated.origin.node.op.destructive
  }

  /** The seed of the op whose update pair p is. */
  ghost function UpdateSeed(p: UpdatePair): int
    requires WellFormedUpdate(p)
  {
    p.updated.origin.node.op.seed
  }

  /** Every recorded pair is an op's update pair, with a seed in [lo, hi), in strictly increasing seed order. */
  ghost predicate RecordedInOrder(ups: seq<UpdatePair>, lo: int, hi: int) {
    && (forall k :: 0 <= k < |ups| ==> WellFormedUpdate(ups[k]) && lo <= UpdateSeed(ups[k]) < hi)
    && (forall j, k :: 0 <= j < k < |ups| ==> UpdateSeed(ups[j]) < UpdateSeed(ups[k]))
  }

  /** Recorded pairs come from distinct ops, so they update distinct generator values. */
  lemma RecordedTargetsDistinct(ups: seq<UpdatePair>, lo: int, hi: int)
    requires RecordedInOrder(ups, lo, hi)
    ensures forall j, k :: 0 <= j < k < |ups| ==> ups[j].updated != ups[k].updated
  {
  }

  /** Appending the pair of an op seeded with the current counter keeps the log in order. */
  lemma RecordedInOrderAppend(ups: seq<UpdatePair>, lo: int, hi: int, p: UpdatePair)
    requires RecordedInOrder(ups, lo, hi) && lo <= hi
    requires WellFormedUpdate(p) && UpdateSeed(p) == hi
    ensures RecordedInOrder(ups + [p], lo, hi + 1)
  {
  }

  /** The generator of every recorded pair is a shared variable whose id is in ids, and no two pairs share one. */
  ghost predicate DistinctGenerators(ups: seq<UpdatePair>, ids: set<nat>) {
    && (forall k :: 0 <= k < |ups| ==> ups[k].generator.origin.Leaf? && ups[k].generator.origin.id in ids)
    && (forall j, k :: 0 <= j < k < |ups| ==> ups[j].generator != ups[k].generator)
  }

  /**
    Creating a generator with an unused id keeps the log's generators distinct, and so does
    recording the pair of that new generator.
  */
  lemma DistinctGeneratorsAppend(ups: seq<UpdatePair>, ids: set<nat>, id: nat, p: UpdatePair)
    requires DistinctGenerators(ups, ids) && id !in ids && p.generator == SharedFalse(id)
    ensures DistinctGenerators(ups, ids + {id})
    ensures DistinctGenerators(ups + [p], ids + {id})
  {
  }

  /** The ids of the generators of a log. */
  ghost function GeneratorIds(ups: seq<UpdatePair>): set<nat> {
    set k | 0 <= k < |ups| && ups[k].generator.origin.Leaf? :: ups[k].generator.origin.id
  }

  /**
    The bookkeeping common to `uniform` and `normal`, from the counter seed0, log ups0 and set
    gens0 of generator ids before the call to seed1, ups1 and gens1 after it, with result r.
    The size is checked first; once it passes, a fresh shared generator is made and one seed is
    taken before `new_auto_update` runs, and the pair is recorded before the broadcast check,
    so a failure there still consumes the seed, and a broadcast mismatch still leaves the pair
    recorded. On success the result is the raw sample; the affine scaling is left out.
  */
  ghost predicate DrawOutcome(kind: Kind, size: SizeArg, ndim: Option<int>, dtype: string,
                              generatorId: nat, broadcastMismatch: bool,
                              seed0: int, ups0: seq<UpdatePair>, gens0: set<nat>,
                              seed1: int, ups1: seq<UpdatePair>, gens1: set<nat>, r: Result<Var>) {
    && (!SizeAccepted(size.shape) ==>
          r == Err(AssertionError) && seed1 == seed0 && ups1 == ups0 && gens1 == gens0)
    && (SizeAccepted(size.shape) ==>
          var u := NewAutoUpdate(kind, SharedFalse(generatorId), ndim, dtype,
                                 size.int32Tensor, size.vectorLength, seed0);
          && seed1 == seed0 + 1
          && gens1 == gens0 + {generatorId}
          && (u.Err? ==> r == Err(u.error) && ups1 == ups0)
          && (u.Ok? ==> ups1 == ups0 + [u.value.update])
          && (u.Ok? ==> r == if broadcastMismatch then Err(BroadcastMismatch) else Ok(u.value.sample)))
  }

  /** What `__getstate__` hands to the pickler: the four instance fields. */
  datatype StreamState = StreamState(startSeed: int, curSeed: int, hasLostStates: bool, stateUpdates: seq<UpdatePair>)

  class CurandRandomStreams {
    var startSeed: int
    var curSeed: int
    /** True when `stateUpdates` is no longer complete. */
    var hasLostStates: bool
    var stateUpdates: seq<UpdatePair>
    /** The seeds this object's counter has passed, in order. */
    ghost var issued: seq<int>
    /** The ids of the shared generator variables this object has created. */
    ghost var generators: set<nat>

    ghost predicate Valid()
      reads this
    {
      && startSeed <= curSeed
      && issued == SeedsFrom(startSeed, curSeed - startSeed)
      && RecordedInOrder(stateUpdates, startSeed, curSeed)
      && DistinctGenerators(stateUpdates, generators)
    }

    /** `__init__(seed)`. */
    constructor (seed: int)
      ensures Valid()
      ensures startSeed == seed && curSeed == seed && !hasLostStates && stateUpdates == []
      ensures issued == [] && generators == {}
    {
      startSeed, curSeed := seed, seed;
      hasLostStates := false;
      stateUpdates := [];
      issued, generators := [], {};
    }

    /** Unpickling a saved state: the fields are set back from the dictionary. */
    constructor Restore(s: StreamState)
      requires s.startSeed <= s.curSeed && RecordedInOrder(s.stateUpdates, s.startSeed, s.curSeed)
      requires DistinctGenerators(s.stateUpdates, GeneratorIds(s.stateUpdates))
      ensures Valid()
      ensures startSeed == s.startSeed && curSeed == s.curSeed
      ensures hasLostStates == s.hasLostStates && stateUpdates == s.stateUpdates
      ensures generators == GeneratorIds(s.stateUpdates)
    {
      startSeed, curSeed := s.startSeed, s.curSeed;
      hasLostStates := s.hasLostStates;
      stateUpdates := s.stateUpdates;
      issued := SeedsFrom(s.startSeed, s.curSeed - s.startSeed);
      generators := GeneratorIds(s.stateUpdates);
    }

    /** `updates()`: the list of recorded pairs, as a value the caller cannot alias. */
    function Updates(): (u: seq<UpdatePair>)
      reads this
      ensures |u| == |stateUpdates|
      ensures forall k :: 0 <= k < |u| ==> u[k] == stateUpdates[k]
    {
      stateUpdates
    }

    /** `next_seed()`: returns the counter and increments it, so no seed is ever returned twice. */
    method NextSeed() returns (s: int)
      requires Valid()
      modifies this`curSeed, this`issued
      ensures Valid()
      ensures s == old(curSeed) && curSeed == old(curSeed) + 1
      ensures issued == old(issued) + [s]
      ensures forall t :: t in old(issued) ==> t < s
    {
      SeedsFromAt(startSeed, curSeed - startSeed);
      curSeed := curSeed + 1;
      issued := issued + [curSeed - 1];
      s := curSeed - 1;
    }

    /**
      `__getstate__`: a copy of the fields with the update log emptied and the lost-states
      flag raised; the live object is left as it is.
    */
    function GetState(): (st: StreamState)
      reads this
      ensures st.startSeed == startSeed && st.curSeed == curSeed
      ensures st.stateUpdates == [] && st.hasLostStates
    {
      StreamState(startSeed, curSeed, true, [])
    }

    /**
      The bookkeeping common to `uniform` and `normal`; `generatorId` identifies the fresh
      variable `theano.shared(False)` creates, so it is an id this object has not used.
    */
    method Draw(kind: Kind, size: SizeArg, ndim: Option<int>, dtype: string,
                generatorId: nat, broadcastMismatch: bool) returns (r: Result<Var>)
      requires Valid() && generatorId !in generators
      modifies this`curSeed, this`issued, this`stateUpdates, this`generators
      ensures Valid()
      ensures DrawOutcome(kind, size, ndim, dtype, generatorId, broadcastMismatch,
                          old(curSeed), old(stateUpdates), old(generators), curSeed, stateUpdates, generators, r)
    {
      if !SizeAccepted(size.shape) {
        return Err(AssertionError);
      }
      var generator := SharedFalse(generatorId);
      var seed := NextSeed();
      var u := NewAutoUpdate(kind, generator, ndim, dtype, size.int32Tensor, size.vectorLength, seed);
      var pair := if u.Ok? then u.value.update else UpdatePair(generator, generator);
      DistinctGeneratorsAppend(stateUpdates, generators, generatorId, pair);
      generators := generators + {generatorId};
      if u.Err? {
        return Err(u.error);
      }
      RecordedInOrderAppend(stateUpdates, startSeed, seed, u.value.update);
      stateUpdates := stateUpdates + [u.value.update];
      if broadcastMismatch {
        return Err(BroadcastMismatch);
      }
      r := Ok(u.value.sample);
    }

    /** `uniform(size, low, high, ndim, dtype)`, up to the scaling of the raw draw. */
    method Uniform(size: SizeArg, ndim: Option<int>, dtype: string,
                   generatorId: nat, broadcastMismatch: bool) returns (r: Result<Var>)
      requires Valid() && generatorId !in generators
      modifies this`curSeed, this`issued, this`stateUpdates, this`generators
      ensures Valid()
      ensures DrawOutcome(Kind.Uniform, size, ndim, dtype, generatorId, broadcastMismatch,
                          old(curSeed), old(stateUpdates), old(generators), curSeed, stateUpdates, generators, r)
    {
      r := Draw(Kind.Uniform, size, ndim, dtype, generatorId, broadcastMismatch);
    }

    /** `normal(size, avg, std, ndim, dtype)`, up to the scaling of the raw draw. */
    method Normal(size: SizeArg, ndim: Option<int>, dtype: string,
                  generatorId: nat, broadcastMismatch: bool) returns (r: Result<Var>)
      requires Valid() && generatorId !in generators
      modifies this`curSeed, this`issued, this`stateUpdates, this`generators
      ensures Valid()
      ensures DrawOutcome(Kind.Normal, size, ndim, dtype, generatorId, broadcastMismatch,
                          old(curSeed), old(stateUpdates), old(generators), curSeed, stateUpdates, generators, r)
    {
      r := Draw(Kind.Normal, size, ndim, dtype, generatorId, broadcastMismatch);
    }
  }

  /**
    A stream restored from its saved state keeps both seeds, starts with no update pairs and
    says that it lost them; the stream that was saved still holds its own pairs.
  */
  method SaveAndRestore(s: CurandRandomStreams) returns (t: CurandRandomStreams)
    requires s.Valid()
    ensures fresh(t) && t.Valid()
    ensures t.startSeed == s.startSeed && t.curSeed == s.curSeed
    ensures t.stateUpdates == [] && t.hasLostStates && t.generators == {}
    ensures unchanged(s)
  {
    t := new CurandRandomStreams.Restore(s.GetState());
  }
}
