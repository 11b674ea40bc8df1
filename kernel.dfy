/**
  What the kernel emitted by `CURAND_Base.c_code` does on one execution of a CURAND node:
  validate the size vector, compute the sample's dimensions and element count, decide
  whether the sample buffer can be reused, dispatch on the generator value, and draw.

  Generator values are `Unallocated` (the shared `False` placeholder) or `Allocated(id)`,
  a handle on context `id` of an arena of CURAND contexts. The native calls are abstract:
  `Native` says which of them succeed, and a draw is recorded on its context as a
  `DrawCall` (the class and the number of values), not as the values themselves.
*/
module CurandKernel {
  import opened Errors
  import opened CurandOps

  datatype GenValue = Unallocated | Allocated(id: nat)

  /** One call to `curandGenerateUniform` or `curandGenerateNormal` (mean 0, deviation 1) for count values. */
  datatype DrawCall = DrawCall(kind: Kind, count: int)

  /** A CURAND context: the seed it was given (None while unseeded) and the draws made on it. */
  datatype Context = Context(seed: Option<int>, draws: seq<DrawCall>)

  /** The sample output slot: empty, holding something that is not a device array, or a device buffer. */
  datatype SampleSlot = NoSample | ForeignObject | Buffer(dims: seq<int>, serial: nat)

  /** The host array passed as size: its shape, whether its dtype is int32, and its elements in order. */
  datatype SizeArray = SizeArray(shape: seq<nat>, isInt32: bool, elems: seq<int>)

  /** Which of the native calls succeed on this execution. */
  datatype Native = Native(sampleAllocOk: bool, createOk: bool, seedOk: bool, drawOk: bool)

  /** Everything one execution reads and writes: the context arena and the node's two output slots. */
  datatype DeviceState = DeviceState(contexts: seq<Context>, buffersAllocated: nat,
                                     oSample: SampleSlot, oGenerator: Option<GenValue>)

  /**
    The product of the dimensions, multiplied left to right as the kernel does: a zero
    dimension makes it zero, and dimensions that are not negative give a product that is not.
  */
  function Product(s: seq<int>): (p: int)
    ensures (exists i :: 0 <= i < |s| && s[i] == 0) ==> p == 0
    ensures (forall i :: 0 <= i < |s| ==> s[i] >= 0) ==> p >= 0
  {
    if s == [] then 1 else Product(s[..|s| - 1]) * s[|s| - 1]
  }

  /** An array holds one element per cell of its shape. */
  predicate WellFormedArray(a: SizeArray) {
    |a.elems| == Product(a.shape)
  }

  /** The size checks, in the kernel's order: rank 1, then length ndim, then dtype int32. */
  function ValidateSize(size: SizeArray, ndim: nat): (r: Outcome)
    ensures r.Pass? <==> |size.shape| == 1 && size.shape[0] == ndim && size.isInt32
    ensures |size.shape| != 1 ==> r == Fail(SizeNotVector)
    ensures |size.shape| == 1 && size.shape[0] != ndim ==> r == Fail(SizeLengthMismatch(ndim, size.shape[0]))
    ensures |size.shape| == 1 && size.shape[0] == ndim && !size.isInt32 ==> r == Fail(SizeNotInt32)
  {
    if |size.shape| != 1 then Fail(SizeNotVector)
    else if size.shape[0] != ndim then Fail(SizeLengthMismatch(ndim, size.shape[0]))
    else if !size.isInt32 then Fail(SizeNotInt32)
    else Pass
  }

  /**
    The sample must be reallocated: there is none, it is not a device array, its rank differs,
    or some dimension does. So the existing buffer is reused exactly when it is a device buffer
    of the requested dimensions.
  */
  predicate NeedsNewSample(slot: SampleSlot, odims: seq<int>): (needs: bool)
    ensures needs <==> !(slot.Buffer? && slot.dims == odims)
  {
    match slot
    case NoSample => true
    case ForeignObject => true
    case Buffer(dims, _) => |dims| != |odims| || exists j :: 0 <= j < |odims| && dims[j] != odims[j]
  }

  /** A rank-1 array of length n holds n elements. */
  lemma VectorElems(size: SizeArray)
    requires WellFormedArray(size) && |size.shape| == 1
    ensures |size.elems| == size.shape[0]
  {
    var s: seq<int> := size.shape;
    assert s[..|s| - 1] == [];
    assert Product(s) == s[0];
  }

  /**
    The kernel's loop over the ndim entries of the size vector: it reads the dimensions,
    multiplies them into n_elements, and folds the dimension comparison into must_alloc_sample.
  */
  method ComputeDims(size: SizeArray, ndim: nat, slot: SampleSlot)
      returns (odims: seq<int>, nElements: int, mustAlloc: bool)
    requires WellFormedArray(size) && ValidateSize(size, ndim).Pass?
    ensures odims == size.elems && |odims| == ndim
    ensures nElements == Product(odims)
    ensures mustAlloc == NeedsNewSample(slot, odims)
  {
    VectorElems(size);
    var mustAlloc0 := slot.NoSample? || slot.ForeignObject? || |slot.dims| != ndim;
    mustAlloc := mustAlloc0;
    odims, nElements := [], 1;
    var i := 0;
    while i < ndim
      invariant 0 <= i <= ndim
      invariant odims == size.elems[..i]
      invariant nElements == Product(odims)
      invariant mustAlloc == (mustAlloc0 || exists j :: 0 <= j < i && slot.dims[j] != odims[j])
    {
      var d := size.elems[i];
      assert (odims + [d])[..i] == odims;
      odims := odims + [d];
      nElements := nElements * d;
      mustAlloc := mustAlloc || slot.dims[i] != d;
      i := i + 1;
    }
    assert size.elems[..ndim] == size.elems;
  }

  /** A live generator value is the placeholder or a handle on a seeded context of the arena. */
  predicate Live(g: GenValue, contexts: seq<Context>) {
    g.Allocated? ==> g.id < |contexts| && contexts[g.id].seed.Some?
  }

  /** The state invariant: the output generator is live and the sample buffer was allocated earlier. */
  predicate ValidState(s: DeviceState) {
    && (s.oGenerator.Some? ==> Live(s.oGenerator.value, s.contexts))
    && (s.oSample.Buffer? ==> s.oSample.serial < s.buffersAllocated)
  }

  /** The number of values of CURAND's `unsigned long long` seed. */
  const SeedModulus: int := 0x1_0000_0000_0000_0000

  /**
    The seed as `curandSetPseudoRandomGeneratorSeed` receives it: the op's seed is pasted into
    the C source as a literal and converted to `unsigned long long`, that is, reduced modulo 2^64,
    so a negative seed -k arrives as 2^64 - k.
  */
  function CurandSeed(seed: int): (u: int)
    ensures 0 <= u < SeedModulus
    ensures (u - seed) % SeedModulus == 0
    ensures 0 <= seed < SeedModulus ==> u == seed
    ensures -SeedModulus <= seed < 0 ==> u == seed + SeedModulus
  {
    seed % SeedModulus
  }

  /**
    The draw on context id, after the output generator slot is set: on success one call for n
    values of the given class is appended to that context's draws; nothing else changes.
  */
  function Generate(kind: Kind, n: int, id: nat, native: Native, s: DeviceState): (r: (DeviceState, Outcome))
    requires id < |s.contexts|
    ensures r.1 == (if native.drawOk then Pass else Fail(GenerationFailed))
    ensures r.0.buffersAllocated == s.buffersAllocated && r.0.oSample == s.oSample && r.0.oGenerator == s.oGenerator
    ensures |r.0.contexts| == |s.contexts|
    ensures forall k :: 0 <= k < |s.contexts| && k != id ==> r.0.contexts[k] == s.contexts[k]
    ensures r.0.contexts[id].seed == s.contexts[id].seed
    ensures r.0.contexts[id].draws == s.contexts[id].draws + (if native.drawOk then [DrawCall(kind, n)] else [])
  {
    if !native.drawOk then (s, Fail(GenerationFailed))
    else
      var c := s.contexts[id];
      (s.(contexts := s.contexts[id := c.(draws := c.draws + [DrawCall(kind, n)])]), Pass)
  }

  /**
    One execution of the kernel for op on input generator iGen and size vector size. It adds
    at most one context to the arena and reseeds none of the earlier ones; when it succeeds,
    the sample slot holds a buffer of the requested dimensions and the output generator is a
    live handle.
  */
  function Step(op: Op, iGen: GenValue, size: SizeArray, native: Native, s: DeviceState): (r: (DeviceState, Outcome))
    requires WellFormedArray(size) && Live(iGen, s.contexts)
    ensures |s.contexts| <= |r.0.contexts| <= |s.contexts| + 1
    ensures forall k :: 0 <= k < |s.contexts| ==> r.0.contexts[k].seed == s.contexts[k].seed
    ensures r.1.Pass? ==> r.0.oSample.Buffer? && r.0.oSample.dims == size.elems
    ensures r.1.Pass? ==> r.0.oGenerator.Some? && r.0.oGenerator.value.Allocated?
                          && Live(r.0.oGenerator.value, r.0.contexts)
  {
    var v := ValidateSize(size, op.outputType.Ndim());
    if v.Fail? then (s, v)
    else
      var odims := size.elems;
      var n := Product(odims);
      var needs := NeedsNewSample(s.oSample, odims);
      if needs && !native.sampleAllocOk then (s.(oSample := NoSample), Fail(SampleAllocationFailed))
      else
        var s1 := if needs then s.(oSample := Buffer(odims, s.buffersAllocated),
                                   buffersAllocated := s.buffersAllocated + 1)
                  else s;
        match iGen
        case Unallocated =>
          if !native.createOk then (s1, Fail(GeneratorInitFailed))
          else if !native.seedOk then (s1.(contexts := s1.contexts + [Context(None, [])]), Fail(GeneratorSeedFailed))
          else
            var id := |s1.contexts|;
            Generate(op.kind, n, id, native,
                     s1.(contexts := s1.contexts + [Context(Some(CurandSeed(op.seed)), [])], oGenerator := Some(Allocated(id))))
        case Allocated(id) =>
          if op.destructive then Generate(op.kind, n, id, native, s1.(oGenerator := Some(iGen)))
          else (s1, Fail(NonDestructiveGeneration))
  }

  /** A failing size check returns that failure before the sample or the generator is touched. */
  lemma StepValidatesFirst(op: Op, iGen: GenValue, size: SizeArray, native: Native, s: DeviceState)
    requires WellFormedArray(size) && Live(iGen, s.contexts)
    requires ValidateSize(size, op.outputType.Ndim()).Fail?
    ensures Step(op, iGen, size, native, s) == (s, ValidateSize(size, op.outputType.Ndim()))
  {
  }

  /**
    Once the size is valid and the sample is in place, the sample slot holds a buffer of the
    requested dimensions, and it is the old buffer exactly when that one already fit.
  */
  lemma StepSample(op: Op, iGen: GenValue, size: SizeArray, native: Native, s: DeviceState)
    requires WellFormedArray(size) && Live(iGen, s.contexts)
    requires ValidateSize(size, op.outputType.Ndim()).Pass?
    ensures var (s', r) := Step(op, iGen, size, native, s);
            if NeedsNewSample(s.oSample, size.elems) && !native.sampleAllocOk then
              r == Fail(SampleAllocationFailed) && s' == s.(oSample := NoSample)
            else
              && s'.oSample.Buffer? && s'.oSample.dims == size.elems
              && (s'.oSample == s.oSample <==> (s.oSample.Buffer? && s.oSample.dims == size.elems))
  {
  }

  /** The sample can be produced: the size is valid and the buffer is in place. */
  predicate SampleReady(op: Op, size: SizeArray, native: Native, s: DeviceState) {
    ValidateSize(size, op.outputType.Ndim()).Pass? && (NeedsNewSample(s.oSample, size.elems) ==> native.sampleAllocOk)
  }

  /**
    The placeholder allocates a fresh context, seeded with the op's seed, and the output is a handle
    on it; every earlier context is kept. If creation or seeding fails, no handle is produced.
  */
  lemma StepAllocates(op: Op, size: SizeArray, native: Native, s: DeviceState)
    requires WellFormedArray(size) && SampleReady(op, size, native, s)
    ensures var (s', r) := Step(op, Unallocated, size, native, s);
            && (!native.createOk ==> r == Fail(GeneratorInitFailed) && s'.contexts == s.contexts
                                     && s'.oGenerator == s.oGenerator)
            && (native.createOk && !native.seedOk ==>
                  r == Fail(GeneratorSeedFailed) && s'.oGenerator == s.oGenerator
                  && s'.contexts == s.contexts + [Context(None, [])])
            && (native.createOk && native.seedOk ==>
                  && s'.oGenerator == Some(Allocated(|s.contexts|))
                  && |s'.contexts| == |s.contexts| + 1
                  && s'.contexts[..|s.contexts|] == s.contexts
                  && s'.contexts[|s.contexts|].seed == Some(CurandSeed(op.seed))
                  && s'.contexts[|s.contexts|].draws ==
                       (if native.drawOk then [DrawCall(op.kind, Product(size.elems))] else [])
                  && r == (if native.drawOk then Pass else Fail(GenerationFailed)))
  {
    var s1 := if NeedsNewSample(s.oSample, size.elems)
              then s.(oSample := Buffer(size.elems, s.buffersAllocated), buffersAllocated := s.buffersAllocated + 1)
              else s;
    if native.createOk && native.seedOk {
      var s2 := s1.(contexts := s1.contexts + [Context(Some(CurandSeed(op.seed)), [])], oGenerator := Some(Allocated(|s.contexts|)));
      assert s2.contexts[..|s.contexts|] == s.contexts;
    }
  }

  /**
    A destructive op on a live handle passes the same handle through: no context is created,
    and only the handle's own context changes, by the one draw.
  */
  lemma StepDestructivePassesHandle(op: Op, id: nat, size: SizeArray, native: Native, s: DeviceState)
    requires WellFormedArray(size) && Live(Allocated(id), s.contexts)
    requires SampleReady(op, size, native, s) && op.destructive
    ensures var (s', r) := Step(op, Allocated(id), size, native, s);
            && s'.oGenerator == Some(Allocated(id))
            && |s'.contexts| == |s.contexts|
            && (forall k :: 0 <= k < |s.contexts| && k != id ==> s'.contexts[k] == s.contexts[k])
            && s'.contexts[id].seed == s.contexts[id].seed
            && s'.contexts[id].draws ==
                 s.contexts[id].draws + (if native.drawOk then [DrawCall(op.kind, Product(size.elems))] else [])
            && r == (if native.drawOk then Pass else Fail(GenerationFailed))
  {
  }

  /** A non-destructive op on a live handle fails, creating no context and drawing nothing. */
  lemma StepNonDestructiveFails(op: Op, id: nat, size: SizeArray, native: Native, s: DeviceState)
    requires WellFormedArray(size) && Live(Allocated(id), s.contexts)
    requires SampleReady(op, size, native, s) && !op.destructive
    ensures var (s', r) := Step(op, Allocated(id), size, native, s);
            r == Fail(NonDestructiveGeneration) && s'.contexts == s.contexts && s'.oGenerator == s.oGenerator
  {
  }

  /** A step keeps the state invariant, never shrinks the arena and never reseeds a context. */
  lemma StepPreservesValid(op: Op, iGen: GenValue, size: SizeArray, native: Native, s: DeviceState)
    requires WellFormedArray(size) && Live(iGen, s.contexts) && ValidState(s)
    ensures var (s', _) := Step(op, iGen, size, native, s);
            && ValidState(s')
            && |s.contexts| <= |s'.contexts|
            && (forall k :: 0 <= k < |s.contexts| ==> s'.contexts[k].seed == s.contexts[k].seed)
  {
  }

  /**
    Threading the generator through two executions: the first, from the placeholder, allocates a
    handle seeded with the op's seed; feeding that handle back into the same non-destructive op
    fails, while its destructive twin reuses the handle and draws on the same context again.
  */
  lemma ThreadedExecutions(op: Op, size: SizeArray, s: DeviceState)
    requires WellFormedArray(size) && !op.destructive
    requires ValidateSize(size, op.outputType.Ndim()).Pass?
    ensures var ok := Native(true, true, true, true);
            var (s1, r1) := Step(op, Unallocated, size, ok, s);
            && r1 == Pass && s1.oGenerator == Some(Allocated(|s.contexts|))
            && var handle := s1.oGenerator.value;
            && Live(handle, s1.contexts)
            && Step(op, handle, size, ok, s1).1 == Fail(NonDestructiveGeneration)
            && var (s2, r2) := Step(AsDestructive(op), handle, size, ok, s1);
            && r2 == Pass && s2.oGenerator == Some(handle)
            && |s2.contexts| == |s1.contexts|
            && s2.contexts[handle.id] == Context(Some(CurandSeed(op.seed)), [DrawCall(op.kind, Product(size.elems)),
                                                                 DrawCall(op.kind, Product(size.elems))])
  {
    var ok := Native(true, true, true, true);
    StepAllocates(op, size, ok, s);
    var (s1, r1) := Step(op, Unallocated, size, ok, s);
    StepSample(op, Unallocated, size, ok, s);
    StepNonDestructiveFails(op, |s.contexts|, size, ok, s1);
    StepDestructivePassesHandle(AsDestructive(op), |s.contexts|, size, ok, s1);
  }

  /** The storage one CURAND node executes against: the context arena and its two output slots. */
  class KernelState {
    var contexts: seq<Context>
    var buffersAllocated: nat
    var oSample: SampleSlot
    var oGenerator: Option<GenValue>

    function State(): DeviceState
      reads this
    {
      DeviceState(contexts, buffersAllocated, oSample, oGenerator)
    }

    ghost predicate Valid()
      reads this
    {
      ValidState(State())
    }

    /** Storage before the first execution: no contexts, both output slots empty. */
    constructor ()
      ensures Valid() && State() == DeviceState([], 0, NoSample, None)
    {
      contexts, buffersAllocated := [], 0;
      oSample, oGenerator := NoSample, None;
    }

    /** The generated kernel, run once: it updates the slots and the arena as Step says. */
    method Perform(op: Op, iGenerator: GenValue, size: SizeArray, native: Native) returns (r: Outcome)
      requires Valid() && WellFormedArray(size) && Live(iGenerator, contexts)
      modifies this
      ensures Valid()
      ensures (State(), r) == Step(op, iGenerator, size, native, old(State()))
    {
      StepPreservesValid(op, iGenerator, size, native, State());
      var ndim := op.outputType.Ndim();
      r := ValidateSize(size, ndim);
      if r.Fail? {
        return;
      }
      var odims, nElements, mustAlloc := ComputeDims(size, ndim, oSample);
      if mustAlloc {
        if !native.sampleAllocOk {
          oSample := NoSample;
          return Fail(SampleAllocationFailed);
        }
        oSample := Buffer(odims, buffersAllocated);
        buffersAllocated := buffersAllocated + 1;
      }
      var id: nat;
      if iGenerator.Unallocated? {
        if !native.createOk {
          return Fail(GeneratorInitFailed);
        }
        // the context is created; seeding it may still fail, and then it stays unseeded
        id := |contexts|;
        if !native.seedOk {
          contexts := contexts + [Context(None, [])];
          return Fail(GeneratorSeedFailed);
        }
        contexts := contexts + [Context(Some(CurandSeed(op.seed)), [])];
        oGenerator := Some(Allocated(id));
      } else if op.destructive {
        id := iGenerator.id;
        oGenerator := Some(iGenerator);
      } else {
        return Fail(NonDestructiveGeneration);
      }
      if !native.drawOk {
        return Fail(GenerationFailed);
      }
      contexts := contexts[id := contexts[id].(draws := contexts[id].draws + [DrawCall(op.kind, nElements)])];
    }
  }
}
