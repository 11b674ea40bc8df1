/**
  The sampling-op descriptor of the CURAND random streams (`CURAND_Base` and its
  two concrete classes) and the small slice of the computation graph it builds:
  variables, apply nodes, and the auto-update record of `new_auto_update`.
*/
module CurandOps {
  import opened Errors

  const Float32: string := "float32"

  /** The concrete op class: `CURAND_Uniform` or `CURAND_Normal`. */
  datatype Kind = Uniform | Normal

  /** The class of a tensor type: a device `CudaNdarrayType`, or a host `TensorType` such as `tensor.fvector`. */
  datatype TypeClass = CudaNdarray | HostTensor

  /**
    A tensor type: its class, element dtype and broadcastable pattern; the rank is the pattern's
    length. Two types are equal when all three agree, as the framework's type equality compares them.
  */
  datatype TensorType = TensorType(typeClass: TypeClass, dtype: string, broadcastable: seq<bool>) {
    function Ndim(): nat { |broadcastable| }
  }

  /** The type of a graph variable: the generic type of a shared `False`, or a tensor type. */
  datatype VarType = Generic | Tensor(tensor: TensorType)

  /** The attributes an op is built from: its class and `(destructive, output_type, seed)`. */
  datatype CurandOp = CurandOp(kind: Kind, outputType: TensorType, seed: int, destructive: bool)

  /** An op object exists only once its constructor's dtype assertion has passed. */
  type Op = op: CurandOp | op.outputType.dtype == Float32
    witness CurandOp(Uniform, TensorType(CudaNdarray, Float32, []), 0, false)

  /** A graph variable: where it comes from, and its type. */
  datatype Var = Var(origin: Origin, typ: VarType)

  /** A variable is a leaf (a shared or input variable, by identity) or output `index` of a node. */
  datatype Origin = Leaf(id: nat) | Out(node: Node, index: nat)

  /** An apply node: a CURAND op over its (generator, size) inputs, or any other op of the graph. */
  datatype Node =
    | CurandApply(op: Op, generator: Var, size: Var)
    | OtherApply(name: string, inputs: seq<Var>, outTypes: seq<VarType>)

  /** The pair the stream records: the generator variable and the variable holding its next value. */
  datatype UpdatePair = UpdatePair(generator: Var, updated: Var)

  /** What `new_auto_update` produces: the new node, its sample output and its update pair. */
  datatype AutoUpdate = AutoUpdate(node: Node, sample: Var, update: UpdatePair)

  /**
    `CudaNdarrayType((False,) * ndim)`: a float32 device tensor type broadcasting in no dimension.
    Its rank is ndim, or 0 when ndim is negative, since repeating a tuple a negative number of
    times gives the empty tuple.
  */
  function CudaNdarrayType(ndim: int): (t: TensorType)
    ensures t.typeClass == CudaNdarray && t.dtype == Float32
    ensures t.Ndim() == if ndim < 0 then 0 else ndim
    ensures forall i :: 0 <= i < t.Ndim() ==> !t.broadcastable[i]
  {
    TensorType(CudaNdarray, Float32, seq(if ndim < 0 then 0 else ndim, _ => false))
  }

  /** The op constructor: it records the three attributes, then asserts that the output dtype is float32. */
  function NewOp(kind: Kind, outputType: TensorType, seed: int, destructive: bool): (r: Result<Op>)
    ensures r.Ok? <==> outputType.dtype == Float32
    ensures r.Err? ==> r.error == AssertionError
    ensures r.Ok? ==> r.value.kind == kind && r.value.outputType == outputType
                      && r.value.seed == seed && r.value.destructive == destructive
  {
    if outputType.dtype == Float32 then Ok(CurandOp(kind, outputType, seed, destructive))
    else Err(AssertionError)
  }

  /** `destroy_map`: a destructive op declares that output 0 overwrites input 0; any other op declares nothing. */
  function DestroyMap(op: Op): (m: map<nat, seq<nat>>)
    ensures op.destructive <==> 0 in m
    ensures m.Keys <= {0}
    ensures 0 in m ==> m[0] == [0]
  {
    if op.destructive then map[0 := [0]] else map[]
  }

  /** `as_destructive`: the same class rebuilt from its own output type and seed, with destructive set. */
  function AsDestructive(op: Op): (r: Op)
    ensures r.kind == op.kind && r.outputType == op.outputType && r.seed == op.seed
    ensures r.destructive && DestroyMap(r) == map[0 := [0]]
  {
    var rebuilt := NewOp(op.kind, op.outputType, op.seed, true);
    assert rebuilt.Ok?;
    rebuilt.value
  }

  /** `_config`: the tuple of attributes that define the op; with the class it determines the op. */
  function Config(op: Op): (c: (bool, TensorType, int))
    ensures CurandOp(op.kind, c.1, c.2, c.0) == op
  {
    (op.destructive, op.outputType, op.seed)
  }

  /**
    `__eq__`: the same concrete class and the same config tuple. Ops are equal exactly when they
    agree on every attribute, so equality is a congruence for every use of an op.
  */
  predicate Equal(a: Op, b: Op): (eq: bool)
    ensures eq <==> a == b
  {
    a.kind == b.kind && Config(a) == Config(b)
  }

  /**
    `__hash__`: the hash of (class, config), for a given hash function on such pairs; every op
    equal to this one has that same (class, config) pair.
  */
  function Hash(h: ((Kind, (bool, TensorType, int))) -> int, op: Op): (v: int)
    ensures forall b: Op :: Equal(op, b) ==> v == h((b.kind, Config(b)))
  {
    h((op.kind, Config(op)))
  }

  /** Equal ops hash equally. */
  lemma EqualOpsHashEqually(h: ((Kind, (bool, TensorType, int))) -> int, a: Op, b: Op)
    requires Equal(a, b)
    ensures Hash(h, a) == Hash(h, b)
  {
  }

  /** An op is equal to its destructive twin exactly when it already is destructive. */
  lemma AsDestructiveEqualIff(op: Op)
    ensures Equal(AsDestructive(op), op) <==> op.destructive
    ensures AsDestructive(AsDestructive(op)) == AsDestructive(op)
  {
  }

  /** The inputs of a node: a CURAND node reads its generator, then its size. */
  function Inputs(n: Node): (ins: seq<Var>)
    ensures n.CurandApply? ==> ins == [n.generator, n.size]
    ensures n.OtherApply? ==> ins == n.inputs
  {
    match n
    case CurandApply(_, generator, size) => [generator, size]
    case OtherApply(_, inputs, _) => inputs
  }

  /** The output types of a node: a CURAND node yields a new generator of its input's type, and a sample. */
  function OutputTypes(n: Node): (ts: seq<VarType>)
    ensures n.CurandApply? ==> ts == [n.generator.typ, Tensor(n.op.outputType)]
    ensures n.OtherApply? ==> ts == n.outTypes
  {
    match n
    case CurandApply(op, generator, _) => [generator.typ, Tensor(op.outputType)]
    case OtherApply(_, _, outTypes) => outTypes
  }

  /** The output variables of a node, one per output type. */
  function Outputs(n: Node): (outs: seq<Var>)
    ensures |outs| == |OutputTypes(n)|
    ensures forall k :: 0 <= k < |outs| ==> outs[k] == Var(Out(n, k), OutputTypes(n)[k])
  {
    seq(|OutputTypes(n)|, k requires 0 <= k < |OutputTypes(n)| => Var(Out(n, k), OutputTypes(n)[k]))
  }

  /** `make_node`: a node applying op to (generator, size), whose outputs are a new generator and a sample. */
  function MakeNode(op: Op, generator: Var, size: Var): (n: Node)
    ensures n.CurandApply? && n.op == op
    ensures Inputs(n) == [generator, size]
    ensures OutputTypes(n) == [generator.typ, Tensor(op.outputType)]
  {
    CurandApply(op, generator, size)
  }

  /**
    `new_auto_update`: builds one non-destructive op of the given class and seed, applies it to
    the generator and the int32 size vector, and returns the sample with its update pair.
    `castSize` is the variable the framework's `cast(v_size, 'int32')` returns for the size
    tensor, and `vectorLength` the answer of `get_vector_length` on that tensor (None when that
    raises); the rank is `ndim` when given and the vector's length otherwise. The `dtype`
    argument is not used: the sample is always float32.
  */
  function NewAutoUpdate(kind: Kind, generator: Var, ndim: Option<int>, dtype: string,
                         castSize: Var, vectorLength: Option<nat>, seed: int): (r: Result<AutoUpdate>)
    ensures r.Ok? <==> ndim.Some? || vectorLength.Some?
    ensures r.Err? ==> r.error == VectorLengthUnknown
    ensures r.Ok? ==>
      var node := r.value.node;
      && node.CurandApply?
      && node.op.kind == kind && node.op.seed == seed && !node.op.destructive
      && node.op.outputType == CudaNdarrayType(if ndim.Some? then ndim.value else vectorLength.value)
      && node.generator == generator && node.size == castSize
      && r.value.sample == Var(Out(node, 1), Tensor(node.op.outputType))
      && r.value.update == UpdatePair(generator, Var(Out(node, 0), generator.typ))
  {
    if ndim.None? && vectorLength.None? then Err(VectorLengthUnknown)
    else
      var nd := if ndim.Some? then ndim.value else vectorLength.value;
      var op := NewOp(kind, CudaNdarrayType(nd), seed, false);
      assert op.Ok?;
      var node := MakeNode(op.value, generator, castSize);
      var outs := Outputs(node);
      Ok(AutoUpdate(node, outs[1], UpdatePair(generator, outs[0])))
  }

  /** The sample of an auto-update is float32 whatever dtype was requested. */
  lemma AutoUpdateIgnoresDtype(kind: Kind, generator: Var, ndim: Option<int>, d1: string, d2: string,
                               size: Var, vectorLength: Option<nat>, seed: int)
    ensures NewAutoUpdate(kind, generator, ndim, d1, size, vectorLength, seed)
         == NewAutoUpdate(kind, generator, ndim, d2, size, vectorLength, seed)
    ensures NewAutoUpdate(kind, generator, ndim, d1, size, vectorLength, seed).Ok? ==>
            NewAutoUpdate(kind, generator, ndim, d1, size, vectorLength, seed).value.sample.typ.tensor.dtype == Float32
  {
  }
}
