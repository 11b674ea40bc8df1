/**
  The `local_destructive` rewrite: a non-destructive CURAND node is replaced by its
  destructive twin over the same inputs. The graph is an abstract list of nodes, and
  the pass applies the local rewrite to each node of the list.
*/
module DestructiveRewrite {
  import opened Errors
  import opened CurandOps

  /** A node the rewrite applies to: a CURAND op that is not yet destructive. */
  predicate IsCandidate(n: Node) {
    n.CurandApply? && !n.op.destructive
  }

  /**
    `local_destructive`: for a non-destructive CURAND node, the outputs of a new node built
    by `as_destructive().make_node(*inputs)`; None (the source's `False`) for any other node.
  */
  function LocalDestructive(n: Node): (r: Option<seq<Var>>)
    ensures r.Some? <==> IsCandidate(n)
    ensures r.Some? ==> IsTwinOutputs(n, r.value)
  {
    if IsCandidate(n) then Some(Outputs(MakeNode(AsDestructive(n.op), n.generator, n.size)))
    else None
  }

  /**
    `outs` are the outputs of a destructive CURAND node with the same class, output type,
    seed and inputs as n, and they have the types of n's outputs, so they can be spliced in.
  */
  predicate IsTwinOutputs(n: Node, outs: seq<Var>) {
    && n.CurandApply?
    && |outs| == 2 && outs[0].origin.Out?
    && var m := outs[0].origin.node;
    && m.CurandApply? && m.op.destructive
    && m.op.kind == n.op.kind && m.op.outputType == n.op.outputType && m.op.seed == n.op.seed
    && Inputs(m) == Inputs(n)
    && outs == Outputs(m)
    && OutputTypes(m) == OutputTypes(n)
  }

  /** The node that takes n's place once the rewrite has run on it. */
  function Rewritten(n: Node): (m: Node)
    ensures IsCandidate(n) ==> LocalDestructive(n).Some? && LocalDestructive(n).value == Outputs(m)
    ensures !IsCandidate(n) ==> m == n
  {
    match LocalDestructive(n)
    case None => n
    case Some(outs) => outs[0].origin.node
  }

  /** The rewrite applied to every node of the graph, in order: node k becomes Rewritten of node k. */
  function DestructivePass(g: seq<Node>): (r: seq<Node>)
    ensures |r| == |g|
    ensures forall k :: 0 <= k < |g| ==> r[k] == Rewritten(g[k])
  {
    if g == [] then [] else [Rewritten(g[0])] + DestructivePass(g[1..])
  }

  /** Applying the rewrite to its own output changes nothing. */
  lemma LocalDestructiveIdempotent(n: Node)
    ensures LocalDestructive(Rewritten(n)).None?
    ensures Rewritten(Rewritten(n)) == Rewritten(n)
  {
  }

  /**
    After the pass no node is left that the rewrite would change; every node keeps its
    inputs and output types; nodes that were not candidates are untouched.
  */
  lemma DestructivePassComplete(g: seq<Node>)
    ensures |DestructivePass(g)| == |g|
    ensures forall k :: 0 <= k < |g| ==> LocalDestructive(DestructivePass(g)[k]).None?
    ensures forall k :: 0 <= k < |g| ==>
              Inputs(DestructivePass(g)[k]) == Inputs(g[k])
              && OutputTypes(DestructivePass(g)[k]) == OutputTypes(g[k])
    ensures forall k :: 0 <= k < |g| && !IsCandidate(g[k]) ==> DestructivePass(g)[k] == g[k]
  {
  }

  /** Running the pass a second time changes nothing. */
  lemma {:induction false} DestructivePassIdempotent(g: seq<Node>)
    ensures DestructivePass(DestructivePass(g)) == DestructivePass(g)
  {
    if g != [] {
      LocalDestructiveIdempotent(g[0]);
      DestructivePassIdempotent(g[1..]);
    }
  }
}
