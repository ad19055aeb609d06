/** A chain of transformers over one object: forward in order, backward in reverse (pkg/convert/cross-object.go).
 */
module Chain {
  import opened Wrappers

  /** Both directions of one transformer; None for an error. */
  datatype Transformer<!V> = Transformer(forward: V -> Option<V>, backward: V -> Option<V>)

  /** The first `i` members, in order. */
  function ForwardTo<V>(chain: seq<Transformer<V>>, i: nat, v: V): Option<V>
    requires i <= |chain|
    decreases i
  {
    if i == 0 then Some(v)
    else
      var before := ForwardTo(chain, i - 1, v);
      if before.None? then None else chain[i - 1].forward(before.value)
  }

  /** The first `i` members, the last of them first. */
  function BackwardFrom<V>(chain: seq<Transformer<V>>, i: nat, v: V): Option<V>
    requires i <= |chain|
    decreases i
  {
    if i == 0 then Some(v)
    else
      var back := chain[i - 1].backward(v);
      if back.None? then None else BackwardFrom(chain, i - 1, back.value)
  }

  function Forward<V>(chain: seq<Transformer<V>>, v: V): Option<V> {
    ForwardTo(chain, |chain|, v)
  }

  function Backward<V>(chain: seq<Transformer<V>>, v: V): Option<V> {
    BackwardFrom(chain, |chain|, v)
  }

  method RunForward<V>(chain: seq<Transformer<V>>, v: V) returns (r: Option<V>)
    ensures r == Forward(chain, v)
  {
    var it := v;
    for i := 0 to |chain|
      invariant ForwardTo(chain, i, v) == Some(it)
    {
      var next := chain[i].forward(it);
      if next.None? {
        FailsForGood(chain, i + 1, |chain|, v);
        return None;
      }
      it := next.value;
    }
    return Some(it);
  }

  lemma {:induction false} FailsForGood<V>(chain: seq<Transformer<V>>, i: nat, j: nat, v: V)
    requires i <= j <= |chain| && ForwardTo(chain, i, v).None?
    ensures ForwardTo(chain, j, v).None?
    decreases j - i
  {
    if i < j {
      FailsForGood(chain, i, j - 1, v);
    }
  }

  method RunBackward<V>(chain: seq<Transformer<V>>, v: V) returns (r: Option<V>)
    ensures r == Backward(chain, v)
  {
    var it, i := v, |chain|;
    while i > 0
      invariant 0 <= i <= |chain|
      invariant BackwardFrom(chain, i, it) == Backward(chain, v)
    {
      var next := chain[i - 1].backward(it);
      if next.None? {
        return None;
      }
      it, i := next.value, i - 1;
    }
    return Some(it);
  }

  /** Backward gives back what Forward was given. */
  ghost predicate Undoes<V(!new)>(t: Transformer<V>) {
    forall v: V {:trigger t.forward(v)} :: t.forward(v).Some? ==> t.backward(t.forward(v).value) == Some(v)
  }

  lemma {:induction false} ChainUndoesTo<V(!new)>(chain: seq<Transformer<V>>, i: nat, v: V)
    requires i <= |chain| && forall j :: 0 <= j < |chain| ==> Undoes(chain[j])
    requires ForwardTo(chain, i, v).Some?
    ensures BackwardFrom(chain, i, ForwardTo(chain, i, v).value) == Some(v)
    decreases i
  {
    if i > 0 {
      var before := ForwardTo(chain, i - 1, v);
      assert before.Some? && Undoes(chain[i - 1]);
      assert chain[i - 1].forward(before.value).Some?;
      ChainUndoesTo(chain, i - 1, v);
    }
  }

  /** A chain of any length is undone by running it backward, if each of its members is. */
  lemma ChainUndoes<V(!new)>(chain: seq<Transformer<V>>, v: V)
    requires forall j :: 0 <= j < |chain| ==> Undoes(chain[j])
    requires Forward(chain, v).Some?
    ensures Backward(chain, Forward(chain, v).value) == Some(v)
  {
    ChainUndoesTo(chain, |chain|, v);
  }

  const DOUBLING := Transformer((n: int) => Some(2 * n), (n: int) => if n % 2 == 0 then Some(n / 2) else None)
  const ADDING := Transformer((n: int) => Some(n + 1), (n: int) => Some(n - 1))

  /** It has to be the reverse order: in the same order both ways, two members that touch the same field do
      not undo each other. */
  lemma SameOrderDoesNotUndo()
    ensures Undoes(DOUBLING) && Undoes(ADDING)
    ensures Forward([DOUBLING, ADDING], 1) == Some(3) && Backward([DOUBLING, ADDING], 3) == Some(1)
    ensures Backward([ADDING, DOUBLING], 3) != Some(1)
  {
  }
}
