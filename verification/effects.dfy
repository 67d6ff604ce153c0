/** What a click handler does to the outside world, in the order it does it:
    a request to the budget API, or a call of the parent's `onUpdate`
    callback, which makes the parent refetch the month. */
module Effects {

  datatype Effect<C> = Api(call: C) | Refresh

  /** The component's state after a handler ran, and what the handler emitted. */
  datatype Step<S, C> = Step(state: S, effects: seq<Effect<C>>)

  /** The API requests among `es`, in emission order. */
  function Calls<C>(es: seq<Effect<C>>): (cs: seq<C>)
    ensures |cs| <= |es|
    ensures forall i :: 0 <= i < |cs| ==> Api(cs[i]) in es
    ensures forall i :: 0 <= i < |es| && es[i].Api? ==> es[i].call in cs
  {
    if es == [] then []
    else (if es[0].Api? then [es[0].call] else []) + Calls(es[1..])
  }

  /** How many times the parent's refresh callback is invoked in `es`; every
      effect is either a request or a refresh. */
  function RefreshCount<C>(es: seq<Effect<C>>): (n: nat)
    ensures n + |Calls(es)| == |es|
    ensures n == 0 <==> forall i :: 0 <= i < |es| ==> es[i].Api?
  {
    if es == [] then 0
    else (if es[0].Refresh? then 1 else 0) + RefreshCount(es[1..])
  }

  /** `es` is exactly one request followed by exactly one refresh. */
  predicate OneCallThenRefresh<C>(es: seq<Effect<C>>) {
    && |Calls(es)| == 1
    && RefreshCount(es) == 1
    && es[|es| - 1].Refresh?
  }

  /** The shape of every mutating handler of the entry editors. */
  lemma CallThenRefresh<C>(c: C)
    ensures Calls([Api(c), Refresh]) == [c]
    ensures OneCallThenRefresh([Api(c), Refresh])
  {
    var es: seq<Effect<C>> := [Api(c), Refresh];
    assert es[1..] == [Refresh];
    assert es[1..][1..] == [];
  }

  lemma {:induction false} CallsAppend<C>(a: seq<Effect<C>>, b: seq<Effect<C>>)
    ensures Calls(a + b) == Calls(a) + Calls(b)
    decreases |a|
  {
    if a == [] {
      assert a + b == b;
    } else {
      assert (a + b)[0] == a[0];
      assert (a + b)[1..] == a[1..] + b;
      CallsAppend(a[1..], b);
    }
  }

  lemma {:induction false} RefreshCountAppend<C>(a: seq<Effect<C>>, b: seq<Effect<C>>)
    ensures RefreshCount(a + b) == RefreshCount(a) + RefreshCount(b)
    decreases |a|
  {
    if a == [] {
      assert a + b == b;
    } else {
      assert (a + b)[0] == a[0];
      assert (a + b)[1..] == a[1..] + b;
      RefreshCountAppend(a[1..], b);
    }
  }
}
