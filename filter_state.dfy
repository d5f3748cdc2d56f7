/**
  The diagram's one piece of mutable state: the current filter, `null` or a
  `{type, value}` naming one site or one theme, and the click rule of `handleFilter`.
*/
module FilterState {
  import opened Wrappers
  import opened Aggregate

  /** `{type: 'sted' | 'tema', value}`: the item clicked. */
  datatype Filter = Filter(kind: NodeType, value: string)

  /**
    `handleFilter(type, value)`: clicking the item already selected clears the filter;
    clicking anything else selects exactly that item.
  */
  function Toggle(current: Option<Filter>, kind: NodeType, value: string): (next: Option<Filter>)
    ensures next == None <==> current == Some(Filter(kind, value))
    ensures next != None ==> next == Some(Filter(kind, value))
  {
    if current.Some? && current.value.kind == kind && current.value.value == value then None
    else Some(Filter(kind, value))
  }

  /** The state after a sequence of clicks, each a (type, value) pair. */
  function AfterClicks(current: Option<Filter>, clicks: seq<Filter>): Option<Filter> {
    if |clicks| == 0 then current
    else Toggle(AfterClicks(current, clicks[..|clicks| - 1]), clicks[|clicks| - 1].kind, clicks[|clicks| - 1].value)
  }

  /** Clicking the same item twice undoes the first click when it selected, and clears otherwise. */
  lemma ToggleTwice(current: Option<Filter>, kind: NodeType, value: string)
    ensures Toggle(Toggle(current, kind, value), kind, value) ==
      if current == Some(Filter(kind, value)) then current else None
    ensures Toggle(Toggle(None, kind, value), kind, value) == None
  {
  }

  /**
    At most one item is ever selected: after any clicks the filter is `null` or the
    last item clicked.
  */
  lemma {:induction false} SingleSelection(current: Option<Filter>, clicks: seq<Filter>)
    requires |clicks| > 0
    ensures AfterClicks(current, clicks) == None || AfterClicks(current, clicks) == Some(clicks[|clicks| - 1])
  {
    var last := clicks[|clicks| - 1];
    assert Filter(last.kind, last.value) == last;
  }

  /** From `null`, an even number of clicks on one item leaves the filter `null`. */
  lemma {:induction false} RepeatedClicks(f: Filter, n: nat)
    ensures AfterClicks(None, seq(2 * n, _ => f)) == None
    ensures AfterClicks(None, seq(2 * n + 1, _ => f)) == Some(f)
  {
    var odd := seq(2 * n + 1, _ => f);
    var even := seq(2 * n, _ => f);
    assert odd[..2 * n] == even;
    if n > 0 {
      RepeatedClicks(f, n - 1);
      assert even[..2 * n - 1] == seq(2 * (n - 1) + 1, _ => f);
    }
    assert Filter(f.kind, f.value) == f;
  }

}
