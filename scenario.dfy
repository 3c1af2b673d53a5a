/** A session with the window manager, driven only through its public
    operations: grow to three panes, type a URL into each without opening it,
    shrink to one pane, then grow to two. */
module Scenario {
  import opened Panes
  import opened Manager

  /** The user types `texts[i]` into pane `i`'s entry field, for every pane,
      without opening any of them. */
  method TypeIntoPanes(m: WindowManager, texts: seq<string>)
    requires m.Valid() && |texts| == |m.windows|
    modifies m.windows
    ensures m.Valid()
    ensures Snapshot(m.windows) == texts
    ensures forall i :: 0 <= i < |m.windows| ==> m.windows[i].loads == old(m.windows[i].loads)
  {
    for k := 0 to |texts|
      invariant forall i :: 0 <= i < k ==> m.windows[i].text == texts[i]
      invariant forall i :: 0 <= i < |m.windows| ==> m.windows[i].loads == old(m.windows[i].loads)
    {
      m.windows[k].SetText(texts[k]);
    }
  }

  /** A new manager grown to three panes, into which the user has typed
      three URLs without opening them. */
  method ThreeTypedPanes() returns (m: WindowManager)
    ensures fresh(m) && m.Valid()
    ensures Snapshot(m.windows) == ["http://a", "http://b", "http://c"]
  {
    m := new WindowManager();
    m.SetSpinValue(3);
    TypeIntoPanes(m, ["http://a", "http://b", "http://c"]);
  }

  /** Setting the spin box to a smaller value keeps the first `n` texts. */
  method Shrink(m: WindowManager, n: int)
    requires m.Valid() && MinPanes <= n < m.count
    modifies m
    ensures m.Valid()
    ensures Snapshot(m.windows) == old(Snapshot(m.windows))[..n]
  {
    ghost var before := Snapshot(m.windows);
    m.SetSpinValue(n);
    SeedsShrink(before, n);
  }

  /** Setting the spin box to a larger value keeps every text at its index
      and adds empty panes that have loaded nothing. */
  method Grow(m: WindowManager, n: int)
    requires m.Valid() && m.count < n <= MaxPanes
    modifies m
    ensures m.Valid()
    ensures Snapshot(m.windows) == old(Snapshot(m.windows)) + Blanks(n - old(m.count))
    ensures forall i :: old(m.count) <= i < n ==> m.windows[i].loads == []
  {
    ghost var before := Snapshot(m.windows);
    m.SetSpinValue(n);
    SeedsGrow(before, n);
  }

  /** Shrinking to one pane keeps the first URL; growing back to two keeps it
      at index 0 and adds an empty pane that has loaded nothing. */
  method ShrinkThenGrow() returns (afterShrink: seq<string>, afterGrow: seq<string>, grownLoads: seq<string>)
    ensures afterShrink == ["http://a"]
    ensures afterGrow == ["http://a", ""]
    ensures grownLoads == []
  {
    var m := ThreeTypedPanes();
    Shrink(m, 1);
    afterShrink := Snapshot(m.windows);
    Grow(m, 2);
    afterGrow := Snapshot(m.windows);
    grownLoads := m.windows[1].loads;
  }
}
