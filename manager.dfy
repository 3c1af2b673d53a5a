/** The window manager: a theme selector, a spin box giving the number of
    panes, and a scroll frame holding the panes. Changing the spin box
    rebuilds every pane, carrying each old pane's entry text over to the new
    pane at the same index. */
module Manager {
  import opened Panes
  import opened Themes

  /** The spin box's range. */
  const MinPanes: int := 1
  const MaxPanes: int := 10

  /** The value a spin box with range [MinPanes, MaxPanes] holds after being
      set to `v`. */
  function Clamp(v: int): (r: int)
    ensures MinPanes <= r <= MaxPanes
    ensures MinPanes <= v <= MaxPanes ==> r == v
    ensures v < MinPanes ==> r == MinPanes
    ensures MaxPanes < v ==> r == MaxPanes
  {
    if v < MinPanes then MinPanes else if MaxPanes < v then MaxPanes else v
  }

  /** The seed of the new pane at index `i`: the saved URL at that index, or
      the empty string past the end of the saved URLs. */
  function SeedAt(urls: seq<string>, i: nat): string
  {
    if i < |urls| then urls[i] else ""
  }

  /** The entry texts of the `n` panes a rebuild creates from the saved
      `urls`, built by appending one pane at a time. */
  function Seeds(urls: seq<string>, n: nat): (r: seq<string>)
    ensures |r| == n
  {
    if n == 0 then [] else Seeds(urls, n - 1) + [SeedAt(urls, n - 1)]
  }

  /** `k` empty entry texts. */
  function Blanks(k: nat): (r: seq<string>)
    ensures |r| == k
    ensures forall i :: 0 <= i < k ==> r[i] == ""
  {
    seq(k, _ => "")
  }

  /** New pane `i` is seeded with saved URL `i` when there is one, and with
      the empty string otherwise. */
  lemma {:induction false} SeedsAt(urls: seq<string>, n: nat, i: nat)
    requires i < n
    ensures Seeds(urls, n)[i] == (if i < |urls| then urls[i] else "")
  {
    if i < n - 1 {
      SeedsAt(urls, n - 1, i);
    }
  }

  /** Shrinking keeps the prefix: rebuilding with no more panes than there
      are saved URLs gives exactly the first `n` of them. */
  lemma SeedsShrink(urls: seq<string>, n: nat)
    requires n <= |urls|
    ensures Seeds(urls, n) == urls[..n]
  {
    forall i | 0 <= i < n
      ensures Seeds(urls, n)[i] == urls[i]
    {
      SeedsAt(urls, n, i);
    }
  }

  /** Growing keeps every saved URL at its index and adds empty panes after
      them. */
  lemma SeedsGrow(urls: seq<string>, n: nat)
    requires |urls| <= n
    ensures Seeds(urls, n) == urls + Blanks(n - |urls|)
  {
    forall i | 0 <= i < n
      ensures Seeds(urls, n)[i] == (urls + Blanks(n - |urls|))[i]
    {
      SeedsAt(urls, n, i);
    }
  }

  /** Rebuilding twice without editing: the second rebuild sees only the
      first `n1` saved URLs, so whatever lay past the smaller count is lost. */
  lemma RebuildTwice(urls: seq<string>, n1: nat, n2: nat)
    ensures Seeds(Seeds(urls, n1), n2) == Seeds(urls[..if n1 < |urls| then n1 else |urls|], n2)
  {
    var m := if n1 < |urls| then n1 else |urls|;
    forall i | 0 <= i < n2
      ensures Seeds(Seeds(urls, n1), n2)[i] == Seeds(urls[..m], n2)[i]
    {
      SeedsAt(Seeds(urls, n1), n2, i);
      SeedsAt(urls[..m], n2, i);
      if i < n1 {
        SeedsAt(urls, n1, i);
      }
    }
  }

  /** Rebuilding with the same count and no edits reproduces the same texts. */
  lemma RebuildSameCount(urls: seq<string>, n: nat)
    ensures Seeds(Seeds(urls, n), n) == Seeds(urls, n)
  {
    SeedsShrink(Seeds(urls, n), n);
  }

  class WindowManager {
    /** The panes, in index order. */
    var windows: seq<Pane>
    /** The entry texts saved by the last rebuild that found panes. */
    var urls: seq<string>
    /** The spin box's value. */
    var count: int
    /** The widgets in the scroll frame's layout, in order. */
    var container: seq<Pane>
    /** The style sheet installed on the manager's widget tree. */
    var styleSheet: string

    /** The manager's invariant once constructed: the spin box is in range,
        there are as many panes as it says, all of them distinct, and they are
        exactly the scroll frame's widgets. */
    ghost predicate Valid()
      reads this
    {
      MinPanes <= count <= MaxPanes &&
      |windows| == count &&
      container == windows &&
      Distinct(windows)
    }

    /** A new manager: the spin box at 1, no style sheet, and one pane with an
        empty entry field that has loaded nothing. */
    constructor ()
      ensures Valid()
      ensures count == 1 && urls == [] && styleSheet == ""
      ensures |windows| == 1 && fresh(windows[0])
      ensures windows[0].text == "" && windows[0].loads == []
    {
      windows := [];
      urls := [];
      count := MinPanes;
      container := [];
      styleSheet := "";
      new;
      UpdateWindows();
    }

    /** Selecting combo box item `index`: items 0, 1 and 2 install their
        theme's style sheet; any other index leaves the style sheet alone. */
    method ChangeTheme(index: int)
      modifies this`styleSheet
      ensures ThemeAt(index).Some? ==> styleSheet == StyleSheet(ThemeAt(index).value)
      ensures ThemeAt(index).None? ==> styleSheet == old(styleSheet)
      ensures 0 <= index < 3 ==> styleSheet in Sheets
    {
      match ThemeAt(index)
      case Some(t) => styleSheet := StyleSheet(t);
      case None =>
    }

    /** The rebuild: save the old panes' entry texts (only when there are
        panes), detach every old pane, then create `count` fresh panes, pane
        `i` seeded from saved URL `i` or with the empty string. */
    method UpdateWindows()
      requires MinPanes <= count <= MaxPanes
      requires container == windows
      requires Distinct(windows)
      modifies this`urls, this`windows, this`container
      ensures Valid()
      ensures urls == if |old(windows)| > 0 then old(Snapshot(windows)) else old(urls)
      ensures Snapshot(windows) == Seeds(urls, count)
      ensures forall i :: 0 <= i < count ==>
        fresh(windows[i]) && windows[i].loads == SeedLoads(windows[i].text)
      ensures forall i :: 0 <= i < |old(windows)| ==> old(windows)[i] !in windows
    {
      if |windows| > 0 {
        urls := Snapshot(windows);
      }
      DetachAll();
      ghost var saved := urls;
      windows := [];
      for i := 0 to count
        invariant |windows| == i
        invariant urls == saved
        invariant container == windows
        invariant Distinct(windows)
        invariant forall j :: 0 <= j < i ==>
          fresh(windows[j]) && windows[j].text == SeedAt(urls, j) &&
          windows[j].loads == SeedLoads(windows[j].text)
      {
        var w := new Pane(SeedAt(urls, i));
        windows := windows + [w];
        container := container + [w];
      }
      forall j | 0 <= j < count
        ensures Snapshot(windows)[j] == Seeds(urls, count)[j]
      {
        SeedsAt(urls, count, j);
      }
    }

    /** Detach every pane in `windows` from the scroll frame, one at a time. */
    method DetachAll()
      requires container == windows
      requires Distinct(windows)
      modifies this`container
      ensures container == []
    {
      var k := 0;
      while k < |windows|
        invariant 0 <= k <= |windows|
        invariant container == windows[k..]
      {
        assert windows[k] !in windows[k + 1..];
        WithoutAbsent(windows[k + 1..], windows[k]);
        container := Without(container, windows[k]);
        k := k + 1;
      }
    }

    /** Setting the spin box to `v`: the value is clamped to the range, and
        only a change of value triggers a rebuild. */
    method SetSpinValue(v: int)
      requires Valid()
      modifies this`count, this`urls, this`windows, this`container
      ensures Valid()
      ensures count == Clamp(v)
      ensures count == old(count) ==> windows == old(windows) && urls == old(urls)
      ensures count != old(count) ==>
        urls == old(Snapshot(windows)) &&
        Snapshot(windows) == Seeds(urls, count) &&
        (forall i :: 0 <= i < count ==>
          fresh(windows[i]) && windows[i].loads == SeedLoads(windows[i].text))
    {
      var n := Clamp(v);
      if n != count {
        count := n;
        UpdateWindows();
      }
    }
  }
}
