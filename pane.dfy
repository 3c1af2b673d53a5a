/** One browser pane: a URL entry field, an "Open URL" button and an embedded
    browser surface. The surface itself is external; of it the model keeps
    only the strings handed to its `load`, in order. */
module Panes {

  class Pane {
    /** The text of the URL entry field. */
    var text: string
    /** Every string passed to the browser surface's `load`, oldest first. */
    var loads: seq<string>

    /** A pane seeded with `initialUrl`: a non-empty seed is put into the entry
        field and loaded once; an empty one leaves the field empty and loads
        nothing. */
    constructor (initialUrl: string)
      ensures text == initialUrl
      ensures loads == SeedLoads(initialUrl)
    {
      text := "";
      loads := [];
      new;
      if initialUrl != "" {
        SetText(initialUrl);
        LoadUrl();
      }
    }

    /** The entry field's text is replaced, by the program or by the user
        typing; nothing is loaded. */
    method SetText(s: string)
      modifies this`text
      ensures text == s
      ensures loads == old(loads)
    {
      text := s;
    }

    /** The "Open URL" action: the entry text is handed to the browser surface
        verbatim, and the entry field is left as it is. */
    method LoadUrl()
      modifies this`loads
      ensures loads == old(loads) + [text]
      ensures text == old(text)
    {
      loads := loads + [text];
    }

    /** The pane's current URL is the entry field's text, whatever the browser
        surface was last asked to load. */
    function CurrentUrl(): string
      reads this
    {
      text
    }
  }

  /** The loads a freshly constructed pane has issued: exactly one, of the
      seed itself, when the seed is non-empty, and none otherwise. */
  function SeedLoads(seed: string): (r: seq<string>)
    ensures |r| == (if seed == "" then 0 else 1)
    ensures forall u :: u in r ==> u == seed
  {
    if seed == "" then [] else [seed]
  }

  /** The current URLs of `ws`, in index order: one entry per pane, the i-th
      being pane i's entry text. */
  function Snapshot(ws: seq<Pane>): (r: seq<string>)
    reads ws
    ensures |r| == |ws|
    ensures forall i :: 0 <= i < |ws| ==> r[i] == ws[i].CurrentUrl()
  {
    if ws == [] then [] else Snapshot(ws[..|ws| - 1]) + [ws[|ws| - 1].CurrentUrl()]
  }

  /** No pane occurs twice in `ws`. */
  ghost predicate Distinct(ws: seq<Pane>)
  {
    forall i, j :: 0 <= i < j < |ws| ==> ws[i] != ws[j]
  }

  /** `s` with every occurrence of `p` removed: the layout after `p` has been
      detached from it. */
  function Without(s: seq<Pane>, p: Pane): (r: seq<Pane>)
    ensures forall i :: 0 <= i < |r| ==> r[i] in s && r[i] != p
    ensures forall i :: 0 <= i < |s| && s[i] != p ==> s[i] in r
    ensures |r| <= |s|
  {
    if s == [] then []
    else if s[0] == p then Without(s[1..], p)
    else [s[0]] + Without(s[1..], p)
  }

  /** Detaching a pane that is not in the layout leaves the layout as it is. */
  lemma {:induction false} WithoutAbsent(s: seq<Pane>, p: Pane)
    requires p !in s
    ensures Without(s, p) == s
  {
    if s != [] {
      WithoutAbsent(s[1..], p);
    }
  }
}
