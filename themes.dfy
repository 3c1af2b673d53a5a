/** The theme selector of the window manager: a combo box with three fixed
    items, each mapped to one fixed style sheet. */
module Themes {

  datatype Option<T> = None | Some(value: T)

  /** The combo box's items, in the order they are added to it. */
  datatype Theme = Light | Dark | Custom

  const LightSheet: string := "QWidget { background-color: #FFFFFF; color: #000000; }"
  const DarkSheet: string := "QWidget { background-color: #333333; color: #FFFFFF; }"
  const CustomSheet: string := "QWidget { background-color: #FF69B4; color: #000000; }"

  /** The three style sheets a theme switch can install, and nothing else. */
  const Sheets: set<string> := {LightSheet, DarkSheet, CustomSheet}

  /** The position of a theme's item in the combo box. */
  function ItemIndex(t: Theme): (i: nat)
    ensures i < 3
  {
    match t
    case Light => 0
    case Dark => 1
    case Custom => 2
  }

  /** The theme whose item sits at `index`, if any: the indices the theme
      switch reacts to are exactly 0, 1 and 2. */
  function ThemeAt(index: int): (r: Option<Theme>)
    ensures r.Some? <==> 0 <= index < 3
    ensures r.Some? ==> ItemIndex(r.value) == index
  {
    if index == 0 then Some(Light)
    else if index == 1 then Some(Dark)
    else if index == 2 then Some(Custom)
    else None
  }

  /** The fixed style sheet of a theme. */
  function StyleSheet(t: Theme): (s: string)
    ensures s in Sheets
  {
    match t
    case Light => LightSheet
    case Dark => DarkSheet
    case Custom => CustomSheet
  }

  /** Selecting an item and reading back its theme is the identity. */
  lemma ThemeRoundTrip(t: Theme)
    ensures ThemeAt(ItemIndex(t)) == Some(t)
  {
  }

  /** Distinct themes install distinct style sheets, so the three items lead
      to three different states. */
  lemma StyleSheetInjective(t1: Theme, t2: Theme)
    ensures StyleSheet(t1) == StyleSheet(t2) ==> t1 == t2
  {
  }

  /** Every style sheet a theme switch can install comes from exactly one item. */
  lemma EverySheetHasOneItem(s: string)
    requires s in Sheets
    ensures exists t :: StyleSheet(t) == s
    ensures forall t1, t2 :: StyleSheet(t1) == s && StyleSheet(t2) == s ==> t1 == t2
  {
    if s == LightSheet {
      assert StyleSheet(Light) == s;
    } else if s == DarkSheet {
      assert StyleSheet(Dark) == s;
    } else {
      assert StyleSheet(Custom) == s;
    }
    forall t1, t2 | StyleSheet(t1) == s && StyleSheet(t2) == s
      ensures t1 == t2
    {
      StyleSheetInjective(t1, t2);
    }
  }
}
