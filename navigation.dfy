/** The handheld's keyboard navigation: the screen being shown and the
    highlighted entry of the main menu, changed by each key press. */
module Navigation {

  datatype View = Welcome | Main | LocationScreen | OutingScreen | Insights

  /** The main menu's entries in order (spiral, notes, code), each with the
      screen it opens, as the clickable menu lists them. */
  const MenuViews: seq<View> := [LocationScreen, OutingScreen, Insights]

  /** Enter and the space bar both activate. */
  predicate Activates(key: string) {
    key == "Enter" || key == " "
  }

  /** The state after one key press, from `view` with `selected`
      highlighted. */
  function Transition(view: View, selected: int, key: string): (r: (View, int))
    ensures r.0 != view ==> r.1 == selected
    ensures r.1 != selected ==> view == Main && r.0 == Main && (key == "ArrowLeft" || key == "ArrowRight")
    ensures 0 <= selected <= 2 ==> 0 <= r.1 <= 2
  {
    match view
    case Welcome => if Activates(key) then (Main, selected) else (view, selected)
    case Main =>
      if key == "ArrowLeft" then (view, if selected > 0 then selected - 1 else 2)
      else if key == "ArrowRight" then (view, if selected < 2 then selected + 1 else 2)
      else if Activates(key) then
        (if selected == 0 then LocationScreen
         else if selected == 1 then OutingScreen
         else if selected == 2 then Insights
         else view, selected)
      else if key == "Escape" then (Welcome, selected)
      else (view, selected)
    case _ => if key == "Escape" then (Main, selected) else (view, selected)
  }

  class Navigator {
    var view: View
    var selected: int

    /** The app starts on the welcome screen with the first entry
        highlighted. */
    constructor ()
      ensures view == Welcome && selected == 0
    {
      view := Welcome;
      selected := 0;
    }

    /** `handleKeyPress`: one key press. */
    method HandleKey(key: string)
      modifies this
      ensures (view, selected) == Transition(old(view), old(selected), key)
    {
      if view == Welcome {
        if key == "Enter" || key == " " {
          view := Main;
        }
      } else if view == Main {
        if key == "ArrowLeft" {
          selected := if selected > 0 then selected - 1 else 2;
        } else if key == "ArrowRight" {
          selected := if selected < 2 then selected + 1 else 2;
        } else if key == "Enter" || key == " " {
          if selected == 0 {
            view := LocationScreen;
          } else if selected == 1 {
            view := OutingScreen;
          } else if selected == 2 {
            view := Insights;
          }
        } else if key == "Escape" {
          view := Welcome;
        }
      } else {
        if key == "Escape" {
          view := Main;
        }
      }
    }
  }

  /** The state after a sequence of key presses from the start. */
  function Replay(keys: seq<string>): (View, int) {
    if keys == [] then (Welcome, 0)
    else
      var (v, s) := Replay(keys[..|keys| - 1]);
      Transition(v, s, keys[|keys| - 1])
  }

  /** ArrowLeft wraps from the first entry to the last; ArrowRight stops at
      the last. */
  lemma ArrowEnds()
    ensures Transition(Main, 0, "ArrowLeft") == (Main, 2)
    ensures Transition(Main, 2, "ArrowRight") == (Main, 2)
    ensures forall s :: 0 < s <= 2 ==> Transition(Main, s, "ArrowLeft") == (Main, s - 1)
    ensures forall s :: 0 <= s < 2 ==> Transition(Main, s, "ArrowRight") == (Main, s + 1)
  {
  }

  /** A press keeps a highlighted entry among the three. */
  lemma SelectionInRange(view: View, selected: int, key: string)
    requires 0 <= selected <= 2
    ensures 0 <= Transition(view, selected, key).1 <= 2
  {
  }

  /** No sequence of presses highlights anything but the three entries. */
  lemma {:induction false} ReplayInRange(keys: seq<string>)
    ensures 0 <= Replay(keys).1 <= 2
  {
    if keys != [] {
      ReplayInRange(keys[..|keys| - 1]);
      var (v, s) := Replay(keys[..|keys| - 1]);
      SelectionInRange(v, s, keys[|keys| - 1]);
    }
  }

  /** Arrows never change the screen, and a change of screen never changes
      the highlighted entry. */
  lemma ArrowsAndViews(view: View, selected: int, key: string)
    ensures key == "ArrowLeft" || key == "ArrowRight" ==> Transition(view, selected, key).0 == view
    ensures Transition(view, selected, key).0 != view ==> Transition(view, selected, key).1 == selected
  {
  }

  /** On the main menu, activating opens the highlighted entry's screen,
      the one the clickable menu opens for it. */
  lemma ActivateOpensMenuEntry(selected: int, key: string)
    requires 0 <= selected < |MenuViews| && Activates(key)
    ensures Transition(Main, selected, key) == (MenuViews[selected], selected)
  {
  }

  /** Escape goes one level up; on the welcome screen only Enter and space
      do anything, and on the three screens only Escape does. */
  lemma EscapeAndIgnoredKeys(view: View, selected: int, key: string)
    ensures view == Main && key == "Escape" ==> Transition(view, selected, key) == (Welcome, selected)
    ensures view in {LocationScreen, OutingScreen, Insights} ==>
              Transition(view, selected, key) == (if key == "Escape" then Main else view, selected)
    ensures view == Welcome ==>
              Transition(view, selected, key) == (if Activates(key) then Main else Welcome, selected)
    ensures view == Main && key != "ArrowLeft" && key != "ArrowRight" && key != "Escape" && !Activates(key) ==>
              Transition(view, selected, key) == (Main, selected)
  {
  }

  /** The welcome screen is only ever left for the main menu, and the three
      screens are only ever reached from it. */
  lemma ReachedFrom(view: View, selected: int, key: string)
    ensures var next := Transition(view, selected, key).0;
            && (view == Welcome && next != Welcome ==> next == Main)
            && (next in {LocationScreen, OutingScreen, Insights} && next != view ==> view == Main)
  {
  }
}
