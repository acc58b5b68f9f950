/** The theme switch: the theme state, persisted under the "theme" key of local storage and mirrored by
    the `dark` class on the document element. */
module ThemeToggle {
  const ThemeKey := "theme"

  /** The `useState` initialiser: the stored theme when there is a non-empty one, otherwise "dark". */
  function InitialTheme(storage: map<string, string>): (theme: string)
    ensures theme != ""
    ensures ThemeKey in storage && storage[ThemeKey] != "" ==> theme == storage[ThemeKey]
    ensures !(ThemeKey in storage && storage[ThemeKey] != "") ==> theme == "dark"
  {
    if ThemeKey in storage && storage[ThemeKey] != "" then storage[ThemeKey] else "dark"
  }

  /** `toggleTheme`'s new value. */
  function Toggled(theme: string): (t: string)
    ensures t == "dark" || t == "light"
    ensures t == "light" <==> theme == "dark"
  {
    if theme == "dark" then "light" else "dark"
  }

  /** Two toggles give back "dark" and "light"; from any other stored value the first toggle
      goes to "dark" and the second to "light". */
  lemma ToggleTwice(theme: string)
    ensures theme == "dark" || theme == "light" ==> Toggled(Toggled(theme)) == theme
    ensures theme != "dark" && theme != "light" ==> Toggled(Toggled(theme)) == "light"
    ensures Toggled(theme) != theme
  {
    assert "light" != "dark" by { assert "light"[0] != "dark"[0]; }
  }

  datatype Icon = Moon | Sun
  datatype Side = Right | Left | Neither

  /** The icon inside the knob: the moon for "dark", the sun for everything else. */
  function KnobIcon(theme: string): (icon: Icon)
    ensures icon == Moon <==> theme == "dark"
  {
    if theme == "dark" then Moon else Sun
  }

  /** Where the knob's auto margin pushes it: right for "dark", left for "light", and neither side for any
      other value. */
  function KnobSide(theme: string): (side: Side)
    ensures side == Right <==> theme == "dark"
    ensures side == Left <==> theme == "light"
  {
    if theme == "dark" then Right else if theme == "light" then Left else Neither
  }

  /** A click always moves the knob and swaps its icon, and afterwards the knob sits at one of the two ends. */
  lemma KnobMovesOnClick(theme: string)
    ensures KnobIcon(Toggled(theme)) != KnobIcon(theme)
    ensures KnobSide(Toggled(theme)) != KnobSide(theme) && KnobSide(Toggled(theme)) != Neither
  {
  }

  /** The switch's state together with the parts of the page it writes: local storage and whether the
      document element carries the `dark` class. */
  class Toggle {
    var theme: string
    var storage: map<string, string>
    var darkClass: bool

    /** What holds once the effect has run for the current theme. */
    ghost predicate Valid()
      reads this
    {
      theme != "" && darkClass == (theme == "dark") && ThemeKey in storage && storage[ThemeKey] == theme
    }

    /** Mounting: the initial state from storage, then the effect. */
    constructor(stored: map<string, string>, hadDarkClass: bool)
      ensures Valid()
      ensures theme == InitialTheme(stored)
      ensures storage == stored[ThemeKey := theme]
    {
      theme := InitialTheme(stored);
      storage := stored;
      darkClass := hadDarkClass;
      new;
      ApplyEffect();
    }

    /** The `useEffect` body for the current theme. */
    method ApplyEffect()
      requires theme != ""
      modifies this
      ensures Valid()
      ensures theme == old(theme) && storage == old(storage)[ThemeKey := theme]
    {
      if theme == "dark" {
        darkClass := true;
      } else {
        darkClass := false;
      }
      storage := storage[ThemeKey := theme];
    }

    /** A click: the new theme, then the effect that the changed theme triggers. */
    method Click()
      requires Valid()
      modifies this
      ensures Valid()
      ensures theme == Toggled(old(theme))
      ensures storage == old(storage)[ThemeKey := theme]
    {
      theme := Toggled(theme);
      ApplyEffect();
    }
  }

  /** Once the effect has run, the knob agrees with the page: the moon shows, and the knob sits right,
      exactly when the root element carries the `dark` class. */
  lemma KnobMatchesRootClass(t: Toggle)
    requires t.Valid()
    ensures KnobIcon(t.theme) == Moon <==> t.darkClass
    ensures KnobSide(t.theme) == Right <==> t.darkClass
  {
  }

  /** A first visit starts dark; a click switches to light, and a reload of the page keeps light. */
  method ChoiceSurvivesReload(otherEntries: map<string, string>)
    returns (first: string, afterClick: string, afterReload: string, darkAfterReload: bool)
    requires ThemeKey !in otherEntries
    ensures first == "dark" && afterClick == "light" && afterReload == "light" && !darkAfterReload
  {
    var page := new Toggle(otherEntries, false);
    first := page.theme;
    page.Click();
    afterClick := page.theme;
    var reloaded := new Toggle(page.storage, page.darkClass);
    afterReload, darkAfterReload := reloaded.theme, reloaded.darkClass;
  }
}
