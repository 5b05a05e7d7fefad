/** The light/dark theme switch of src/components/ThemeToggle.jsx: the initial choice,
    the toggle, and the effect that persists the theme and applies the `dark` class. */
module ThemeToggle {
  import opened Entities

  /** `getInitialTheme`: `stored` is `localStorage.getItem('theme')`, `prefersDark` whether the
      dark colour-scheme media query matches. */
  function InitialTheme(hasWindow: bool, stored: Option<string>, prefersDark: bool): (t: string)
    ensures !hasWindow ==> t == "light"
    ensures hasWindow && Truthy(stored) ==> t == stored.value
    ensures hasWindow && !Truthy(stored) ==> (t == "dark" <==> prefersDark) && (t == "dark" || t == "light")
  {
    if !hasWindow then "light"
    else if Truthy(stored) then stored.value
    else if prefersDark then "dark"
    else "light"
  }

  /** The click handler's new theme. */
  function Toggled(theme: string): (t: string)
    ensures t == "dark" || t == "light"
    ensures (t == "dark") <==> (theme != "dark")
  {
    if theme == "dark" then "light" else "dark"
  }

  /** Toggling twice from either known theme restores it. */
  lemma ToggleTwice(theme: string)
    requires theme == "light" || theme == "dark"
    ensures Toggled(Toggled(theme)) == theme
  {
  }

  /** A stored value that is neither theme is replaced by `light` after two toggles. */
  lemma ToggleTwiceNormalizes(theme: string)
    requires theme != "light" && theme != "dark"
    ensures Toggled(Toggled(theme)) == "light"
  {
  }

  function Lookup(m: map<string, string>, k: string): Option<string>
  {
    if k in m then Some(m[k]) else None
  }

  /** The mounted toggle: its state and the parts of the page environment its effect writes. */
  class ThemeSwitch {
    var theme: string
    var storage: map<string, string>   // localStorage
    var darkClass: bool                // documentElement has class `dark`

    /** The effect has run for the current theme. */
    ghost predicate Applied()
      reads this
    {
      "theme" in storage && storage["theme"] == theme && darkClass == (theme == "dark")
    }

    /** Mounting in a browser: the initial theme, then the effect. */
    constructor (stored: map<string, string>, prefersDark: bool)
      ensures theme == InitialTheme(true, Lookup(stored, "theme"), prefersDark)
      ensures Applied() && storage == stored["theme" := theme]
    {
      theme := InitialTheme(true, Lookup(stored, "theme"), prefersDark);
      storage := stored;
      darkClass := false;
      new;
      ApplyTheme();
    }

    /** The effect: toggles the `dark` class and persists the theme. */
    method ApplyTheme()
      modifies this
      ensures theme == old(theme)
      ensures Applied() && storage == old(storage)["theme" := theme]
    {
      darkClass := theme == "dark";
      storage := storage["theme" := theme];
    }

    /** A click: the theme flips and the effect runs for the new theme. */
    method Click()
      modifies this
      ensures theme == Toggled(old(theme))
      ensures Applied() && storage == old(storage)["theme" := theme]
    {
      theme := Toggled(theme);
      ApplyTheme();
    }
  }
}
