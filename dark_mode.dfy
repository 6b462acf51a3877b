/** The theme hook: the initial theme from storage or the system preference, the
    toggle, and the effect that writes the theme to the root element's class list and
    to storage. */
module DarkMode {
  import opened JsValues

  const LIGHT: string := "light"
  const DARK: string := "dark"

  /** The storage key the theme is saved under. */
  const THEME_KEY: string := "theme"

  /** `localStorage.getItem(key)`: the stored string, or `null`. */
  function GetItem(storage: map<string, string>, key: string): (r: Option<string>)
    ensures r.Some? <==> key in storage
    ensures r.Some? ==> r.value == storage[key]
  {
    if key in storage then Some(storage[key]) else None
  }

  /** `savedTheme || systemPreference`: a saved theme wins unless it is missing or
      empty; otherwise the system preference decides. */
  function InitialTheme(saved: Option<string>, prefersDark: bool): (r: string)
    ensures saved.Some? && saved.value != "" ==> r == saved.value
    ensures saved.None? || saved == Some("") ==> r == (if prefersDark then DARK else LIGHT)
    ensures r != ""
  {
    if saved.Some? && saved.value != "" then saved.value
    else if prefersDark then DARK else LIGHT
  }

  /** `prevTheme === 'light' ? 'dark' : 'light'`. */
  function Toggled(theme: string): (r: string)
    ensures r == DARK <==> theme == LIGHT
    ensures r == LIGHT <==> theme != LIGHT
    ensures r != theme
  {
    if theme == LIGHT then DARK else LIGHT
  }

  /** On the two themes the toggle is its own inverse; from any other stored string one
      toggle reaches "light". */
  lemma ToggleTwiceRestores(theme: string)
    ensures theme in {LIGHT, DARK} ==> Toggled(Toggled(theme)) == theme
    ensures theme !in {LIGHT, DARK} ==> Toggled(theme) == LIGHT
  {
  }

  /** `root.classList.remove('light', 'dark'); root.classList.add(theme)`. */
  function AppliedClasses(classes: set<string>, theme: string): (r: set<string>)
    ensures theme in r
    ensures theme == LIGHT ==> DARK !in r
    ensures theme == DARK ==> LIGHT !in r
    ensures forall c | c != LIGHT && c != DARK :: c in r <==> c in classes || c == theme
    ensures forall c | c in r :: c == theme || (c in classes && c != LIGHT && c != DARK)
  {
    classes - {LIGHT, DARK} + {theme}
  }

  /** Applying the same theme twice is the same as applying it once. */
  lemma ApplyIsIdempotent(classes: set<string>, theme: string)
    ensures AppliedClasses(AppliedClasses(classes, theme), theme) == AppliedClasses(classes, theme)
  {
  }

  /** The class list after applying a theme does not depend on which theme was applied
      before. */
  lemma ApplyForgetsPreviousTheme(classes: set<string>, t1: string, t2: string)
    requires t1 in {LIGHT, DARK}
    ensures AppliedClasses(AppliedClasses(classes, t1), t2) == AppliedClasses(classes, t2)
  {
  }

  class ThemeController {
    var theme: string
    var rootClasses: set<string>
    var storage: map<string, string>

    /** The effect has run for the current theme. */
    ghost predicate Valid()
      reads this
    {
      && theme != ""
      && theme in rootClasses
      && (theme == LIGHT ==> DARK !in rootClasses)
      && (theme == DARK ==> LIGHT !in rootClasses)
      && GetItem(storage, THEME_KEY) == Some(theme)
    }

    /** Mounting: the initial theme is chosen, then the effect runs once. */
    constructor (storage: map<string, string>, prefersDark: bool, rootClasses: set<string>)
      ensures Valid()
      ensures theme == InitialTheme(GetItem(storage, THEME_KEY), prefersDark)
      ensures this.rootClasses == AppliedClasses(rootClasses, theme)
      ensures this.storage == storage[THEME_KEY := theme]
    {
      theme := InitialTheme(GetItem(storage, THEME_KEY), prefersDark);
      this.rootClasses := rootClasses;
      this.storage := storage;
      new;
      ApplyTheme();
    }

    /** The effect: rewrite the root's theme class and save the theme. */
    method ApplyTheme()
      requires theme != ""
      modifies this
      ensures Valid()
      ensures theme == old(theme)
      ensures rootClasses == AppliedClasses(old(rootClasses), theme)
      ensures storage == old(storage)[THEME_KEY := theme]
    {
      rootClasses := rootClasses - {LIGHT, DARK};
      rootClasses := rootClasses + {theme};
      storage := storage[THEME_KEY := theme];
    }

    /** `toggleTheme`; the theme always changes, so the effect runs after it. */
    method ToggleTheme()
      requires Valid()
      modifies this
      ensures Valid()
      ensures theme == Toggled(old(theme))
      ensures rootClasses == AppliedClasses(old(rootClasses), theme)
      ensures storage == old(storage)[THEME_KEY := theme]
    {
      theme := Toggled(theme);
      ApplyTheme();
    }

    /** `setTheme(t)`; the effect runs only when the theme actually changes. */
    method SetTheme(t: string)
      requires Valid() && t != ""
      modifies this
      ensures Valid()
      ensures theme == t
      ensures t != old(theme) ==>
        rootClasses == AppliedClasses(old(rootClasses), t) && storage == old(storage)[THEME_KEY := t]
      ensures t == old(theme) ==> rootClasses == old(rootClasses) && storage == old(storage)
    {
      if t != theme {
        theme := t;
        ApplyTheme();
      }
    }
  }

  /** What the effect saves is what the next page load starts from, whatever the
      system preference then is. */
  lemma SavedThemeIsRestored(storage: map<string, string>, theme: string, prefersDark: bool)
    requires theme != ""
    ensures InitialTheme(GetItem(storage[THEME_KEY := theme], THEME_KEY), prefersDark) == theme
  {
  }
}
