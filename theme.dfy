/** Light and dark theme selection: the body's `light`/`dark` classes, the
    sun/moon classes of the desktop and mobile theme icons, and the `theme`
    entry of the browser's key-value storage. */
module Theme {

  /** The storage key that holds the chosen theme. */
  const ThemeKey: string := "theme"

  datatype Mode = Light | Dark

  /** The name `setTheme` stores for a mode. */
  function Name(m: Mode): string {
    match m
    case Light => "light"
    case Dark => "dark"
  }

  /** The mode `setTheme` applies for a requested name: `"dark"` is dark and
      every other string, including unknown ones, is light. */
  function ModeOf(theme: string): (m: Mode)
    ensures m == Dark <==> theme == "dark"
  {
    if theme == "dark" then Dark else Light
  }

  /** An icon's `fa-sun` and `fa-moon` classes. */
  datatype Icon = Icon(sun: bool, moon: bool)

  /** Everything the theme code reads or writes. */
  datatype Page = Page(light: bool, dark: bool, icon: Icon, mobileIcon: Icon, storage: map<string, string>)

  /** The page shows mode `m` consistently: exactly the matching body class,
      the matching icon on both buttons, and the mode's name stored. */
  predicate Shows(p: Page, m: Mode) {
    && p.light == (m == Light) && p.dark == (m == Dark)
    && p.icon == Icon(m == Light, m == Dark)
    && p.mobileIcon == Icon(m == Light, m == Dark)
    && ThemeKey in p.storage && p.storage[ThemeKey] == Name(m)
  }

  /** The storage is unchanged except, possibly, at the theme key. */
  predicate OtherKeysKept(before: map<string, string>, after: map<string, string>) {
    && (forall k :: k in before && k != ThemeKey ==> k in after && after[k] == before[k])
    && (forall k :: k in after && k != ThemeKey ==> k in before)
  }

  /** `setTheme(theme)`: shows the requested mode (dark exactly for
      `"dark"`), stores its name, normalising unknown names to `"light"`, and
      leaves the other stored entries alone. */
  function ApplyTheme(p: Page, theme: string): (r: Page)
    ensures Shows(r, ModeOf(theme))
    ensures OtherKeysKept(p.storage, r.storage)
  {
    if theme == "dark" then
      Page(false, true, Icon(false, true), Icon(false, true), p.storage[ThemeKey := "dark"])
    else
      Page(true, false, Icon(true, false), Icon(true, false), p.storage[ThemeKey := "light"])
  }

  /** The name `initializeTheme` passes to `setTheme`: a non-empty saved value
      wins, then the system's dark preference, then light. */
  function InitialChoice(storage: map<string, string>, prefersDark: bool): string {
    if ThemeKey in storage && storage[ThemeKey] != "" then storage[ThemeKey]
    else if prefersDark then "dark"
    else "light"
  }

  /** Whether the storage holds a usable saved theme (an empty string is
      treated as absent, as the truthiness test does). */
  predicate HasSaved(storage: map<string, string>) {
    ThemeKey in storage && storage[ThemeKey] != ""
  }

  /** `initializeTheme()`, with `window.matchMedia('(prefers-color-scheme:
      dark)').matches` given as `prefersDark`. */
  function InitialTheme(p: Page, prefersDark: bool): (r: Page)
    ensures HasSaved(p.storage) ==> Shows(r, ModeOf(p.storage[ThemeKey]))
    ensures !HasSaved(p.storage) && prefersDark ==> Shows(r, Dark)
    ensures !HasSaved(p.storage) && !prefersDark ==> Shows(r, Light)
  {
    ApplyTheme(p, InitialChoice(p.storage, prefersDark))
  }

  /** The click handler of either theme button (they are identical): dark
      when the body is light, light otherwise. */
  function Toggle(p: Page): (r: Page)
    ensures p.light ==> Shows(r, Dark)
    ensures !p.light ==> Shows(r, Light)
  {
    if p.light then ApplyTheme(p, "dark") else ApplyTheme(p, "light")
  }

  /** The other mode. */
  function Other(m: Mode): Mode {
    if m == Light then Dark else Light
  }

  // ---------------------------------------------------------------------
  // Properties

  /** Requesting a mode by its stored name applies that mode. */
  lemma NameRoundTrip(m: Mode)
    ensures ModeOf(Name(m)) == m
  {
  }

  /** Two pages that show the same mode and agree on the other stored keys
      are the same page. */
  lemma ShowsDetermines(p: Page, q: Page, m: Mode)
    requires Shows(p, m) && Shows(q, m) && OtherKeysKept(p.storage, q.storage)
    ensures p == q
  {
    assert p.storage == q.storage;
  }

  /** On a page that shows a mode, a click switches to the other mode. */
  lemma ToggleSwitches(p: Page, m: Mode)
    requires Shows(p, m)
    ensures Shows(Toggle(p), Other(m))
  {
  }

  /** On a page that shows a mode, two clicks give back exactly the same page,
      storage included. */
  lemma ToggleTwice(p: Page, m: Mode)
    requires Shows(p, m)
    ensures Toggle(Toggle(p)) == p
  {
    ToggleSwitches(p, m);
    ToggleSwitches(Toggle(p), Other(m));
    assert Other(Other(m)) == m;
    OtherKeysFromTwoSteps(p.storage, Toggle(p).storage, Toggle(Toggle(p)).storage);
    ShowsDetermines(Toggle(Toggle(p)), p, m);
  }

  /** Keeping the other keys composes (in the reverse direction here). */
  lemma OtherKeysFromTwoSteps(a: map<string, string>, b: map<string, string>, c: map<string, string>)
    requires OtherKeysKept(a, b) && OtherKeysKept(b, c)
    ensures OtherKeysKept(c, a)
  {
  }

  /** Applying a theme twice is the same as applying it once. */
  lemma ApplyThemeIdempotent(p: Page, theme: string)
    ensures ApplyTheme(ApplyTheme(p, theme), theme) == ApplyTheme(p, theme)
  {
    var once := ApplyTheme(p, theme);
    var twice := ApplyTheme(once, theme);
    ShowsDetermines(twice, once, ModeOf(theme));
  }

  /** A reload keeps the theme: a fresh page (any classes, any icons) that
      finds the storage a themed page left behind shows the same mode,
      whatever the system preference. */
  lemma ReloadRestoresTheme(before: Page, reloaded: Page, m: Mode, prefersDark: bool)
    requires Shows(before, m)
    ensures Shows(InitialTheme(reloaded.(storage := before.storage), prefersDark), m)
  {
    NameRoundTrip(m);
  }

  // ---------------------------------------------------------------------
  // The page's mutable state

  /** The document body, the two icons and the storage, changed in place by
      the theme functions and handlers. */
  class ThemeSwitcher {
    var bodyLight: bool
    var bodyDark: bool
    var iconSun: bool
    var iconMoon: bool
    var mobileIconSun: bool
    var mobileIconMoon: bool
    var storage: map<string, string>

    function State(): Page
      reads this
    {
      Page(bodyLight, bodyDark, Icon(iconSun, iconMoon), Icon(mobileIconSun, mobileIconMoon), storage)
    }

    /** The page as loaded from the markup, before the script runs. */
    constructor (initial: Page)
      ensures State() == initial
    {
      bodyLight, bodyDark := initial.light, initial.dark;
      iconSun, iconMoon := initial.icon.sun, initial.icon.moon;
      mobileIconSun, mobileIconMoon := initial.mobileIcon.sun, initial.mobileIcon.moon;
      storage := initial.storage;
    }

    /** `setTheme(theme)`: the class-list edits and the storage write. */
    method SetTheme(theme: string)
      modifies this
      ensures State() == ApplyTheme(old(State()), theme)
    {
      if theme == "dark" {
        bodyLight := false;
        bodyDark := true;
        iconSun := false;
        iconMoon := true;
        mobileIconSun := false;
        mobileIconMoon := true;
        storage := storage[ThemeKey := "dark"];
      } else {
        bodyDark := false;
        bodyLight := true;
        iconMoon := false;
        iconSun := true;
        mobileIconMoon := false;
        mobileIconSun := true;
        storage := storage[ThemeKey := "light"];
      }
    }

    /** `initializeTheme()` as it runs when the script loads. */
    method InitializeTheme(prefersDark: bool)
      modifies this
      ensures State() == InitialTheme(old(State()), prefersDark)
    {
      var savedTheme := if ThemeKey in storage then storage[ThemeKey] else "";
      if savedTheme != "" {
        SetTheme(savedTheme);
      } else if prefersDark {
        SetTheme("dark");
      } else {
        SetTheme("light");
      }
    }

    /** A click on the desktop or the mobile theme button. */
    method ToggleClick()
      modifies this
      ensures State() == Toggle(old(State()))
    {
      if bodyLight {
        SetTheme("dark");
      } else {
        SetTheme("light");
      }
    }
  }
}
