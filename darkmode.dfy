/**
 * The theme controller of dark-mode.js. The root element carries the
 * `dark-mode` class and a `data-theme` attribute; the chosen theme is kept
 * in local storage under one key; a toggle button, if present, shows a
 * moon or a sun icon and a title naming the theme a click switches to.
 *
 * `Page` is the value of everything the script reads and writes; the class
 * `ThemeController` holds it in fields and updates it as the script does.
 * The system colour-scheme preference is an input to the handlers rather
 * than a query.
 */
module DarkMode {
  import opened Optional

  /** The local-storage key (dark-mode.js:21). */
  const ThemeKey: string := "agust-islandia-theme"

  datatype Page = Page(
    darkClass: bool,                 // the root element has the `dark-mode` class
    dataTheme: Option<string>,       // the root element's data-theme attribute
    storage: map<string, string>,    // local storage
    hasToggle: bool,                 // `#theme-toggle` exists
    title: Option<string>,           // the toggle's title attribute
    moon: Option<string>,            // `#moon-path`'s style.display, None when the element is absent
    sunCircle: Option<string>,       // `#sun-circle`'s style.display, likewise
    sunRays: Option<string>,         // `#sun-rays`'s style.display, likewise
    hasAnnouncer: bool,              // `#sr-announcements` exists
    announcement: string,            // its text
    systemListener: bool)            // the media query offers addEventListener (dark-mode.js:133)

  /** `localStorage.getItem(THEME_KEY)`: None when the key is absent. */
  function Saved(pg: Page): Option<string>
  {
    if ThemeKey in pg.storage then Some(pg.storage[ThemeKey]) else None
  }

  /** JavaScript truthiness of a `getItem` result: present and not "". */
  predicate Truthy(v: Option<string>)
  {
    v.Some? && v.value != ""
  }

  // ---------------------------------------------------------------------
  // The pure pieces

  /** The title a toggle shows: the theme a click switches to (dark-mode.js:90, 96). */
  function ToggleTitle(isDark: bool): (r: string)
    ensures r == "Switch to light mode" <==> isDark
    ensures r == "Switch to dark mode" <==> !isDark
  {
    if isDark then "Switch to light mode" else "Switch to dark mode"
  }

  /** The screen-reader text for a theme (dark-mode.js:113). */
  function Announcement(theme: string): (r: string)
    ensures r == "Dark mode enabled" <==> theme == "dark"
    ensures r != "Dark mode enabled" ==> r == "Light mode enabled"
  {
    if theme == "dark" then "Dark mode enabled" else "Light mode enabled"
  }

  /** An icon set to be shown or not; a missing element is skipped (dark-mode.js:87-89, 93-95). */
  function ShowIcon(icon: Option<string>, shown: bool): (r: Option<string>)
    ensures r.Some? <==> icon.Some?
    ensures r.Some? ==> (r.value == "block" <==> shown) && (r.value == "none" <==> !shown)
  {
    match icon
    case None => None
    case Some(_) => Some(if shown then "block" else "none")
  }

  // ---------------------------------------------------------------------
  // The script's functions on a page

  /** `updateToggleIcon(isDarkMode)`: sun for dark, moon for light; nothing without a toggle (dark-mode.js:77-98). */
  function WithToggleIcon(pg: Page, isDark: bool): (r: Page)
  {
    if !pg.hasToggle then pg
    else pg.(moon := ShowIcon(pg.moon, !isDark), sunCircle := ShowIcon(pg.sunCircle, isDark),
             sunRays := ShowIcon(pg.sunRays, isDark), title := Some(ToggleTitle(isDark)))
  }

  /** `announceThemeChange(theme)`; the 1000 ms clearing timer is not modelled (dark-mode.js:112-123). */
  function Announced(pg: Page, theme: string): Page
  {
    if pg.hasAnnouncer then pg.(announcement := Announcement(theme)) else pg
  }

  /**
   * `setTheme(theme)` (dark-mode.js:55-71). Only "dark" gives the dark look;
   * any other string gives the light one, yet is stored exactly as given.
   */
  function ThemeSet(pg: Page, theme: string): (r: Page)
    ensures r.darkClass <==> theme == "dark"
    ensures r.dataTheme == Some(if theme == "dark" then "dark" else "light")
    ensures r.storage == pg.storage[ThemeKey := theme] && Saved(r) == Some(theme)
    ensures r.hasAnnouncer ==> r.announcement == Announcement(theme)
    ensures r.hasToggle ==> r.title == Some(ToggleTitle(theme == "dark"))
    ensures r.hasToggle == pg.hasToggle && r.hasAnnouncer == pg.hasAnnouncer && r.systemListener == pg.systemListener
  {
    var isDark := theme == "dark";
    var applied := WithToggleIcon(pg.(darkClass := isDark, dataTheme := Some(if isDark then "dark" else "light")), isDark);
    Announced(applied.(storage := applied.storage[ThemeKey := theme]), theme)
  }

  /** The theme the system preference gives (dark-mode.js:47, 137). */
  function SystemTheme(prefersDark: bool): string
  {
    if prefersDark then "dark" else "light"
  }

  /** `initTheme()`: a non-empty saved theme wins, else the system preference (dark-mode.js:37-49). */
  function Initialized(pg: Page, prefersDark: bool): (r: Page)
    ensures Saved(r) == Some(if Truthy(Saved(pg)) then Saved(pg).value else SystemTheme(prefersDark))
    ensures r.darkClass <==> (if Truthy(Saved(pg)) then Saved(pg).value == "dark" else prefersDark)
    ensures r.dataTheme == Some(if r.darkClass then "dark" else "light")
  {
    var saved := Saved(pg);
    if Truthy(saved) then ThemeSet(pg, saved.value)
    else ThemeSet(pg, SystemTheme(prefersDark))
  }

  /** `toggleTheme()`: the class, not storage, decides (dark-mode.js:103-106). */
  function Toggled(pg: Page): (r: Page)
    ensures r.darkClass == !pg.darkClass
    ensures Saved(r) == Some(if pg.darkClass then "light" else "dark")
  {
    ThemeSet(pg, if pg.darkClass then "light" else "dark")
  }

  /** The media-query change handler: applies the new preference only while nothing truthy is saved (dark-mode.js:129-141). */
  function SystemChanged(pg: Page, matches: bool): Page
  {
    if pg.systemListener && !Truthy(Saved(pg)) then ThemeSet(pg, SystemTheme(matches)) else pg
  }

  /** The toggle's click handler (dark-mode.js:167-168). */
  function Clicked(pg: Page): Page
  {
    if pg.hasToggle then Toggled(pg) else pg
  }

  /** The toggle's keydown handler: Space and Enter toggle (dark-mode.js:146-156). */
  function Keyed(pg: Page, key: string): Page
  {
    if pg.hasToggle && (key == " " || key == "Enter") then Toggled(pg) else pg
  }

  datatype Event = ToggleClick | ToggleKey(key: string) | SystemChange(matches: bool)

  function Step(pg: Page, e: Event): Page
  {
    match e
    case ToggleClick => Clicked(pg)
    case ToggleKey(key) => Keyed(pg, key)
    case SystemChange(matches) => SystemChanged(pg, matches)
  }

  function Run(pg: Page, evs: seq<Event>): Page
    decreases |evs|
  {
    if evs == [] then pg else Run(Step(pg, evs[0]), evs[1..])
  }

  /** The events other than system preference changes. */
  function WithoutSystemChanges(evs: seq<Event>): (r: seq<Event>)
    ensures |r| <= |evs|
    ensures forall k :: 0 <= k < |r| ==> !r[k].SystemChange?
    decreases |evs|
  {
    if evs == [] then []
    else if evs[0].SystemChange? then WithoutSystemChanges(evs[1..])
    else [evs[0]] + WithoutSystemChanges(evs[1..])
  }

  // ---------------------------------------------------------------------
  // Properties

  /** The stored value decides the look: after `setTheme` the class, the attribute and storage agree (dark-mode.js:56-67). */
  lemma SetThemeConsistent(pg: Page, theme: string)
    requires theme == "dark" || theme == "light"
    ensures var r := ThemeSet(pg, theme);
      r.dataTheme == Saved(r) && (r.darkClass <==> Saved(r) == Some("dark"))
  {
  }

  /** A later `setTheme` overrides an earlier one completely. */
  lemma SetThemeOverrides(pg: Page, a: string, b: string)
    ensures ThemeSet(ThemeSet(pg, a), b) == ThemeSet(pg, b)
  {
    var once := ThemeSet(pg, a);
    assert once.storage[ThemeKey := b] == pg.storage[ThemeKey := b];
    var isDark := b == "dark";
    var icons1 := WithToggleIcon(once.(darkClass := isDark, dataTheme := Some(if isDark then "dark" else "light")), isDark);
    var icons0 := WithToggleIcon(pg.(darkClass := isDark, dataTheme := Some(if isDark then "dark" else "light")), isDark);
    assert icons1.(storage := pg.storage[ThemeKey := b], announcement := pg.announcement)
      == icons0.(storage := pg.storage[ThemeKey := b], announcement := pg.announcement);
  }

  /** Toggling twice restores the look the class had and stores it by name (dark-mode.js:104-105, 67). */
  lemma ToggleTwice(pg: Page)
    ensures var r := Toggled(Toggled(pg));
      r == ThemeSet(pg, if pg.darkClass then "dark" else "light") && r.darkClass == pg.darkClass
  {
    SetThemeOverrides(pg, if pg.darkClass then "light" else "dark", if pg.darkClass then "dark" else "light");
  }

  /** After a toggle the stored value names the applied theme. */
  lemma ToggleStoresAppliedTheme(pg: Page)
    ensures var r := Toggled(pg);
      Saved(r) == r.dataTheme && (r.darkClass <==> Saved(r) == Some("dark"))
  {
    SetThemeConsistent(pg, if pg.darkClass then "light" else "dark");
  }

  /** Initialisation always leaves a non-empty value saved (dark-mode.js:41-48, 67). */
  lemma InitSavesTheme(pg: Page, prefersDark: bool)
    ensures Truthy(Saved(Initialized(pg, prefersDark)))
  {
  }

  /** A saved theme survives every event, the system change handler included. */
  lemma StepKeepsSaved(pg: Page, e: Event)
    requires Truthy(Saved(pg))
    ensures Truthy(Saved(Step(pg, e)))
    ensures e.SystemChange? ==> Step(pg, e) == pg
  {
  }

  /**
   * Once a theme is saved, system preference changes are ignored for good:
   * any run does what the same run without them does (dark-mode.js:136, 67).
   */
  lemma {:induction false} SystemChangesIgnored(pg: Page, evs: seq<Event>)
    requires Truthy(Saved(pg))
    ensures Run(pg, evs) == Run(pg, WithoutSystemChanges(evs))
    ensures Truthy(Saved(Run(pg, evs)))
    decreases |evs|
  {
    if evs != [] {
      StepKeepsSaved(pg, evs[0]);
      SystemChangesIgnored(Step(pg, evs[0]), evs[1..]);
      if !evs[0].SystemChange? {
        var rest := WithoutSystemChanges(evs[1..]);
        assert ([evs[0]] + rest)[0] == evs[0] && ([evs[0]] + rest)[1..] == rest;
      }
    }
  }

  /** In particular the system change handler never applies a theme after initialisation. */
  lemma SystemChangeDeadAfterInit(pg: Page, prefersDark: bool, evs: seq<Event>, matches: bool)
    ensures var r := Run(Initialized(pg, prefersDark), evs); SystemChanged(r, matches) == r
  {
    InitSavesTheme(pg, prefersDark);
    SystemChangesIgnored(Initialized(pg, prefersDark), evs);
  }

  /** Space and Enter act exactly like a click; other keys do nothing (dark-mode.js:151-153, 168). */
  lemma KeysActAsClick(pg: Page, key: string)
    ensures Keyed(pg, key) == if key == " " || key == "Enter" then Clicked(pg) else pg
  {
  }

  /** Without a toggle button the icons and title are never touched. */
  lemma NoToggleKeepsIcons(pg: Page, theme: string)
    requires !pg.hasToggle
    ensures var r := ThemeSet(pg, theme);
      r.title == pg.title && r.moon == pg.moon && r.sunCircle == pg.sunCircle && r.sunRays == pg.sunRays
  {
  }

  /** With a toggle the moon shows exactly in the light look and the sun parts exactly in the dark look. */
  lemma IconsFollowTheme(pg: Page, theme: string)
    requires pg.hasToggle
    ensures var r := ThemeSet(pg, theme);
      (r.moon.Some? ==> (r.moon == Some("block") <==> !r.darkClass)) &&
      (r.sunCircle.Some? ==> (r.sunCircle == Some("block") <==> r.darkClass)) &&
      (r.sunRays.Some? ==> (r.sunRays == Some("block") <==> r.darkClass)) &&
      r.moon.Some? == pg.moon.Some? && r.sunCircle.Some? == pg.sunCircle.Some? && r.sunRays.Some? == pg.sunRays.Some?
  {
  }

  /**
   * A visitor who picked light keeps it when the system turns dark, and a
   * reload keeps it too: the saved choice beats the preference.
   */
  lemma ManualChoiceBeatsSystem(pg: Page, reloadPrefersDark: bool)
    requires pg.hasToggle && pg.systemListener && !pg.darkClass
    ensures var chosen := Clicked(Clicked(pg));
      var later := SystemChanged(chosen, true);
      !chosen.darkClass && later == chosen && !Initialized(later, reloadPrefersDark).darkClass
  {
    ToggleTwice(pg);
  }

  // ---------------------------------------------------------------------
  // The controller as the script holds it

  class ThemeController {
    var darkClass: bool
    var dataTheme: Option<string>
    var storage: map<string, string>
    const hasToggle: bool
    var title: Option<string>
    var moon: Option<string>
    var sunCircle: Option<string>
    var sunRays: Option<string>
    const hasAnnouncer: bool
    var announcement: string
    const systemListener: bool

    function State(): Page
      reads this
    {
      Page(darkClass, dataTheme, storage, hasToggle, title, moon, sunCircle, sunRays,
           hasAnnouncer, announcement, systemListener)
    }

    /** The document as served, before the script runs. */
    constructor (initial: Page)
      ensures State() == initial
    {
      darkClass := initial.darkClass;
      dataTheme := initial.dataTheme;
      storage := initial.storage;
      hasToggle := initial.hasToggle;
      title := initial.title;
      moon := initial.moon;
      sunCircle := initial.sunCircle;
      sunRays := initial.sunRays;
      hasAnnouncer := initial.hasAnnouncer;
      announcement := initial.announcement;
      systemListener := initial.systemListener;
    }

    /** `updateToggleIcon` (dark-mode.js:77-98). */
    method UpdateToggleIcon(isDark: bool)
      modifies this
      ensures State() == WithToggleIcon(old(State()), isDark)
    {
      if !hasToggle {
        return;
      }
      if isDark {
        if moon.Some? { moon := Some("none"); }
        if sunCircle.Some? { sunCircle := Some("block"); }
        if sunRays.Some? { sunRays := Some("block"); }
        title := Some("Switch to light mode");
      } else {
        if moon.Some? { moon := Some("block"); }
        if sunCircle.Some? { sunCircle := Some("none"); }
        if sunRays.Some? { sunRays := Some("none"); }
        title := Some("Switch to dark mode");
      }
    }

    /** `announceThemeChange` (dark-mode.js:112-123). */
    method AnnounceThemeChange(theme: string)
      modifies this
      ensures State() == Announced(old(State()), theme)
    {
      var text := if theme == "dark" then "Dark mode enabled" else "Light mode enabled";
      if hasAnnouncer {
        announcement := text;
      }
    }

    /** `setTheme` (dark-mode.js:55-71). */
    method SetTheme(theme: string)
      modifies this
      ensures State() == ThemeSet(old(State()), theme)
    {
      if theme == "dark" {
        darkClass := true;
        dataTheme := Some("dark");
        UpdateToggleIcon(true);
      } else {
        darkClass := false;
        dataTheme := Some("light");
        UpdateToggleIcon(false);
      }
      storage := storage[ThemeKey := theme];
      AnnounceThemeChange(theme);
    }

    /** `initTheme`, with the system preference as an input (dark-mode.js:37-49). */
    method InitTheme(prefersDark: bool)
      modifies this
      ensures State() == Initialized(old(State()), prefersDark)
    {
      var savedTheme := if ThemeKey in storage then Some(storage[ThemeKey]) else None;
      if savedTheme.Some? && savedTheme.value != "" {
        SetTheme(savedTheme.value);
      } else {
        SetTheme(if prefersDark then "dark" else "light");
      }
    }

    /** `toggleTheme` (dark-mode.js:103-106). */
    method ToggleTheme()
      modifies this
      ensures State() == Toggled(old(State()))
    {
      var isDarkMode := darkClass;
      SetTheme(if isDarkMode then "light" else "dark");
    }

    /** The media-query change listener (dark-mode.js:133-140). */
    method SystemChange(matches: bool)
      modifies this
      ensures State() == SystemChanged(old(State()), matches)
    {
      if !systemListener {
        return;
      }
      var saved := if ThemeKey in storage then Some(storage[ThemeKey]) else None;
      if !(saved.Some? && saved.value != "") {
        SetTheme(if matches then "dark" else "light");
      }
    }

    /** The toggle's click listener (dark-mode.js:167-168). */
    method Click()
      modifies this
      ensures State() == Clicked(old(State()))
    {
      if hasToggle {
        ToggleTheme();
      }
    }

    /** The toggle's keydown listener (dark-mode.js:149-155). */
    method Key(key: string)
      modifies this
      ensures State() == Keyed(old(State()), key)
    {
      if !hasToggle {
        return;
      }
      if key == " " || key == "Enter" {
        ToggleTheme();
      }
    }
  }
}
