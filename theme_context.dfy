/**
 * Theme selection: the user's mode preference, the dark/light decision it makes together
 * with the system color scheme, the palette that decision picks, and the provider object
 * that holds the mode and persists it in a key-value store.
 */
module ThemeContext {
  import opened Types

  /** The three modes a user can choose. */
  datatype ThemeMode = Light | Dark | System

  /** What the platform reports as its color scheme; `NoScheme` where it reports none. */
  datatype ColorScheme = SchemeLight | SchemeDark | NoScheme

  /** The key the preference is saved under. */
  const ThemeKey := "themeMode"

  /** The text a mode is saved as: always one of the three names a later load accepts. */
  function ModeName(mode: ThemeMode): (name: string)
    ensures name in {"light", "dark", "system"}
  {
    match mode
    case Light => "light"
    case Dark => "dark"
    case System => "system"
  }

  /**
   * The mode a saved value denotes: only the three exact names are accepted; anything
   * else, and a missing value, denotes none.
   */
  function ParseSavedTheme(saved: Option<string>): (r: Option<ThemeMode>)
    ensures r.Some? <==> saved.Some? && saved.value in {"light", "dark", "system"}
    ensures r.Some? ==> ModeName(r.value) == saved.value
  {
    match saved
    case None => None
    case Some(s) =>
      if s == "light" then Some(Light)
      else if s == "dark" then Some(Dark)
      else if s == "system" then Some(System)
      else None
  }

  /** A saved mode reads back as itself. */
  lemma SavedModeReadsBack(mode: ThemeMode)
    ensures ParseSavedTheme(Some(ModeName(mode))) == Some(mode)
  {
  }

  /** Different modes are saved as different texts. */
  lemma ModeNameInjective(m1: ThemeMode, m2: ThemeMode)
    ensures ModeName(m1) == ModeName(m2) <==> m1 == m2
  {
    if m1 != m2 {
      SavedModeReadsBack(m1);
      SavedModeReadsBack(m2);
    }
  }

  // ---------------------------------------------------------------------------
  // Dark or light
  // ---------------------------------------------------------------------------

  /** `isDark`: the dark mode, or the system mode on a platform that reports a dark scheme. */
  function IsDark(mode: ThemeMode, system: ColorScheme): (b: bool)
    ensures mode == Dark ==> b
    ensures mode == Light ==> !b
    ensures mode == System ==> (b <==> system == SchemeDark)
  {
    mode == Dark || (mode == System && system == SchemeDark)
  }

  /** Only the system mode follows the platform: an explicit choice ignores the reported scheme. */
  lemma ExplicitModeIgnoresSystem(mode: ThemeMode, s1: ColorScheme, s2: ColorScheme)
    requires mode != System
    ensures IsDark(mode, s1) == IsDark(mode, s2)
  {
  }

  /** The system mode on a platform that reports no scheme is light. */
  lemma NoSchemeIsLight()
    ensures !IsDark(System, NoScheme)
  {
  }

  // ---------------------------------------------------------------------------
  // The palette
  // ---------------------------------------------------------------------------

  /** The twelve named colors of the theme. */
  datatype Palette = Palette(
    primary: string,
    secondary: string,
    accent: string,
    background: string,
    card: string,
    text: string,
    border: string,
    notification: string,
    success: string,
    warning: string,
    error: string,
    muted: string)

  /**
   * `colors`: each field picked by `isDark` alone. Four colors do not depend on it, and the
   * notification color is always the error color.
   */
  function Colors(isDark: bool): (c: Palette)
    ensures c.primary == "#3174F0" && c.secondary == "#20B2AA" && c.accent == "#FF7F50"
    ensures c.muted == "#8E8E93"
    ensures c.notification == c.error
  {
    Palette(
      primary := "#3174F0",
      secondary := "#20B2AA",
      accent := "#FF7F50",
      background := if isDark then "#121212" else "#FFFFFF",
      card := if isDark then "#1E1E1E" else "#F9F9F9",
      text := if isDark then "#F5F5F5" else "#1A1A1A",
      border := if isDark then "#2C2C2C" else "#E1E1E1",
      notification := if isDark then "#FF453A" else "#FF3B30",
      success := if isDark then "#30D158" else "#34C759",
      warning := if isDark then "#FFD60A" else "#FFCC00",
      error := if isDark then "#FF453A" else "#FF3B30",
      muted := if isDark then "#8E8E93" else "#8E8E93")
  }

  /** Every other color differs between the palettes, so it tells which one is in use. */
  lemma SchemeColorsDiffer()
    ensures var dark, light := Colors(true), Colors(false);
      && dark.background != light.background
      && dark.card != light.card
      && dark.text != light.text
      && dark.border != light.border
      && dark.notification != light.notification
      && dark.success != light.success
      && dark.warning != light.warning
      && dark.error != light.error
  {
    var dark, light := Colors(true), Colors(false);
    assert dark.background[1] != light.background[1];
    assert dark.card[1] != light.card[1];
    assert dark.text[1] != light.text[1];
    assert dark.border[1] != light.border[1];
    assert dark.notification[4] != light.notification[4];
    assert dark.success[2] != light.success[2];
    assert dark.warning[4] != light.warning[4];
    assert dark.error[4] != light.error[4];
  }

  /** What the context hands to its consumers. */
  datatype ThemeValue = ThemeValue(theme: ThemeMode, isDark: bool, colors: Palette)

  /** The value a consumer outside any provider receives, with its own copy of the light colors. */
  const DefaultValue := ThemeValue(
    System,
    false,
    Palette(
      primary := "#3174F0",
      secondary := "#20B2AA",
      accent := "#FF7F50",
      background := "#FFFFFF",
      card := "#F9F9F9",
      text := "#1A1A1A",
      border := "#E1E1E1",
      notification := "#FF3B30",
      success := "#34C759",
      warning := "#FFCC00",
      error := "#FF3B30",
      muted := "#8E8E93"))

  /**
   * The default agrees with what a fresh provider shows on a platform that reports no dark
   * scheme: system mode, not dark, and the light palette field for field.
   */
  lemma DefaultIsFreshLight(system: ColorScheme)
    requires system != SchemeDark
    ensures DefaultValue == ThemeValue(System, IsDark(System, system), Colors(IsDark(System, system)))
  {
  }

  // ---------------------------------------------------------------------------
  // The provider
  // ---------------------------------------------------------------------------

  /** The platform's secure store (or `localStorage` on the web): text values by key. */
  class KeyValueStore {
    var entries: map<string, string>

    constructor (entries: map<string, string>)
      ensures this.entries == entries
    {
      this.entries := entries;
    }

    /** `getItem(key)`: the value, or `None` where the key is missing. */
    function Get(key: string): (r: Option<string>)
      reads this
      ensures r.Some? <==> key in entries
      ensures r.Some? ==> r.value == entries[key]
    {
      if key in entries then Some(entries[key]) else None
    }
  }

  /** `ThemeProvider`: the chosen mode and the store it is persisted in. */
  class ThemeProvider {
    var theme: ThemeMode
    const store: KeyValueStore

    /** A provider starts in the system mode, before the saved preference is loaded. */
    constructor (store: KeyValueStore)
      ensures theme == System && this.store == store
    {
      theme := System;
      this.store := store;
    }

    /** The value the provider hands to its consumers, given the platform's scheme. */
    function Value(system: ColorScheme): (v: ThemeValue)
      reads this
      ensures v.theme == theme
      ensures v.isDark <==> theme == Dark || (theme == System && system == SchemeDark)
      ensures v.colors == Colors(v.isDark)
    {
      var dark := IsDark(theme, system);
      ThemeValue(theme, dark, Colors(dark))
    }

    /**
     * `loadTheme`: adopts the saved preference when it is one of the three names; a missing
     * or unknown value, or a failed read, leaves the mode alone.
     */
    method LoadTheme(readFails: bool)
      modifies this
      ensures readFails ==> theme == old(theme)
      ensures !readFails && ParseSavedTheme(store.Get(ThemeKey)).Some? ==>
        theme == ParseSavedTheme(store.Get(ThemeKey)).value
      ensures !readFails && ParseSavedTheme(store.Get(ThemeKey)).None? ==> theme == old(theme)
    {
      if readFails {
        return;
      }
      var saved := store.Get(ThemeKey);
      match ParseSavedTheme(saved)
      case Some(mode) => theme := mode;
      case None =>
    }

    /** `setTheme(mode)`: switches at once, then saves; a failed save is swallowed and not undone. */
    method SetTheme(mode: ThemeMode, writeFails: bool)
      modifies this, store
      ensures theme == mode
      ensures writeFails ==> store.entries == old(store.entries)
      ensures !writeFails ==> store.entries == old(store.entries)[ThemeKey := ModeName(mode)]
    {
      theme := mode;
      if !writeFails {
        store.entries := store.entries[ThemeKey := ModeName(mode)];
      }
    }
  }

  /** A mode set and saved is the mode a later provider on the same store loads. */
  method ReloadRestoresTheme(store: KeyValueStore, mode: ThemeMode) returns (restored: ThemeMode)
    modifies store
    ensures restored == mode
  {
    var first := new ThemeProvider(store);
    first.SetTheme(mode, false);
    var second := new ThemeProvider(store);
    second.LoadTheme(false);
    SavedModeReadsBack(mode);
    restored := second.theme;
  }
}
