/**
 * The light/dark theme switch (Config/static/js/theme-toggle.js). The
 * `ThemeToggle` object keeps the current theme; `localStorage`, the
 * `data-theme` attribute and the `theme-color` meta tag are fields of the
 * model, and the system preference is a parameter. The toggle button, the
 * notification toast and the `themeChanged` event are left out.
 */
module ThemeSwitch {
  import opened Common

  const StorageKey := "ferrejunior-theme"

  /** The theme the button switches to: 'dark' from 'light', 'light' from anything else. */
  function Toggled(theme: string): (t: string)
    ensures t in {"light", "dark"}
    ensures t == "dark" <==> theme == "light"
  {
    if theme == "light" then "dark" else "light"
  }

  /** Toggling twice restores 'light' or 'dark'; any other theme ends up 'dark'. */
  lemma ToggleTwice(theme: string)
    ensures theme in {"light", "dark"} ==> Toggled(Toggled(theme)) == theme
    ensures theme !in {"light", "dark"} ==> Toggled(Toggled(theme)) == "dark"
    ensures Toggled(theme) != theme || theme !in {"light", "dark"}
  {
  }

  /** The system preference as `matchMedia` reports it. */
  function SystemTheme(prefersDark: bool): string {
    if prefersDark then "dark" else "light"
  }

  /** `init`: a truthy stored theme wins over the system preference. */
  function InitialTheme(stored: Option<string>, prefersDark: bool): (t: string)
    ensures stored.Some? && stored.value != "" ==> t == stored.value
    ensures stored.None? || stored.value == "" ==> t == SystemTheme(prefersDark)
    ensures t != ""
  {
    if stored.Some? && stored.value != "" then stored.value else SystemTheme(prefersDark)
  }

  /** `updateMetaThemeColor`: dark navy for 'dark', white for anything else. */
  function MetaColor(theme: string): (c: string)
    ensures c == "#0f172a" <==> theme == "dark"
  {
    if theme == "dark" then "#0f172a" else "#ffffff"
  }

  /** The toast `toggleTheme` shows for the theme it switched to. */
  function ToggleMessage(newTheme: string): (m: string)
    ensures newTheme == "dark" ==> m == "Modo Oscuro activado"
    ensures newTheme != "dark" ==> m == "Modo Claro activado"
  {
    "Modo " + (if newTheme == "dark" then "Oscuro" else "Claro") + " activado"
  }

  class ThemeToggle {
    var currentTheme: string
    /** `localStorage['ferrejunior-theme']`. */
    var stored: Option<string>
    /** The `data-theme` attribute of the document element. */
    var dataTheme: string
    /** The `theme-color` meta tag's content. */
    var metaColor: string

    /**
     * Once a theme has been applied the page agrees with it everywhere and it
     * is stored, non-empty.
     */
    predicate Valid()
      reads this
    {
      stored == Some(currentTheme) && currentTheme != "" && dataTheme == currentTheme && metaColor == MetaColor(currentTheme)
    }

    /** `constructor` and `init`: the initial theme is applied, and therefore stored. */
    constructor(stored0: Option<string>, prefersDark: bool)
      ensures Valid()
      ensures currentTheme == InitialTheme(stored0, prefersDark)
    {
      var theme := InitialTheme(stored0, prefersDark);
      currentTheme := theme;
      stored := Some(theme);
      dataTheme := theme;
      metaColor := MetaColor(theme);
    }

    /** `applyTheme`: the theme becomes current, is set on the page and stored. */
    method ApplyTheme(theme: string)
      modifies this
      ensures currentTheme == theme && stored == Some(theme)
      ensures dataTheme == theme && metaColor == MetaColor(theme)
      ensures theme != "" ==> Valid()
    {
      currentTheme := theme;
      dataTheme := theme;
      stored := Some(theme);
      metaColor := MetaColor(theme);
    }

    /** `toggleTheme`. */
    method ToggleTheme() returns (message: string)
      modifies this
      ensures Valid()
      ensures currentTheme == Toggled(old(currentTheme))
      ensures message == ToggleMessage(currentTheme)
    {
      var newTheme := Toggled(currentTheme);
      ApplyTheme(newTheme);
      message := ToggleMessage(newTheme);
    }

    /** `setTheme`: only 'light' and 'dark' are accepted; anything else changes nothing. */
    method SetTheme(theme: string) returns (accepted: bool)
      modifies this
      ensures accepted <==> theme in ["light", "dark"]
      ensures accepted ==> currentTheme == theme && stored == Some(theme) && Valid()
      ensures !accepted ==> currentTheme == old(currentTheme) && stored == old(stored)
                            && dataTheme == old(dataTheme) && metaColor == old(metaColor)
    {
      accepted := theme in ["light", "dark"];
      if accepted {
        ApplyTheme(theme);
      }
    }

    /** The system-preference listener: it applies the new preference only when nothing is stored. */
    method SystemPreferenceChanged(prefersDark: bool)
      modifies this
      ensures old(stored).None? || old(stored).value == "" ==> currentTheme == SystemTheme(prefersDark) && Valid()
      ensures old(Valid()) ==> currentTheme == old(currentTheme) && stored == old(stored)
                               && dataTheme == old(dataTheme) && metaColor == old(metaColor)
    {
      if stored.None? || stored.value == "" {
        ApplyTheme(SystemTheme(prefersDark));
      }
    }

    /** `resetToSystemPreference`: the stored choice is dropped and the system theme applied, hence stored again. */
    method ResetToSystemPreference(prefersDark: bool)
      modifies this
      ensures Valid() && currentTheme == SystemTheme(prefersDark)
    {
      stored := None;
      ApplyTheme(SystemTheme(prefersDark));
    }

    function GetTheme(): (t: string)
      reads this
      ensures t == currentTheme
    {
      currentTheme
    }

    /** `isDarkMode`. */
    function IsDarkMode(): (dark: bool)
      reads this
      ensures dark <==> currentTheme == "dark"
    {
      currentTheme == "dark"
    }
  }

  /**
   * After construction the system-preference listener never changes the
   * theme, even when nothing was stored beforehand: `init` stored one.
   */
  method PreferenceIgnoredAfterInit(prefersDark: bool, laterDark: bool) returns (t: ThemeToggle)
    ensures t.currentTheme == SystemTheme(prefersDark)
  {
    t := new ThemeToggle(None, prefersDark);
    t.SystemPreferenceChanged(laterDark);
  }

  /** Two clicks from a light or dark page bring it back. */
  method ToggleTwiceRestores(stored0: Option<string>, prefersDark: bool) returns (t: ThemeToggle)
    requires stored0.None? || stored0.value in {"", "light", "dark"}
    ensures t.currentTheme == InitialTheme(stored0, prefersDark) && t.Valid()
  {
    t := new ThemeToggle(stored0, prefersDark);
    var first := t.ToggleTheme();
    var second := t.ToggleTheme();
    ToggleTwice(InitialTheme(stored0, prefersDark));
  }
}
