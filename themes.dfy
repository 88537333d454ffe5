/** Theming: three named palettes applied as CSS custom properties on the document root,
    a persisted preference under the key `portfolio-theme` that is loaded at start-up
    when it names a known theme, and a toggle button that cycles alien, cosmic, matrix. */
module Themes {
  import opened JsPrims
  import opened Cyclic

  datatype Palette = Palette(primary: string, secondary: string, accent: string, bgDark: string)

  /** The manager's `themes` table, looked up by its own keys only. */
  function PaletteOf(name: string): (p: Option<Palette>)
    ensures p.Some? <==> name == "alien" || name == "cosmic" || name == "matrix"
  {
    match name
    case "alien" => Some(Palette("#00ff88", "#ff00ff", "#00ffff", "#0a0a1a"))
    case "cosmic" => Some(Palette("#8b5cf6", "#ec4899", "#06b6d4", "#0f0f23"))
    case "matrix" => Some(Palette("#00ff00", "#00cc00", "#00ff88", "#000000"))
    case _ => None
  }

  predicate IsTheme(name: string) {
    PaletteOf(name).Some?
  }

  /** The custom properties `setTheme` writes for a palette. */
  function ThemeVars(p: Palette): (vars: map<string, string>)
    ensures vars.Keys == {"--primary-color", "--secondary-color", "--accent-color", "--bg-dark", "--glow-green"}
    ensures vars["--primary-color"] == p.primary && vars["--secondary-color"] == p.secondary
    ensures vars["--accent-color"] == p.accent && vars["--bg-dark"] == p.bgDark
    ensures var glow := vars["--glow-green"];
      |glow| == |p.primary| + 11 && glow[..9] == "0 0 20px "
      && glow[9..|glow| - 2] == p.primary && glow[|glow| - 2..] == "80"
  {
    map["--primary-color" := p.primary,
        "--secondary-color" := p.secondary,
        "--accent-color" := p.accent,
        "--bg-dark" := p.bgDark,
        "--glow-green" := "0 0 20px " + p.primary + "80"]
  }

  /** The theme the manager holds once its constructor has loaded the saved value: the
      saved name when it is a known theme (an empty string is falsy and never one),
      otherwise the default. */
  function LoadedTheme(saved: Option<string>): (t: string)
    ensures IsTheme(t)
    ensures saved.Some? && IsTheme(saved.value) ==> t == saved.value
    ensures !(saved.Some? && IsTheme(saved.value)) ==> t == "alien"
  {
    if saved.Some? && saved.value != "" && IsTheme(saved.value) then saved.value else "alien"
  }

  /** The theme held after start-up as written: the guard `saved && this.themes[saved]`
      reads the prototype chain too, so a saved inherited name is loaded as well. */
  function LoadedThemeAsWritten(saved: Option<string>): (t: string)
    ensures saved.Some? && saved.value != "" && GuardAsWritten(saved.value) ==> t == saved.value
    ensures !(saved.Some? && saved.value != "" && GuardAsWritten(saved.value)) ==> t == "alien"
  {
    if saved.Some? && saved.value != "" && GuardAsWritten(saved.value) then saved.value else "alien"
  }

  /** As written, a saved `toString` (the value `setTheme('toString')` persists) is loaded
      at start-up and becomes the current theme, which has no palette. */
  lemma AsWrittenLoadsInheritedName()
    ensures !IsTheme("toString")
    ensures LoadedThemeAsWritten(Some("toString")) == "toString"
  {
    assert InheritedName("toString");
  }

  /** The as-written and the corrected start-up agree exactly when the saved value is not
      an inherited name. */
  lemma LoadedThemeAgreement(saved: Option<string>)
    ensures LoadedThemeAsWritten(saved) == LoadedTheme(saved)
      <==> !(saved.Some? && InheritedName(saved.value))
  {
  }

  /** A saved `cosmic` loads the cosmic palette; a saved `bogus` leaves the default. */
  lemma LoadScenarios()
    ensures PaletteOf(LoadedTheme(Some("cosmic"))).value.primary == "#8b5cf6"
    ensures LoadedTheme(Some("bogus")) == "alien"
    ensures LoadedTheme(None) == "alien"
  {
  }

  /** The names a plain JavaScript object inherits from `Object.prototype`: looking any of
      them up in the `themes` object yields a truthy value. */
  predicate InheritedName(name: string) {
    name in {"constructor", "toString", "toLocaleString", "valueOf", "hasOwnProperty",
             "isPrototypeOf", "propertyIsEnumerable", "__proto__", "__defineGetter__",
             "__defineSetter__", "__lookupGetter__", "__lookupSetter__"}
  }

  /** The guard `if (!this.themes[themeName]) return;` as written: it lets through the
      three theme names and every inherited name. */
  predicate GuardAsWritten(name: string) {
    IsTheme(name) || InheritedName(name)
  }

  /** `currentTheme` after `setTheme(name)` as written. */
  function CurrentAfterAsWritten(current: string, name: string): (r: string)
    ensures GuardAsWritten(name) ==> r == name
    ensures !GuardAsWritten(name) ==> r == current
  {
    if GuardAsWritten(name) then name else current
  }

  /** As written, `setTheme('toString')` passes the guard: the current theme becomes a
      name that has no palette (and that name is what gets persisted). */
  lemma AsWrittenAcceptsInheritedName()
    ensures !IsTheme("toString")
    ensures CurrentAfterAsWritten("alien", "toString") == "toString"
  {
    assert InheritedName("toString");
  }

  /** A toggle-button icon: `icons[theme] || '🎨'`. */
  function Icon(theme: string): (icon: string)
    ensures theme == "alien" ==> icon == "\U{1F47D}"
    ensures theme == "cosmic" ==> icon == "\U{1F30C}"
    ensures theme == "matrix" ==> icon == "\U{1F49A}"
    ensures IsTheme(theme) ==> icon != "\U{1F3A8}"
    ensures !IsTheme(theme) ==> icon == "\U{1F3A8}"
  {
    match theme
    case "alien" => "\U{1F47D}"
    case "cosmic" => "\U{1F30C}"
    case "matrix" => "\U{1F49A}"
    case _ => "\U{1F3A8}"
  }

  /** The toggle shows a different icon for each theme it cycles through. */
  lemma IconsIdentifyThemes(a: string, b: string)
    requires a in ToggleOrder && b in ToggleOrder && a != b
    ensures Icon(a) != Icon(b)
  {
  }

  /** `String.prototype.toUpperCase` on one character, for the ASCII letters the theme
      names are written in. */
  function UpperAscii(c: char): (u: char)
    ensures 'a' <= c <= 'z' ==> 'A' <= u <= 'Z' && u as int == c as int - 32
    ensures !('a' <= c <= 'z') ==> u == c
  {
    if 'a' <= c <= 'z' then (c as int - 32) as char else c
  }

  /** `theme.charAt(0).toUpperCase() + theme.slice(1)`. */
  function Capitalize(s: string): (r: string)
    ensures |r| == |s|
    ensures s != [] ==> r[0] == UpperAscii(s[0]) && r[1..] == s[1..]
  {
    if s == [] then [] else [UpperAscii(s[0])] + s[1..]
  }

  /** The toggle's notification text for a theme. */
  function ThemeLabel(theme: string): string {
    "Theme: " + Capitalize(theme)
  }

  lemma ThemeLabels()
    ensures ThemeLabel("alien") == "Theme: Alien"
    ensures ThemeLabel("cosmic") == "Theme: Cosmic"
    ensures ThemeLabel("matrix") == "Theme: Matrix"
  {
  }

  class ThemeManager {
    var currentTheme: string
    /** The custom properties set on the document root's inline style. */
    var cssVars: map<string, string>
    /** The `portfolio-theme` entry of local storage. */
    var stored: Option<string>

    ghost predicate Valid()
      reads this
    {
      IsTheme(currentTheme)
    }

    /** `new ThemeManager()` with local storage holding `saved`. */
    constructor (saved: Option<string>)
      ensures Valid()
      ensures currentTheme == LoadedTheme(saved)
      ensures stored == saved
      ensures saved.Some? && IsTheme(saved.value)
        ==> cssVars == ThemeVars(PaletteOf(saved.value).value)
      ensures !(saved.Some? && IsTheme(saved.value)) ==> cssVars == map[]
    {
      currentTheme := "alien";
      cssVars := map[];
      stored := saved;
      new;
      LoadSavedTheme();
    }

    /** `loadSavedTheme`: applies the stored name when it is non-empty and a theme. */
    method LoadSavedTheme()
      requires Valid()
      modifies this
      ensures Valid()
      ensures var s := old(stored);
        if s.Some? && s.value != "" && IsTheme(s.value) then
          currentTheme == s.value && stored == s
          && cssVars == old(cssVars) + ThemeVars(PaletteOf(s.value).value)
        else
          currentTheme == old(currentTheme) && stored == s && cssVars == old(cssVars)
    {
      var saved := stored;
      if saved.Some? && saved.value != "" && PaletteOf(saved.value).Some? {
        SetTheme(saved.value);
      }
    }

    /** `setTheme(themeName)`, with the guard reading the table's own keys: an unknown name
        changes nothing; a known one applies its palette, becomes current and is saved. */
    method SetTheme(themeName: string)
      requires Valid()
      modifies this
      ensures Valid()
      ensures !IsTheme(themeName) ==>
        currentTheme == old(currentTheme) && cssVars == old(cssVars) && stored == old(stored)
      ensures IsTheme(themeName) ==>
        currentTheme == themeName && stored == Some(themeName)
        && cssVars == old(cssVars) + ThemeVars(PaletteOf(themeName).value)
    {
      var theme := PaletteOf(themeName);
      if theme.None? {
        return;
      }
      cssVars := cssVars + ThemeVars(theme.value);
      currentTheme := themeName;
      stored := Some(themeName);
    }
  }

  /** The order the toggle button cycles through. */
  const ToggleOrder: seq<string> := ["alien", "cosmic", "matrix"]

  /** Three clicks of the toggle bring its index back; one or two never do. */
  lemma ToggleCycle(i: nat)
    requires i < |ToggleOrder|
    ensures NextTimes(i, |ToggleOrder|, 3) == i
    ensures NextTimes(i, |ToggleOrder|, 1) != i && NextTimes(i, |ToggleOrder|, 2) != i
  {
    FullCycle(i, 3);
    ShorterCycleMoves(i, 3, 1);
    ShorterCycleMoves(i, 3, 2);
  }

  class ThemeToggleButton {
    const manager: ThemeManager
    var currentIndex: nat
    /** The button's text; `None` while the markup's own icon is untouched. */
    var icon: Option<string>
    /** The texts of the notifications shown so far, oldest first. */
    var notifications: seq<string>

    ghost predicate Valid()
      reads this, manager
    {
      currentIndex < |ToggleOrder| && manager.Valid()
    }

    /** `new ThemeToggleButton(themeManager)`: the index starts at 0 whatever theme the
        manager loaded. */
    constructor (themeManager: ThemeManager)
      requires themeManager.Valid()
      ensures Valid() && manager == themeManager
      ensures currentIndex == 0 && icon == None && notifications == []
    {
      manager := themeManager;
      currentIndex := 0;
      icon := None;
      notifications := [];
    }

    /** The click listener: advance the index, apply that theme, show its icon and
        announce it. */
    method Click()
      requires Valid()
      modifies this, manager
      ensures Valid()
      ensures currentIndex == Next(old(currentIndex), |ToggleOrder|)
      ensures manager.currentTheme == ToggleOrder[currentIndex]
      ensures manager.stored == Some(ToggleOrder[currentIndex])
      ensures manager.cssVars
        == old(manager.cssVars) + ThemeVars(PaletteOf(ToggleOrder[currentIndex]).value)
      ensures icon == Some(Icon(ToggleOrder[currentIndex]))
      ensures notifications == old(notifications) + [ThemeLabel(ToggleOrder[currentIndex])]
    {
      currentIndex := (currentIndex + 1) % |ToggleOrder|;
      var newTheme := ToggleOrder[currentIndex];
      manager.SetTheme(newTheme);
      icon := Some(Icon(newTheme));
      notifications := notifications + [ThemeLabel(newTheme)];
    }
  }
}
