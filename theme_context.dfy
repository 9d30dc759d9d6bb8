/** The colour-theme store of the browser client
    (frontend/src/context/ThemeContext.js): seven preset themes, the
    selected preset's name, optional custom colours, and their copies in the
    browser's local storage. */
module ThemeContext {
  import opened Protocol

  datatype Palette = Palette(primary: string, background: string, foreground: string, comment: string)

  /** A theme as the rest of the client sees it: a display name, the
      CodeMirror theme to load, and the interface colours. */
  datatype Theme = Theme(name: string, editorTheme: string, colors: Palette)

  /** The preset table, by key. */
  const Themes: map<string, Theme> := map[
    "dracula" := Theme("Dracula", "dracula", Palette("#bd93f9", "#282a36", "#f8f8f2", "#6272a4")),
    "monokai" := Theme("Monokai", "monokai", Palette("#f92672", "#272822", "#f8f8f2", "#75715e")),
    "nord" := Theme("Nord", "nord", Palette("#88c0d0", "#2e3440", "#d8dee9", "#616e88")),
    "solarizedLight" := Theme("Solarized Light", "solarized light", Palette("#268bd2", "#fdf6e3", "#657b83", "#93a1a1")),
    "solarizedDark" := Theme("Solarized Dark", "solarized dark", Palette("#268bd2", "#002b36", "#839496", "#586e75")),
    "material" := Theme("Material", "material", Palette("#82aaff", "#263238", "#eeffff", "#546e7a")),
    "oneDark" := Theme("One Dark", "3024-day", Palette("#61afef", "#282c34", "#abb2bf", "#5c6370"))
  ]

  /** The preset selected before anything is loaded. */
  const DefaultTheme: string := "dracula"

  /** The name under which an active theme with custom colours is shown. */
  const CustomName: string := "Custom"

  /** Every preset has a CodeMirror theme (so the editor's `|| "dracula"`
      fallback never fires for a preset) and none is named like the custom
      theme. */
  lemma PresetsWellFormed()
    ensures DefaultTheme in Themes
    ensures forall k :: k in Themes ==> Themes[k].editorTheme != "" && Themes[k].name != CustomName
  {
    forall k | k in Themes
      ensures Themes[k].editorTheme != "" && Themes[k].name != CustomName
    {
      assert k in {"dracula", "monokai", "nord", "solarizedLight", "solarizedDark", "material", "oneDark"};
    }
  }

  /** The theme in use: with custom colours, a theme named "Custom" that
      keeps the selected preset's editor theme; otherwise the preset itself. */
  function ActiveTheme(current: string, custom: Option<Palette>): (t: Theme)
    requires current in Themes
    ensures t.editorTheme == Themes[current].editorTheme && t.editorTheme != ""
    ensures t.colors == custom.GetOr(Themes[current].colors)
    ensures t.name == CustomName <==> custom.Some?
    ensures custom.None? <==> t in Themes.Values
    ensures custom.None? ==> t == Themes[current]
  {
    PresetsWellFormed();
    match custom
    case Some(colors) => Theme(CustomName, Themes[current].editorTheme, colors)
    case None => Themes[current]
  }

  /** Names that a lookup `THEMES[name]` on a plain object finds although no
      preset has them: the members every object inherits from
      `Object.prototype`. Each lookup yields a function or an object, so the
      lookup is truthy. */
  const InheritedKeys: set<string> := {
    "constructor", "hasOwnProperty", "isPrototypeOf", "propertyIsEnumerable",
    "toLocaleString", "toString", "valueOf", "__proto__",
    "__defineGetter__", "__defineSetter__", "__lookupGetter__", "__lookupSetter__"
  }

  /** The guard `THEMES[name]` as written: truthy for the preset keys and for
      the inherited names. */
  predicate GuardAsWritten(name: string) {
    name in Themes || name in InheritedKeys
  }

  /** `changeTheme` on the selected name as written. */
  function ChangeThemeAsWritten(current: string, name: string): (next: string)
    ensures next == name || next == current
    ensures name in Themes ==> next == name
  {
    if GuardAsWritten(name) then name else current
  }

  /** The guard as written lets an inherited name through, after which the
      selected name no longer names a preset and `THEMES[currentTheme]` is
      not a theme. */
  lemma GuardAdmitsInheritedName()
    ensures GuardAsWritten("toString") && "toString" !in Themes
    ensures ChangeThemeAsWritten(DefaultTheme, "toString") !in Themes
  {
    assert "toString" in InheritedKeys;
  }

  /** The intended guard: only a preset key selects a preset. */
  function ChangeThemeTo(current: string, name: string): (next: string)
    ensures current in Themes ==> next in Themes
    ensures name in Themes <==> next == name && next in Themes
    ensures name !in Themes ==> next == current
  {
    if name in Themes then name else current
  }

  class ThemeStore {
    /** the selected preset key */
    var currentTheme: string
    var customColors: Option<Palette>
    /** local storage under 'colabcode-theme' */
    var storedTheme: Option<string>
    /** local storage under 'colabcode-custom-colors' */
    var storedColors: Option<Palette>

    ghost predicate Valid()
      reads this`currentTheme
    {
      currentTheme in Themes
    }

    /** Mounting the provider over whatever local storage holds. */
    constructor (storedTheme: Option<string>, storedColors: Option<Palette>)
      ensures Valid()
      ensures currentTheme == DefaultTheme && customColors == None
      ensures this.storedTheme == storedTheme && this.storedColors == storedColors
    {
      currentTheme, customColors := DefaultTheme, None;
      this.storedTheme, this.storedColors := storedTheme, storedColors;
    }

    /** The mount effect: a stored theme is taken only when it names a
        preset; stored custom colours are taken as they are. */
    method Load()
      requires Valid()
      modifies this`currentTheme, this`customColors
      ensures Valid()
      ensures storedTheme.Some? && storedTheme.value in Themes ==> currentTheme == storedTheme.value
      ensures !(storedTheme.Some? && storedTheme.value in Themes) ==> currentTheme == old(currentTheme)
      ensures storedColors.Some? ==> customColors == storedColors
      ensures storedColors.None? ==> customColors == old(customColors)
    {
      if storedTheme.Some? && storedTheme.value != "" {
        currentTheme := ChangeThemeTo(currentTheme, storedTheme.value);
      }
      if storedColors.Some? {
        customColors := storedColors;
      }
    }

    /** `changeTheme`: a preset key is selected and stored; any other name
        changes neither the selection nor the storage. */
    method ChangeTheme(name: string)
      requires Valid()
      modifies this`currentTheme, this`storedTheme
      ensures Valid()
      ensures name in Themes ==> currentTheme == name && storedTheme == Some(name)
      ensures name !in Themes ==> currentTheme == old(currentTheme) && storedTheme == old(storedTheme)
    {
      if name in Themes {
        currentTheme := name;
        storedTheme := Some(name);
      }
    }

    /** `saveCustomColors`: the colours are used and stored. */
    method SaveCustomColors(colors: Palette)
      requires Valid()
      modifies this`customColors, this`storedColors
      ensures Valid()
      ensures customColors == Some(colors) && storedColors == customColors
      ensures ActiveTheme(currentTheme, customColors) == Theme(CustomName, Themes[currentTheme].editorTheme, colors)
    {
      customColors, storedColors := Some(colors), Some(colors);
    }

    /** `clearCustomColors`: the custom colours are dropped from memory and
        from storage, so the selected preset is in use again. */
    method ClearCustomColors()
      requires Valid()
      modifies this`customColors, this`storedColors
      ensures Valid()
      ensures customColors == None && storedColors == None
      ensures ActiveTheme(currentTheme, customColors) == Themes[currentTheme]
    {
      customColors, storedColors := None, None;
    }
  }
}
