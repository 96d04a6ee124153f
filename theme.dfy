/**
 * The theme switcher (src/components/ThemeSwitcher.tsx): applying a theme
 * rewrites the document's theme classes and colour variables, stores the
 * theme and makes it current; "system" stands for dark or light as the
 * user's colour-scheme preference says.
 *
 * The document and the browser are fields and a parameter: `classes` is
 * the root element's class list, `vars` its style properties, `storage`
 * the local storage, and `prefersDark` what the colour-scheme media query
 * answers at the time of the call.
 */
module Theme {
  import opened Wrappers

  /** The colour classes a theme's row in the menu shows. */
  datatype Colors = Colors(background: string, foreground: string, accent: string, secondary: string)

  /** One entry of `themes`; the icon is left out. */
  datatype ThemeConfig = ThemeConfig(id: string, name: string, colors: Colors, description: string)

  /** `themes`, in menu order. */
  const Themes: seq<ThemeConfig> := [
    ThemeConfig("light", "Light Mode",
      Colors("bg-white", "text-gray-900", "text-blue-600", "bg-gray-100"),
      "Clean and bright interface"),
    ThemeConfig("dark", "Dark Mode",
      Colors("bg-gray-900", "text-white", "text-cyan-400", "bg-gray-800"),
      "Easy on the eyes"),
    ThemeConfig("neon", "Neon Tech",
      Colors("bg-black", "text-neon-cyan", "text-neon-pink", "bg-gray-900"),
      "Cyberpunk vibes"),
    ThemeConfig("matrix", "Matrix",
      Colors("bg-black", "text-green-400", "text-green-300", "bg-green-900/20"),
      "Enter the Matrix"),
    ThemeConfig("system", "System",
      Colors("bg-background", "text-foreground", "text-primary", "bg-secondary"),
      "Follow system preference")
  ]

  /** The classes every application first removes. */
  const ThemeClasses: set<string> := {"light", "dark", "neon", "matrix"}

  /** The key the theme is stored under. */
  const StorageKey: string := "theme"

  /** The theme an application of `theme` ends up applying. */
  function Resolve(theme: string, prefersDark: bool): (r: string)
    ensures r != "system"
    ensures theme != "system" ==> r == theme
    ensures theme == "system" ==> (r == "dark" <==> prefersDark) && (r == "light" <==> !prefersDark)
  {
    if theme == "system" then (if prefersDark then "dark" else "light") else theme
  }

  /** The classes applying a resolved theme adds. */
  function AddedClasses(theme: string): (r: set<string>)
    ensures r <= ThemeClasses
    ensures theme in ThemeClasses <==> theme in r
    ensures theme !in ThemeClasses ==> r == {}
    ensures r != {} ==> "dark" in r || r == {"light"}
  {
    if theme == "light" then {"light"}
    else if theme == "dark" then {"dark"}
    else if theme == "neon" then {"dark", "neon"}
    else if theme == "matrix" then {"dark", "matrix"}
    else {}
  }

  /** The style properties applying a resolved theme sets, with their values. */
  function SetVars(theme: string): (r: map<string, string>)
    ensures theme !in ThemeClasses ==> r == map[]
  {
    if theme == "light" then
      map["--background" := "0 0% 100%", "--foreground" := "222.2 84% 4.9%",
          "--primary" := "221.2 83.2% 53.3%", "--secondary" := "210 40% 96%"]
    else if theme == "dark" then
      map["--background" := "222.2 84% 4.9%", "--foreground" := "210 40% 98%",
          "--primary" := "210 40% 98%", "--secondary" := "217.2 32.6% 17.5%"]
    else if theme == "neon" then
      map["--background" := "0 0% 0%", "--foreground" := "180 100% 70%",
          "--primary" := "320 100% 70%", "--secondary" := "0 0% 10%",
          "--tech-glow" := "180 100% 50%", "--neon-pink" := "320 100% 70%",
          "--neon-cyan" := "180 100% 70%"]
    else if theme == "matrix" then
      map["--background" := "0 0% 0%", "--foreground" := "120 100% 50%",
          "--primary" := "120 100% 75%", "--secondary" := "120 100% 10%",
          "--tech-glow" := "120 100% 50%"]
    else map[]
  }

  /** Each of the four themes sets all four base colours; only neon and matrix set the glow. */
  lemma SetVarsColours(theme: string)
    requires theme in ThemeClasses
    ensures {"--background", "--foreground", "--primary", "--secondary"} <= SetVars(theme).Keys
    ensures "--tech-glow" in SetVars(theme) <==> theme == "neon" || theme == "matrix"
  {
    var base := {"--background", "--foreground", "--primary", "--secondary"};
    if theme == "light" || theme == "dark" {
      assert SetVars(theme).Keys == base;
    } else if theme == "neon" {
      assert SetVars(theme).Keys == base + {"--tech-glow", "--neon-pink", "--neon-cyan"};
    } else {
      assert SetVars(theme).Keys == base + {"--tech-glow"};
    }
  }

  /** What `applyTheme` touches: the class list, the style properties, the storage, `currentTheme`. */
  datatype Doc = Doc(classes: set<string>, vars: map<string, string>,
                     storage: map<string, string>, currentTheme: string)

  /** The document after applying `theme`. */
  function Applied(d: Doc, theme: string, prefersDark: bool): (r: Doc)
    ensures r.currentTheme != "system"
    ensures StorageKey in r.storage && r.storage[StorageKey] == r.currentTheme
    ensures r.classes - ThemeClasses == d.classes - ThemeClasses
    ensures forall k :: k in d.storage && k != StorageKey ==> k in r.storage && r.storage[k] == d.storage[k]
  {
    var t := Resolve(theme, prefersDark);
    Doc((d.classes - ThemeClasses) + AddedClasses(t), d.vars + SetVars(t),
        d.storage[StorageKey := t], t)
  }

  /** "system" is never stored nor current: it is applied as dark or as light. */
  lemma SystemResolves(d: Doc, theme: string, prefersDark: bool)
    ensures Applied(d, "system", prefersDark) ==
              Applied(d, if prefersDark then "dark" else "light", prefersDark)
    ensures Applied(d, theme, prefersDark).currentTheme != "system"
    ensures Applied(d, theme, prefersDark).storage[StorageKey] != "system"
  {
  }

  /** Any other theme becomes current and is stored as it is. */
  lemma OtherThemesStored(d: Doc, theme: string, prefersDark: bool)
    requires theme != "system"
    ensures Applied(d, theme, prefersDark).currentTheme == theme
    ensures Applied(d, theme, prefersDark).storage == d.storage[StorageKey := theme]
  {
  }

  /** The theme classes applied for each theme; classes outside the four are left as they were. */
  lemma ClassesApplied(d: Doc, theme: string, prefersDark: bool)
    ensures var c := Applied(d, theme, prefersDark).classes;
            var t := Resolve(theme, prefersDark);
            && (t == "light" ==> c * ThemeClasses == {"light"})
            && (t == "dark" ==> c * ThemeClasses == {"dark"})
            && (t == "neon" ==> c * ThemeClasses == {"dark", "neon"})
            && (t == "matrix" ==> c * ThemeClasses == {"dark", "matrix"})
            && (t !in ThemeClasses ==> c * ThemeClasses == {})
            && c - ThemeClasses == d.classes - ThemeClasses
  {
    var c := Applied(d, theme, prefersDark).classes;
    var t := Resolve(theme, prefersDark);
    assert AddedClasses(t) <= ThemeClasses;
    assert c * ThemeClasses == AddedClasses(t);
  }

  /**
   * Only the listed properties change: light and dark set the four base
   * colours, so glow and neon colours left by neon or matrix persist.
   */
  lemma VarsApplied(d: Doc, theme: string, prefersDark: bool, key: string)
    requires key !in SetVars(Resolve(theme, prefersDark))
    ensures key in Applied(d, theme, prefersDark).vars <==> key in d.vars
    ensures key in d.vars ==> Applied(d, theme, prefersDark).vars[key] == d.vars[key]
  {
  }

  /** Light and dark leave "--tech-glow", "--neon-pink" and "--neon-cyan" alone. */
  lemma BaseThemesKeepGlow(t: string)
    requires t == "light" || t == "dark"
    ensures "--tech-glow" !in SetVars(t)
    ensures "--neon-pink" !in SetVars(t) && "--neon-cyan" !in SetVars(t)
  {
    if t == "light" {
      assert SetVars(t).Keys == {"--background", "--foreground", "--primary", "--secondary"};
    } else {
      assert SetVars(t).Keys == {"--background", "--foreground", "--primary", "--secondary"};
    }
  }

  /** Applying the same theme twice is applying it once. */
  lemma ApplyIdempotent(d: Doc, theme: string, prefersDark: bool)
    ensures Applied(Applied(d, theme, prefersDark), theme, prefersDark) == Applied(d, theme, prefersDark)
  {
    var t := Resolve(theme, prefersDark);
    var once := Applied(d, theme, prefersDark);
    assert AddedClasses(t) <= ThemeClasses;
    assert (once.classes - ThemeClasses) + AddedClasses(t) == once.classes;
    assert once.vars + SetVars(t) == once.vars;
  }

  /** A string that names no theme clears the theme classes, sets nothing, yet is stored and current. */
  lemma UnknownTheme(d: Doc, theme: string, prefersDark: bool)
    requires forall i :: 0 <= i < |Themes| ==> Themes[i].id != theme
    ensures Applied(d, theme, prefersDark) ==
              Doc(d.classes - ThemeClasses, d.vars, d.storage[StorageKey := theme], theme)
    ensures CurrentThemeConfig(theme) == Themes[1]
  {
    assert Themes[0].id == "light" && Themes[1].id == "dark" && Themes[2].id == "neon";
    assert Themes[3].id == "matrix" && Themes[4].id == "system";
    assert d.vars + map[] == d.vars;
  }

  /** `themes.find` from row `from`: the first row with the given id. */
  function FindTheme(id: string, from: nat): (r: Option<nat>)
    requires from <= |Themes|
    ensures r.Some? ==> from <= r.value < |Themes| && Themes[r.value].id == id
    ensures r.Some? ==> forall j :: from <= j < r.value ==> Themes[j].id != id
    ensures r.None? <==> forall j :: from <= j < |Themes| ==> Themes[j].id != id
    decreases |Themes| - from
  {
    if from == |Themes| then None
    else if Themes[from].id == id then Some(from)
    else FindTheme(id, from + 1)
  }

  /** `currentThemeConfig`: the row of the current theme, or Dark Mode if there is none. */
  function CurrentThemeConfig(id: string): (r: ThemeConfig)
    ensures (exists i :: 0 <= i < |Themes| && Themes[i].id == id) ==> r.id == id
    ensures (forall i :: 0 <= i < |Themes| ==> Themes[i].id != id) ==> r == Themes[1]
  {
    match FindTheme(id, 0)
    case Some(i) => Themes[i]
    case None => Themes[1]
  }

  /** The theme the mount effect applies: the stored one, or dark if none or an empty one is stored. */
  function SavedTheme(storage: map<string, string>): (r: string)
    ensures StorageKey !in storage || storage[StorageKey] == "" ==> r == "dark"
    ensures StorageKey in storage && storage[StorageKey] != "" ==> r == storage[StorageKey]
  {
    if StorageKey in storage && storage[StorageKey] != "" then storage[StorageKey] else "dark"
  }

  /** The four `setProperty` calls of light, one after the other, set `SetVars("light")`. */
  lemma LightSteps(m: map<string, string>)
    ensures m["--background" := "0 0% 100%"]["--foreground" := "222.2 84% 4.9%"]
             ["--primary" := "221.2 83.2% 53.3%"]["--secondary" := "210 40% 96%"]
            == m + SetVars("light")
  {
  }

  /** The four `setProperty` calls of dark set `SetVars("dark")`. */
  lemma DarkSteps(m: map<string, string>)
    ensures m["--background" := "222.2 84% 4.9%"]["--foreground" := "210 40% 98%"]
             ["--primary" := "210 40% 98%"]["--secondary" := "217.2 32.6% 17.5%"]
            == m + SetVars("dark")
  {
  }

  /** The seven `setProperty` calls of neon set `SetVars("neon")`. */
  lemma NeonSteps(m: map<string, string>)
    ensures m["--background" := "0 0% 0%"]["--foreground" := "180 100% 70%"]
             ["--primary" := "320 100% 70%"]["--secondary" := "0 0% 10%"]
             ["--tech-glow" := "180 100% 50%"]["--neon-pink" := "320 100% 70%"]
             ["--neon-cyan" := "180 100% 70%"]
            == m + SetVars("neon")
  {
  }

  /** The five `setProperty` calls of matrix set `SetVars("matrix")`. */
  lemma MatrixSteps(m: map<string, string>)
    ensures m["--background" := "0 0% 0%"]["--foreground" := "120 100% 50%"]
             ["--primary" := "120 100% 75%"]["--secondary" := "120 100% 10%"]
             ["--tech-glow" := "120 100% 50%"]
            == m + SetVars("matrix")
  {
  }

  /** The theme switcher's state and the parts of the document it writes. */
  class Switcher {
    var currentTheme: string
    var isOpen: bool
    /** The root element's class list. */
    var classes: set<string>
    /** The root element's style properties. */
    var vars: map<string, string>
    /** The local storage. */
    var storage: map<string, string>

    function State(): Doc
      reads this
    {
      Doc(classes, vars, storage, currentTheme)
    }

    /** The first render, on a document with the given classes, properties and storage. */
    constructor (classes: set<string>, vars: map<string, string>, storage: map<string, string>)
      ensures State() == Doc(classes, vars, storage, "dark") && !isOpen
    {
      this.classes := classes;
      this.vars := vars;
      this.storage := storage;
      currentTheme := "dark";
      isOpen := false;
    }

    /** `applyTheme`: removes the four theme classes, then applies the theme's classes and colours. */
    method ApplyTheme(theme: string, prefersDark: bool)
      modifies this
      ensures State() == Applied(old(State()), theme, prefersDark)
      ensures isOpen == old(isOpen)
      decreases if theme == "system" then 1 else 0
    {
      classes := classes - ThemeClasses;
      if theme == "light" {
        classes := classes + {"light"};
        LightSteps(vars);
        vars := vars["--background" := "0 0% 100%"];
        vars := vars["--foreground" := "222.2 84% 4.9%"];
        vars := vars["--primary" := "221.2 83.2% 53.3%"];
        vars := vars["--secondary" := "210 40% 96%"];
      } else if theme == "dark" {
        classes := classes + {"dark"};
        DarkSteps(vars);
        vars := vars["--background" := "222.2 84% 4.9%"];
        vars := vars["--foreground" := "210 40% 98%"];
        vars := vars["--primary" := "210 40% 98%"];
        vars := vars["--secondary" := "217.2 32.6% 17.5%"];
      } else if theme == "neon" {
        classes := classes + {"dark", "neon"};
        NeonSteps(vars);
        vars := vars["--background" := "0 0% 0%"];
        vars := vars["--foreground" := "180 100% 70%"];
        vars := vars["--primary" := "320 100% 70%"];
        vars := vars["--secondary" := "0 0% 10%"];
        vars := vars["--tech-glow" := "180 100% 50%"];
        vars := vars["--neon-pink" := "320 100% 70%"];
        vars := vars["--neon-cyan" := "180 100% 70%"];
      } else if theme == "matrix" {
        classes := classes + {"dark", "matrix"};
        MatrixSteps(vars);
        vars := vars["--background" := "0 0% 0%"];
        vars := vars["--foreground" := "120 100% 50%"];
        vars := vars["--primary" := "120 100% 75%"];
        vars := vars["--secondary" := "120 100% 10%"];
        vars := vars["--tech-glow" := "120 100% 50%"];
      } else if theme == "system" {
        ApplyTheme(if prefersDark then "dark" else "light", prefersDark);
        return;
      }
      currentTheme := theme;
      storage := storage[StorageKey := theme];
    }

    /** The mount effect: applies the stored theme, or dark. */
    method Mount(prefersDark: bool)
      modifies this
      ensures State() == Applied(old(State()), SavedTheme(old(storage)), prefersDark)
      ensures isOpen == old(isOpen)
    {
      var saved := SavedTheme(storage);
      ApplyTheme(saved, prefersDark);
    }

    /** A click on a theme in the menu: applies it and closes the menu. */
    method SelectTheme(theme: string, prefersDark: bool)
      modifies this
      ensures State() == Applied(old(State()), theme, prefersDark) && !isOpen
    {
      ApplyTheme(theme, prefersDark);
      isOpen := false;
    }

    /** The palette button. */
    method ToggleMenu()
      modifies this
      ensures isOpen == !old(isOpen) && State() == old(State())
    {
      isOpen := !isOpen;
    }
  }
}
