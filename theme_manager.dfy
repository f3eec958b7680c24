/**
 * Theme selection: a fixed table of seven themes, the current theme id, and the
 * user's customizations as a map from category ("colors", "fonts", "layout") to
 * overrides. Writing CSS variables and dispatching events are not modelled.
 */
module Themes {
  import opened Wrappers

  datatype Colors = Colors(primary: string, secondary: string, accent: string, text: string,
                           background: string, border: string, headerBg: string)
  datatype Fonts = Fonts(header: string, body: string, numbers: string)
  datatype Layout = Layout(headerHeight: string, margins: string, borderRadius: string)
  datatype Theme = Theme(id: string, name: string, colors: Colors, fonts: Fonts, layout: Layout)

  /** Customizations: category -> property -> value. */
  type Customizations = map<string, map<string, string>>

  const Categories: set<string> := {"colors", "fonts", "layout"}

  /** The predefined themes. */
  function ThemeTable(): map<string, Theme> {
    map[
      "default" := Theme("default", "Défaut",
        Colors("#2563eb", "#0f172a", "#22c55e", "#020617", "#ffffff", "#e2e8f0", "#f8fafc"),
        Fonts("'Inter', sans-serif", "'Inter', sans-serif", "'Inter', sans-serif"),
        Layout("120px", "24px", "8px")),
      "modern" := Theme("modern", "Moderne",
        Colors("#6366f1", "#1e1b4b", "#f59e0b", "#111827", "#ffffff", "#e5e7eb", "#f9fafb"),
        Fonts("'Poppins', sans-serif", "'Inter', sans-serif", "'JetBrains Mono', monospace"),
        Layout("140px", "32px", "12px")),
      "classic" := Theme("classic", "Classique",
        Colors("#059669", "#064e3b", "#dc2626", "#1f2937", "#ffffff", "#d1d5db", "#f3f4f6"),
        Fonts("'Times New Roman', serif", "'Georgia', serif", "'Times New Roman', serif"),
        Layout("100px", "20px", "4px")),
      "corporate" := Theme("corporate", "Corporate",
        Colors("#1f2937", "#111827", "#3b82f6", "#374151", "#ffffff", "#d1d5db", "#f9fafb"),
        Fonts("'Roboto', sans-serif", "'Roboto', sans-serif", "'Roboto Mono', monospace"),
        Layout("110px", "28px", "6px")),
      "elegant" := Theme("elegant", "Élégant",
        Colors("#7c3aed", "#581c87", "#f97316", "#1f2937", "#ffffff", "#e5e7eb", "#faf5ff"),
        Fonts("'Playfair Display', serif", "'Source Sans Pro', sans-serif", "'Source Sans Pro', sans-serif"),
        Layout("130px", "30px", "10px")),
      "minimal" := Theme("minimal", "Minimal",
        Colors("#000000", "#374151", "#6b7280", "#111827", "#ffffff", "#e5e7eb", "#ffffff"),
        Fonts("'Helvetica Neue', sans-serif", "'Helvetica Neue', sans-serif", "'SF Mono', monospace"),
        Layout("90px", "24px", "0px")),
      "creative" := Theme("creative", "Créatif",
        Colors("#ec4899", "#be185d", "#06b6d4", "#1f2937", "#ffffff", "#f3e8ff", "#fdf2f8"),
        Fonts("'Montserrat', sans-serif", "'Open Sans', sans-serif", "'Fira Code', monospace"),
        Layout("150px", "36px", "16px"))]
  }

  /** The font families offered, by category. */
  function AvailableFonts(): map<string, seq<string>> {
    map[
      "sans-serif" := ["'Inter', sans-serif", "'Roboto', sans-serif", "'Open Sans', sans-serif",
                       "'Source Sans Pro', sans-serif", "'Poppins', sans-serif", "'Montserrat', sans-serif",
                       "'Helvetica Neue', sans-serif"],
      "serif" := ["'Times New Roman', serif", "'Georgia', serif", "'Playfair Display', serif",
                  "'Merriweather', serif", "'Crimson Text', serif"],
      "monospace" := ["'JetBrains Mono', monospace", "'Fira Code', monospace", "'SF Mono', monospace",
                      "'Roboto Mono', monospace", "'Source Code Pro', monospace"]]
  }

  /** Every font category has at least one family. */
  predicate FontsAvailable(fonts: map<string, seq<string>>) {
    forall category :: category in ["sans-serif", "serif", "monospace"] ==>
      category in fonts && |fonts[category]| > 0
  }

  /** The theme count is within the range 5 to 10. */
  predicate ThemeCountValid(themes: map<string, Theme>) {
    5 <= |themes.Keys| <= 10
  }

  /** The ids of the predefined themes. */
  lemma ThemeTableKeys()
    ensures ThemeTable().Keys == {"default", "modern", "classic", "corporate", "elegant", "minimal", "creative"}
  {
  }

  lemma SevenIds()
    ensures |{"default", "modern", "classic", "corporate", "elegant", "minimal", "creative"}| == 7
  {
  }

  /** The table holds seven themes, so the count check passes. */
  lemma ThemeTableCount()
    ensures |ThemeTable().Keys| == 7 && ThemeCountValid(ThemeTable())
  {
    ThemeTableKeys();
    SevenIds();
  }

  /** Each predefined theme is filed under its own id. */
  lemma ThemeIdsMatchKeys()
    ensures forall id :: id in ThemeTable() ==> ThemeTable()[id].id == id
  {
    ThemeTableKeys();
  }

  /** Every font category offers at least one family. */
  lemma FontCategoriesFilled()
    ensures FontsAvailable(AvailableFonts())
  {
  }

  /** Every font a predefined theme uses is among the families offered. */
  lemma ThemeFontsOffered(id: string)
    requires id in ThemeTable()
    ensures var f := ThemeTable()[id].fonts;
            var offered := AvailableFonts()["sans-serif"] + AvailableFonts()["serif"] + AvailableFonts()["monospace"];
            f.header in offered && f.body in offered && f.numbers in offered
  {
  }

  // ---------------------------------------------------------------------------
  // Lookup

  /** The members a plain object inherits from Object.prototype, all truthy. */
  const PrototypeMembers: set<string> := {
    "constructor", "hasOwnProperty", "isPrototypeOf", "propertyIsEnumerable",
    "toLocaleString", "toString", "valueOf", "__proto__",
    "__defineGetter__", "__defineSetter__", "__lookupGetter__", "__lookupSetter__"}

  /** What `themes[themeId] || null` yields: an own theme, an inherited member, or null. */
  datatype Lookup = OwnTheme(theme: Theme) | Inherited(name: string) | NotFound

  function LookupAsWritten(themes: map<string, Theme>, themeId: string): Lookup {
    if themeId in themes then OwnTheme(themes[themeId])
    else if themeId in PrototypeMembers then Inherited(themeId)
    else NotFound
  }

  /** The outcome of a theme application: applied, refused, or stopped by a TypeError
      when the looked-up value has no `colors`. */
  datatype ApplyOutcome = Applied | Refused | Threw

  /** Theme application as written: the current id is set before the theme's colours
      are read, so an inherited member leaves it set and then throws. */
  function ApplyThemeAsWritten(themes: map<string, Theme>, currentTheme: string, themeId: string)
    : (r: (string, ApplyOutcome))
  {
    match LookupAsWritten(themes, themeId)
    case NotFound => (currentTheme, Refused)
    case OwnTheme(_) => (themeId, Applied)
    case Inherited(_) => (themeId, Threw)
  }

  /** Applying "constructor" to the predefined table leaves the current theme naming
      no theme, and the application throws. */
  lemma InheritedNameBreaksCurrentTheme()
    ensures "constructor" !in ThemeTable()
    ensures LookupAsWritten(ThemeTable(), "constructor") != NotFound
    ensures ApplyThemeAsWritten(ThemeTable(), "default", "constructor") == ("constructor", Threw)
  {
    ThemeTableKeys();
  }

  /** The evidently intended lookup: own members only. */
  function GetThemeIn(themes: map<string, Theme>, themeId: string): (r: Option<Theme>)
    ensures r.Some? <==> themeId in themes
    ensures r.Some? ==> r.value == themes[themeId]
  {
    if themeId in themes then Some(themes[themeId]) else None
  }

  /** The corrected lookup agrees with the written one on own members and returns
      None exactly where the written one returns null or an inherited member. */
  lemma CorrectedLookupAgrees(themes: map<string, Theme>, themeId: string)
    ensures GetThemeIn(themes, themeId) == match LookupAsWritten(themes, themeId)
                                           case OwnTheme(t) => Some(t)
                                           case _ => None
    ensures LookupAsWritten(themes, themeId).Inherited? <==> themeId !in themes && themeId in PrototypeMembers
  {
  }

  // ---------------------------------------------------------------------------
  // The selection state

  datatype ThemeState = ThemeState(currentTheme: string, customizations: Customizations)

  /** What an exported configuration holds. */
  datatype Configuration = Configuration(currentTheme: string, customizations: Customizations)

  /** The state invariant: the current theme is in the table and only the three
      categories are customized. */
  predicate WellFormed(themes: map<string, Theme>, s: ThemeState) {
    s.currentTheme in themes && s.customizations.Keys <= Categories
  }

  /** A category's overrides replaced by the old ones overridden by `config`. */
  function MergeCategory(c: Customizations, category: string, config: map<string, string>): (r: Customizations)
    ensures r.Keys == c.Keys + {category}
    ensures forall k :: k in r && k != category ==> r[k] == c[k]
    ensures forall p :: p in config ==> p in r[category] && r[category][p] == config[p]
    ensures forall p :: p !in config ==>
              (p in r[category] <==> category in c && p in c[category]) &&
              (p in r[category] ==> r[category][p] == c[category][p])
  {
    c[category := (if category in c then c[category] else map[]) + config]
  }

  /** Corrected application: only an own member is applied. */
  function ApplyTo(themes: map<string, Theme>, s: ThemeState, themeId: string): (r: (ThemeState, bool))
    ensures r.1 <==> themeId in themes
    ensures r.0.customizations == s.customizations
    ensures r.0.currentTheme == if r.1 then themeId else s.currentTheme
    ensures WellFormed(themes, s) ==> WellFormed(themes, r.0)
  {
    if GetThemeIn(themes, themeId).Some? then (s.(currentTheme := themeId), true) else (s, false)
  }

  function CustomizeTo(s: ThemeState, category: string, config: map<string, string>): ThemeState {
    s.(customizations := MergeCategory(s.customizations, category, config))
  }

  function Export(s: ThemeState): Configuration {
    Configuration(s.currentTheme, s.customizations)
  }

  /** Each category present in `imported` merged into `c`, colours, fonts, layout in turn. */
  function MergeCategories(c: Customizations, imported: Customizations): Customizations {
    var c1 := if "colors" in imported then MergeCategory(c, "colors", imported["colors"]) else c;
    var c2 := if "fonts" in imported then MergeCategory(c1, "fonts", imported["fonts"]) else c1;
    if "layout" in imported then MergeCategory(c2, "layout", imported["layout"]) else c2
  }

  /** A truthy `currentTheme` is applied, then each present category is merged in. */
  function ImportTo(themes: map<string, Theme>, s: ThemeState, config: Configuration): ThemeState {
    var s1 := if config.currentTheme != "" then ApplyTo(themes, s, config.currentTheme).0 else s;
    s1.(customizations := MergeCategories(s1.customizations, config.customizations))
  }

  /** Customizing keeps the state well formed exactly for the three categories. */
  lemma CustomizeKeepsWellFormed(themes: map<string, Theme>, s: ThemeState, category: string,
                                 config: map<string, string>)
    requires WellFormed(themes, s)
    ensures WellFormed(themes, CustomizeTo(s, category, config)) <==> category in Categories
  {
  }

  /** Merging into an empty category gives exactly the merged overrides. */
  lemma MergeIntoAbsent(c: Customizations, category: string, config: map<string, string>)
    requires category !in c
    ensures MergeCategory(c, category, config) == c[category := config]
  {
    assert map[] + config == config;
  }

  /** Merging the three categories into nothing rebuilds them. */
  lemma MergeCategoriesIntoEmpty(c: Customizations)
    requires c.Keys <= Categories
    ensures MergeCategories(map[], c) == c
  {
    var c1 := if "colors" in c then map["colors" := c["colors"]] else map[];
    var c2 := if "fonts" in c then c1["fonts" := c["fonts"]] else c1;
    var c3 := if "layout" in c then c2["layout" := c["layout"]] else c2;
    if "colors" in c { MergeIntoAbsent(map[], "colors", c["colors"]); }
    if "fonts" in c { MergeIntoAbsent(c1, "fonts", c["fonts"]); }
    if "layout" in c { MergeIntoAbsent(c2, "layout", c["layout"]); }
    assert c3.Keys == c.Keys;
  }

  /** Importing an exported configuration into a state without customizations
      restores the exported state. */
  lemma ImportExportRoundTrip(themes: map<string, Theme>, s: ThemeState, start: ThemeState)
    requires WellFormed(themes, s) && s.currentTheme != ""
    requires start.customizations == map[]
    ensures ImportTo(themes, start, Export(s)) == s
  {
    MergeCategoriesIntoEmpty(s.customizations);
  }

  // ---------------------------------------------------------------------------
  // The manager

  class ThemeManager {
    var themes: map<string, Theme>
    var currentTheme: string
    var customizations: Customizations

    function State(): ThemeState
      reads this
    {
      ThemeState(currentTheme, customizations)
    }

    predicate Valid()
      reads this
    {
      WellFormed(themes, State()) && "default" in themes
    }

    /** A new manager: the predefined table, theme "default", no customizations. */
    constructor ()
      ensures Valid()
      ensures themes == ThemeTable() && currentTheme == "default" && customizations == map[]
    {
      themes := ThemeTable();
      currentTheme := "default";
      customizations := map[];
    }

    function GetAllThemes(): (r: map<string, Theme>)
      reads this
      ensures r == themes
      ensures Valid() ==> "default" in r && currentTheme in r
    {
      themes
    }

    /** The theme filed under `themeId`, or None when there is none. */
    function GetTheme(themeId: string): (r: Option<Theme>)
      reads this
      ensures r.Some? <==> themeId in themes
      ensures r.Some? ==> r.value == themes[themeId]
    {
      GetThemeIn(themes, themeId)
    }

    /** Always defined, because the current theme is always in the table. */
    function GetCurrentTheme(): (t: Theme)
      requires Valid()
      reads this
      ensures currentTheme in themes && t == themes[currentTheme]
    {
      themes[currentTheme]
    }

    method ApplyTheme(themeId: string) returns (applied: bool)
      requires Valid()
      modifies this
      ensures Valid()
      ensures applied <==> themeId in themes
      ensures currentTheme == (if applied then themeId else old(currentTheme))
      ensures customizations == old(customizations) && themes == old(themes)
    {
      var theme := GetTheme(themeId);
      if theme.None? {
        return false;
      }
      currentTheme := themeId;
      applied := true;
    }

    method CustomizeColors(colorConfig: map<string, string>)
      requires Valid()
      modifies this
      ensures Valid()
      ensures State() == CustomizeTo(old(State()), "colors", colorConfig) && themes == old(themes)
    {
      customizations := MergeCategory(customizations, "colors", colorConfig);
    }

    method CustomizeFonts(fontConfig: map<string, string>)
      requires Valid()
      modifies this
      ensures Valid()
      ensures State() == CustomizeTo(old(State()), "fonts", fontConfig) && themes == old(themes)
    {
      customizations := MergeCategory(customizations, "fonts", fontConfig);
    }

    method CustomizeLayout(layoutConfig: map<string, string>)
      requires Valid()
      modifies this
      ensures Valid()
      ensures State() == CustomizeTo(old(State()), "layout", layoutConfig) && themes == old(themes)
    {
      customizations := MergeCategory(customizations, "layout", layoutConfig);
    }

    function ValidateFontAvailability(): (ok: bool)
      ensures ok == FontsAvailable(AvailableFonts())
      ensures ok
    {
      FontCategoriesFilled();
      var fonts := AvailableFonts();
      var categories := ["sans-serif", "serif", "monospace"];
      forall i :: 0 <= i < |categories| ==> categories[i] in fonts && |fonts[categories[i]]| > 0
    }

    function GetThemeCount(): (n: nat)
      reads this
      ensures n == |themes.Keys|
      ensures themes == ThemeTable() ==> n == 7
    {
      ThemeTableCount();
      |themes.Keys|
    }

    function ValidateThemeCount(): (ok: bool)
      reads this
      ensures ok <==> 5 <= |themes.Keys| <= 10
      ensures themes == ThemeTable() ==> ok
    {
      ThemeTableCount();
      var count := GetThemeCount();
      count >= 5 && count <= 10
    }

    method ResetToDefault()
      requires Valid()
      modifies this
      ensures Valid()
      ensures currentTheme == "default" && customizations == map[] && themes == old(themes)
    {
      var _ := ApplyTheme("default");
      customizations := map[];
    }

    function GetCustomizations(): (c: Customizations)
      reads this
      ensures c == customizations
      ensures Valid() ==> c.Keys <= Categories
    {
      customizations
    }

    function ExportConfiguration(): (config: Configuration)
      reads this
      ensures config == Export(State())
      ensures Valid() ==> config.currentTheme in themes && config.customizations.Keys <= Categories
    {
      Configuration(currentTheme, customizations)
    }

    method ImportConfiguration(config: Configuration)
      requires Valid()
      modifies this
      ensures Valid()
      ensures State() == ImportTo(old(themes), old(State()), config) && themes == old(themes)
    {
      if config.currentTheme != "" {
        var _ := ApplyTheme(config.currentTheme);
      }
      if "colors" in config.customizations {
        CustomizeColors(config.customizations["colors"]);
      }
      if "fonts" in config.customizations {
        CustomizeFonts(config.customizations["fonts"]);
      }
      if "layout" in config.customizations {
        CustomizeLayout(config.customizations["layout"]);
      }
    }
  }
}
