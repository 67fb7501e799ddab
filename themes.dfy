/** The colour themes of themes.py. `set_theme` falls back to "dark" for an
    unknown name, records the chosen name and writes the theme's colours
    over the module's globals; the module starts on "dark". The colour
    globals are a map from colour name to hex string. Fonts and
    `style_button` are outside the model. */
module Themes {
  /** The colour names every theme defines, in declaration order. */
  const ColourNames: seq<string> := ["BG", "PANEL", "CARD", "BTN", "BTN_HOVER", "BORDER", "TXT", "SUBTXT", "SUBTXT_DARK", "ACCENT", "ACCENT_DARK", "SUCCESS", "SUCCESS_GLOW", "DANGER", "DANGER_DARK"]

  /** `THEMES`. */
  const Table: map<string, map<string, string>> := map[
    "dark" := map[
      "BG" := "#0d1117",
      "PANEL" := "#161b22",
      "CARD" := "#1c2128",
      "BTN" := "#21262d",
      "BTN_HOVER" := "#30363d",
      "BORDER" := "#30363d",
      "TXT" := "#e6edf3",
      "SUBTXT" := "#8d96a0",
      "SUBTXT_DARK" := "#6e7681",
      "ACCENT" := "#58a6ff",
      "ACCENT_DARK" := "#1f3a5e",
      "SUCCESS" := "#3fb950",
      "SUCCESS_GLOW" := "#2ea043",
      "DANGER" := "#f85149",
      "DANGER_DARK" := "#da3633"],
    "light" := map[
      "BG" := "#f6f8fa",
      "PANEL" := "#ffffff",
      "CARD" := "#ffffff",
      "BTN" := "#e1e4e8",
      "BTN_HOVER" := "#d0d7de",
      "BORDER" := "#d0d7de",
      "TXT" := "#24292f",
      "SUBTXT" := "#57606a",
      "SUBTXT_DARK" := "#6e7781",
      "ACCENT" := "#0969da",
      "ACCENT_DARK" := "#dbeafe",
      "SUCCESS" := "#1a7f37",
      "SUCCESS_GLOW" := "#116329",
      "DANGER" := "#cf222e",
      "DANGER_DARK" := "#a40e26"],
    "purple" := map[
      "BG" := "#1a0033",
      "PANEL" := "#2d0052",
      "CARD" := "#3d0066",
      "BTN" := "#4d0080",
      "BTN_HOVER" := "#5e0099",
      "BORDER" := "#7c00cc",
      "TXT" := "#f0e6ff",
      "SUBTXT" := "#c4b5fd",
      "SUBTXT_DARK" := "#a78bfa",
      "ACCENT" := "#c084fc",
      "ACCENT_DARK" := "#4a0080",
      "SUCCESS" := "#10b981",
      "SUCCESS_GLOW" := "#059669",
      "DANGER" := "#f43f5e",
      "DANGER_DARK" := "#e11d48"]]

  /** The theme `set_theme(name)` applies: the name itself when it is in the
      table, "dark" otherwise. */
  function Chosen(name: string): (t: string)
    ensures t in Table
    ensures name in Table ==> t == name
    ensures name !in Table ==> t == "dark"
  {
    if name in Table then name else "dark"
  }

  /** The fifteen colour names of the "dark" theme. */
  lemma DarkNames()
    ensures |ColourNames| == 15
    ensures forall c :: c in Table["dark"] <==> c in ColourNames
  {
  }

  /** The other two themes define the same colour names as "dark". */
  lemma ThemesShareNames()
    ensures Table.Keys == {"dark", "light", "purple"}
    ensures Table["light"].Keys == Table["dark"].Keys
    ensures Table["purple"].Keys == Table["dark"].Keys
  {
  }

  /** The theme module's state: `_current` and the colour globals. */
  class ThemeState {
    var current: string
    var colours: map<string, string>

    /** Importing the module: `_current = "dark"` and then
        `set_theme("dark")`. */
    constructor ()
      ensures current == "dark" && colours == Table["dark"]
    {
      current := "dark";
      colours := Table["dark"];
    }

    /** `set_theme`: `_current` becomes the chosen name and the chosen
        theme's colours are written over the globals. */
    method SetTheme(name: string)
      modifies this
      ensures current == Chosen(name)
      ensures colours == old(colours) + Table[Chosen(name)]
      ensures old(colours.Keys) <= Table["dark"].Keys ==> colours == Table[current]
    {
      if colours.Keys <= Table["dark"].Keys {
        SwitchReplacesAll(colours, name);
      }
      var chosen := name;
      if chosen !in Table {
        chosen := "dark";
      }
      current := chosen;
      colours := colours + Table[chosen];
    }

    /** `get_theme`. */
    function GetTheme(): (t: string)
      reads this
      ensures t == current
    {
      current
    }
  }

  /** Since all themes share their colour names, writing a theme over
      colours that only use those names leaves exactly that theme's colours:
      switching replaces every colour. */
  lemma SwitchReplacesAll(colours: map<string, string>, name: string)
    requires forall c :: c in colours ==> c in Table["dark"]
    ensures colours + Table[Chosen(name)] == Table[Chosen(name)]
  {
    ThemesShareNames();
    var t := Table[Chosen(name)];
    assert (colours + t).Keys == t.Keys;
  }
}
