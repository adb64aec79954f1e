/** `ThemeColors`: the two colour schemes of the desktop window, selected by a
    dark/light flag. */
module Theme {
  import opened Drawing

  /** The values `update_colors` assigns to the fields of a ThemeColors. */
  datatype Palette = Palette(
    bgPrimary: string, bgSecondary: string, border: string,
    textPrimary: string, textSecondary: string, accent: string,
    landmarkColor: Color, connectionColor: Color)

  const DarkPalette: Palette := Palette(
    "#1a1a2e", "#232340", "#4040bf", "#e0e0ff", "#9090dd", "#6b46c1",
    Bgr(200, 180, 255), Bgr(180, 160, 220))

  const LightPalette: Palette := Palette(
    "#f0f0ff", "#ffffff", "#8a7eee", "#2c1f56", "#5448a8", "#6b46c1",
    Bgr(130, 80, 180), Bgr(150, 100, 200))

  function PaletteFor(isDark: bool): Palette
  {
    if isDark then DarkPalette else LightPalette
  }

  /** The two themes differ in their landmark colour (so the flag can be read
      back from the palette) and share the accent colour. */
  lemma PaletteDeterminesMode(a: bool, b: bool)
    ensures PaletteFor(a) == PaletteFor(b) <==> a == b
    ensures PaletteFor(a).landmarkColor == PaletteFor(b).landmarkColor <==> a == b
    ensures PaletteFor(a).accent == PaletteFor(b).accent == "#6b46c1"
  {
  }

  class ThemeColors {
    var bgPrimary: string
    var bgSecondary: string
    var border: string
    var textPrimary: string
    var textSecondary: string
    var accent: string
    var landmarkColor: Color
    var connectionColor: Color

    function Colors(): Palette
      reads this
    {
      Palette(bgPrimary, bgSecondary, border, textPrimary, textSecondary, accent,
              landmarkColor, connectionColor)
    }

    constructor (isDark: bool)
      ensures Colors() == PaletteFor(isDark)
    {
      new;
      UpdateColors(isDark);
    }

    /** `update_colors(is_dark)`: every field takes the chosen theme's value. */
    method UpdateColors(isDark: bool)
      modifies this
      ensures Colors() == PaletteFor(isDark)
    {
      if isDark {
        bgPrimary, bgSecondary, border := "#1a1a2e", "#232340", "#4040bf";
        textPrimary, textSecondary, accent := "#e0e0ff", "#9090dd", "#6b46c1";
        landmarkColor, connectionColor := Bgr(200, 180, 255), Bgr(180, 160, 220);
      } else {
        bgPrimary, bgSecondary, border := "#f0f0ff", "#ffffff", "#8a7eee";
        textPrimary, textSecondary, accent := "#2c1f56", "#5448a8", "#6b46c1";
        landmarkColor, connectionColor := Bgr(130, 80, 180), Bgr(150, 100, 200);
      }
    }
  }
}
