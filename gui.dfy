/** The desktop window (`ASLRecognitionApp`): its theme state and the
    per-tick `update_frame`, which annotates the camera frame and sets the
    letter shown in the circular display. */
module Gui {
  import opened Wrappers
  import opened Landmarks
  import opened Features
  import opened Labels
  import opened Drawing
  import opened Theme
  import opened Pipeline

  /** The text of the theme button: a moon in dark mode, a sun in light mode. */
  function ThemeIcon(isDark: bool): string
  {
    if isDark then "\U{1F319}" else "\U{2600}"
  }

  /** The letter display after a tick that read a frame: the recognised sign,
      otherwise '?'. */
  function DisplayText(v: Verdict): string
  {
    match v
    case Recognized(sign) => sign
    case _ => Unknown
  }

  class App {
    var isDarkMode: bool
    /** The window's colours, and the circular letter display's own copy. */
    const themeColors: ThemeColors
    const displayColors: ThemeColors
    var themeIcon: string
    /** The text of the circular letter display. */
    var letterDisplay: string

    /** Both colour sets and the button follow the dark-mode flag. */
    ghost predicate Valid()
      reads this, themeColors, displayColors
    {
      && themeColors != displayColors
      && themeColors.Colors() == PaletteFor(isDarkMode)
      && displayColors.Colors() == PaletteFor(isDarkMode)
      && themeIcon == ThemeIcon(isDarkMode)
    }

    /** `__init__` and `initUI`: dark mode, '?' on the display. */
    constructor ()
      ensures Valid() && isDarkMode && letterDisplay == Unknown
      ensures fresh(themeColors) && fresh(displayColors)
    {
      isDarkMode := true;
      themeColors := new ThemeColors(true);
      displayColors := new ThemeColors(true);
      letterDisplay := Unknown;
      new;
      UpdateTheme();
    }

    /** `update_theme`: recolour from the current flag (stylesheets not modelled). */
    method UpdateTheme()
      modifies this`themeIcon, themeColors, displayColors
      requires themeColors != displayColors
      ensures Valid()
    {
      themeColors.UpdateColors(isDarkMode);
      themeIcon := ThemeIcon(isDarkMode);
      displayColors.UpdateColors(isDarkMode);
    }

    /** `toggle_theme`: flip the flag and recolour; the displayed letter is kept. */
    method ToggleTheme()
      requires Valid()
      modifies this`isDarkMode, this`themeIcon, themeColors, displayColors
      ensures Valid()
      ensures isDarkMode == !old(isDarkMode) && letterDisplay == old(letterDisplay)
      ensures themeColors.Colors() != old(themeColors.Colors())
    {
      isDarkMode := !isDarkMode;
      UpdateTheme();
      PaletteDeterminesMode(isDarkMode, !isDarkMode);
    }

    /** `update_frame` on one tick. `capture` is the camera read (None when it
        fails), already mirrored; `detect` and `predict` are the hand detector
        and the trained model. */
    method UpdateFrame(capture: Option<Frame>, detect: Detector, predict: Classifier)
      requires Valid()
      modifies this`letterDisplay, if capture.Some? then {capture.value} else {}
      ensures Valid()
      ensures capture.None? ==> letterDisplay == old(letterDisplay)
      ensures capture.Some? ==>
        var f := capture.value;
        var hands := detect(f.image);
        && letterDisplay == DisplayText(Classify(hands, predict))
        && f.overlay == old(f.overlay) + Overlay(hands, f.image.width, f.image.height,
                          themeColors.landmarkColor, themeColors.landmarkColor, predict, false)
    {
      if capture.None? {
        return;
      }
      var frame := capture.value;
      var hands := detect(frame.image);
      var verdict := RecognizeHands(frame, hands, themeColors.landmarkColor, themeColors.landmarkColor, predict, false);
      letterDisplay := DisplayText(verdict);
    }
  }

  /** Toggling twice restores the mode and every colour. */
  method ToggleTwice(app: App)
    requires app.Valid()
    modifies app, app.themeColors, app.displayColors
    ensures app.Valid()
    ensures app.isDarkMode == old(app.isDarkMode)
    ensures app.themeColors.Colors() == old(app.themeColors.Colors())
    ensures app.displayColors.Colors() == old(app.displayColors.Colors())
  {
    app.ToggleTheme();
    app.ToggleTheme();
  }

  /** The display shows '?' exactly when no sign was recognised or the
      classifier's index is off the table; otherwise it shows the index's label. */
  lemma DisplayUnknownIff(hands: seq<Hand>, predict: Classifier)
    ensures DisplayText(Classify(hands, predict)) == Unknown <==>
      (hands == [] || predict(FeatureVector(hands)).None?
       || !(0 <= predict(FeatureVector(hands)).value < |Vocabulary|))
    ensures hands != [] && predict(FeatureVector(hands)).Some? ==>
      DisplayText(Classify(hands, predict)) == LabelOf(predict(FeatureVector(hands)).value)
  {
    if hands != [] && predict(FeatureVector(hands)).Some? {
      UnknownExactlyOffTable(predict(FeatureVector(hands)).value);
    }
  }
}
