/**
 * What the components render for the shipped themes: the inline styles the
 * Windows 11 theme gives the Start button, the taskbar and the menu bar, and the
 * empty styles the Windows 95 classic theme gives the two taskbar components.
 */
module ThemedComponents {
  import opened Wrappers
  import opened Text
  import opened Tokens
  import opened Theming
  import opened Css
  import MoMoShell
  import MoMoStartButton
  import MoMoTaskbar
  import Windows11Theme
  import Windows95ClassicTheme

  /** The Windows 11 borders that draw nothing all have the same shorthand. */
  lemma NoBorderShorthand()
    ensures forall name :: BorderShorthand(Some(BorderToken("0px", "none", "transparent", name))) == Some("0px none transparent")
  {
    assert "0px" + " " + "none" + " " + "transparent" == "0px none transparent";
  }

  /** The Windows 11 Start-button roles. */
  lemma Windows11StartButtonRoles()
    ensures MoMoStartButton.StartButtonCandidates(Windows11Theme.Windows11) == MoMoStartButton.StartButtonSlots(
      Some(ColorToken("transparent", "StartButtonBackground")), Some(SpacingToken("40px", "StartButtonSize")),
      Some(BorderToken("4px", "solid", "transparent", "StartButtonRadius")),
      Some(BorderToken("0px", "none", "transparent", "StartButtonBorder")))
  {
    Windows11Theme.ColorLookups();
    Windows11Theme.SpacingLookups();
    Windows11Theme.BorderAndShadowLookups();
  }

  /** The Windows 11 Start-button slots are all filled. */
  lemma Windows11StartButtonSlots()
    ensures MoMoStartButton.StartButtonCandidates(Windows11Theme.Windows11) == [
      Candidate("background-color", Some("transparent")),
      Candidate("width", Some("40px")),
      Candidate("height", Some("40px")),
      Candidate("border-radius", Some("4px")),
      Candidate("border", Some("0px none transparent"))]
  {
    Windows11StartButtonRoles();
    NoBorderShorthand();
  }

  /** The Windows 11 Start button: transparent, 40px square, 4px corners, no border. */
  lemma Windows11StartButtonStyle()
    ensures Present(MoMoStartButton.StartButtonCandidates(Windows11Theme.Windows11)) == [
      Declaration("background-color", "transparent"),
      Declaration("width", "40px"),
      Declaration("height", "40px"),
      Declaration("border-radius", "4px"),
      Declaration("border", "0px none transparent")]
  {
    Windows11StartButtonSlots();
    AllPresentEmitsEach(MoMoStartButton.StartButtonCandidates(Windows11Theme.Windows11));
  }

  /** The Windows 11 Start button's style opens with its transparent background. */
  lemma Windows11StartButtonStartsTransparent()
    ensures var ds := Present(MoMoStartButton.StartButtonCandidates(Windows11Theme.Windows11));
            ds != [] && Render(ds) == "background-color: transparent; " + Render(ds[1..])
  {
    Windows11StartButtonStyle();
    RenderFirst(Present(MoMoStartButton.StartButtonCandidates(Windows11Theme.Windows11)));
  }

  /** The Windows 95 classic theme has no Start-button roles: the button gets no inline style. */
  lemma Windows95ClassicStartButtonUnstyled()
    ensures Render(Present(MoMoStartButton.StartButtonCandidates(Windows95ClassicTheme.Windows95Classic))) == ""
  {
    Windows95ClassicTheme.NoTaskbarOrStartButtonRoles();
    AllMissingRendersEmpty(MoMoStartButton.StartButtonCandidates(Windows95ClassicTheme.Windows95Classic));
  }

  /** The Windows 11 icon is its own `StartButtonIcon` blue; the classic theme falls back to the default. */
  lemma IconColors()
    ensures MoMoStartButton.IconColor(Some(Windows11Theme.Windows11)) == "#0078d4"
    ensures MoMoStartButton.IconColor(Some(Windows95ClassicTheme.Windows95Classic)) == MoMoStartButton.DefaultIconColor
  {
    NotBlank("StartButtonIcon");
    Windows95ClassicTheme.NoTaskbarOrStartButtonRoles();
  }

  /** The Windows 11 taskbar roles. */
  lemma Windows11TaskbarRoles()
    ensures MoMoTaskbar.TaskbarCandidates(Windows11Theme.Windows11) == MoMoTaskbar.TaskbarSlots(
      Some(ColorToken("rgba(243, 243, 243, 0.85)", "TaskbarBackground")), Some(ColorToken("#e5e5e5", "TaskbarBorder")),
      Some(ShadowToken("0 -2px 8px rgba(0, 0, 0, 0.12)", "TaskbarShadow")),
      Some(SpacingToken("48px", "TaskbarHeight")), Some(SpacingToken("4px 8px", "TaskbarPadding")))
  {
    NotBlank("TaskbarBackground");
    NotBlank("TaskbarBorder");
    Windows11Theme.SpacingLookups();
    Windows11Theme.BorderAndShadowLookups();
  }

  /** The Windows 11 taskbar slots are all filled. */
  lemma Windows11TaskbarSlots()
    ensures MoMoTaskbar.TaskbarCandidates(Windows11Theme.Windows11) == [
      Candidate("background-color", Some("rgba(243, 243, 243, 0.85)")),
      Candidate("border-top", Some("1px solid #e5e5e5")),
      Candidate("box-shadow", Some("0 -2px 8px rgba(0, 0, 0, 0.12)")),
      Candidate("height", Some("48px")),
      Candidate("padding", Some("4px 8px"))]
  {
    Windows11TaskbarRoles();
    assert "1px solid " + "#e5e5e5" == "1px solid #e5e5e5";
  }

  /** The Windows 11 taskbar: translucent light background, hairline top border, shadow, height and padding. */
  lemma Windows11TaskbarStyle()
    ensures Present(MoMoTaskbar.TaskbarCandidates(Windows11Theme.Windows11)) == [
      Declaration("background-color", "rgba(243, 243, 243, 0.85)"),
      Declaration("border-top", "1px solid #e5e5e5"),
      Declaration("box-shadow", "0 -2px 8px rgba(0, 0, 0, 0.12)"),
      Declaration("height", "48px"),
      Declaration("padding", "4px 8px")]
  {
    Windows11TaskbarSlots();
    AllPresentEmitsEach(MoMoTaskbar.TaskbarCandidates(Windows11Theme.Windows11));
  }

  /** The Windows 95 classic theme has no taskbar roles: the taskbar gets no inline style. */
  lemma Windows95ClassicTaskbarUnstyled()
    ensures Render(Present(MoMoTaskbar.TaskbarCandidates(Windows95ClassicTheme.Windows95Classic))) == ""
  {
    Windows95ClassicTheme.NoTaskbarOrStartButtonRoles();
    AllMissingRendersEmpty(MoMoTaskbar.TaskbarCandidates(Windows95ClassicTheme.Windows95Classic));
  }

  /** The Windows 11 menu-bar roles. */
  lemma Windows11MenuBarRoles(position: MoMoShell.MenuBarPosition)
    ensures MoMoShell.MenuBarCandidates(Windows11Theme.Windows11, position) == MoMoShell.MenuBarSlots(
      Some(ColorToken("rgba(32, 32, 32, 0.85)", "MenuBarBackground")),
      Some(ColorToken("rgba(255, 255, 255, 0.95)", "MenuBarText")),
      Some(SpacingToken("48px", "MenuBarHeight")),
      Some(TypographyToken("Segoe UI Variable", "12px", "400", "MenuBarFont")),
      Some(ShadowToken("0 2px 8px rgba(0,0,0,0.15)", "MenuBarShadow")),
      Some(BorderToken("0px", "none", "transparent", "MenuBarBorder")),
      position)
  {
    Windows11Theme.MenuBarColorLookups();
    Windows11Theme.MenuBarTokenLookups();
  }

  /** The Windows 11 menu-bar slots at the top are all filled. */
  lemma Windows11TopMenuBarSlots()
    ensures MoMoShell.MenuBarCandidates(Windows11Theme.Windows11, MoMoShell.Top) == [
      Candidate("background-color", Some("rgba(32, 32, 32, 0.85)")),
      Candidate("color", Some("rgba(255, 255, 255, 0.95)")),
      Candidate("height", Some("48px")),
      Candidate("font-family", Some("Segoe UI Variable")),
      Candidate("font-size", Some("12px")),
      Candidate("font-weight", Some("400")),
      Candidate("box-shadow", Some("0 2px 8px rgba(0,0,0,0.15)")),
      Candidate("border", Some("0px none transparent"))]
  {
    Windows11MenuBarRoles(MoMoShell.Top);
    NoBorderShorthand();
  }

  /** The Windows 11 menu bar at the top: dark translucent bar, 48px high, Segoe UI Variable, no border line. */
  lemma Windows11TopMenuBarStyle()
    ensures Present(MoMoShell.MenuBarCandidates(Windows11Theme.Windows11, MoMoShell.Top)) == [
      Declaration("background-color", "rgba(32, 32, 32, 0.85)"),
      Declaration("color", "rgba(255, 255, 255, 0.95)"),
      Declaration("height", "48px"),
      Declaration("font-family", "Segoe UI Variable"),
      Declaration("font-size", "12px"),
      Declaration("font-weight", "400"),
      Declaration("box-shadow", "0 2px 8px rgba(0,0,0,0.15)"),
      Declaration("border", "0px none transparent")]
  {
    Windows11TopMenuBarSlots();
    AllPresentEmitsEach(MoMoShell.MenuBarCandidates(Windows11Theme.Windows11, MoMoShell.Top));
  }
}
