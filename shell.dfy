/**
 * `MoMoShell`: the application shell. Its code-behind computes the container's CSS
 * classes from the menu-bar position and an optional custom class, and the inline
 * styles of the menu bar and the content area from an optional theme.
 */
module MoMoShell {
  import opened Wrappers
  import opened Text
  import opened Tokens
  import opened Theming
  import opened Css

  /** Where the menu bar sits (`MenuBarPosition`). */
  datatype MenuBarPosition = Top | Bottom | Left | Right

  /** The position's CSS class. */
  function PositionClass(position: MenuBarPosition): string {
    match position
    case Top => "momo-shell-top"
    case Bottom => "momo-shell-bottom"
    case Left => "momo-shell-left"
    case Right => "momo-shell-right"
  }

  /** Distinct positions get distinct classes. */
  lemma PositionClassInjective(p: MenuBarPosition, q: MenuBarPosition)
    ensures PositionClass(p) == PositionClass(q) <==> p == q
  {
    if PositionClass(p) == PositionClass(q) {
      assert PositionClass(p)[11] == PositionClass(q)[11];
      assert PositionClass(p)[11] == match p case Top => 't' case Bottom => 'b' case Left => 'l' case Right => 'r';
      assert PositionClass(q)[11] == match q case Top => 't' case Bottom => 'b' case Left => 'l' case Right => 'r';
    }
  }

  /**
   * `GetShellCssClasses`: "momo-shell", the position's class and, when the custom
   * class is not blank, the custom class exactly as given (not trimmed), each
   * separated by one space.
   */
  function ShellCssClasses(position: MenuBarPosition, cssClass: Option<string>): (classes: string)
    ensures IsNullOrWhiteSpace(cssClass) ==> classes == "momo-shell " + PositionClass(position)
    ensures !IsNullOrWhiteSpace(cssClass) ==> classes == "momo-shell " + PositionClass(position) + " " + cssClass.value
  {
    var classes := "momo-shell " + PositionClass(position);
    if !IsNullOrWhiteSpace(cssClass) then classes + " " + cssClass.value else classes
  }

  /** The class string determines the position: no custom class can make two positions look alike. */
  lemma ShellClassesDeterminePosition(p: MenuBarPosition, c: Option<string>, q: MenuBarPosition, d: Option<string>)
    requires ShellCssClasses(p, c) == ShellCssClasses(q, d)
    ensures p == q
  {
    assert ShellCssClasses(p, c)[22] == PositionClass(p)[11];
    assert ShellCssClasses(q, d)[22] == PositionClass(q)[11];
    PositionClassInjective(p, q);
  }

  /** The custom class is kept verbatim: surrounding white space reaches the class attribute. */
  lemma ShellCustomClassNotTrimmed()
    ensures ShellCssClasses(Top, Some(" extra ")) == "momo-shell momo-shell-top  extra "
  {
    assert !IsBlank(" extra ") by {
      assert " extra "[1] == 'e';
    }
  }

  /** The menu bar's extent: `height` for a horizontal bar, `width` for a vertical one. */
  function SizeProperty(position: MenuBarPosition): string {
    if position == Top || position == Bottom then "height" else "width"
  }

  /** The font family of a typography role, if the theme defines the role. */
  function FontFamilyValue(t: Option<TypographyToken>): (v: Option<string>)
    ensures v.Some? <==> t.Some?
    ensures v.Some? ==> v.value == t.value.fontFamily
  {
    if t.Some? then Some(t.value.fontFamily) else None
  }

  /** The font size of a typography role, if the theme defines the role. */
  function FontSizeValue(t: Option<TypographyToken>): (v: Option<string>)
    ensures v.Some? <==> t.Some?
    ensures v.Some? ==> v.value == t.value.fontSize
  {
    if t.Some? then Some(t.value.fontSize) else None
  }

  /** The font weight of a typography role, if the theme defines the role. */
  function FontWeightValue(t: Option<TypographyToken>): (v: Option<string>)
    ensures v.Some? <==> t.Some?
    ensures v.Some? ==> v.value == t.value.fontWeight
  {
    if t.Some? then Some(t.value.fontWeight) else None
  }

  /**
   * The menu-bar slots in append order, from the looked-up roles: background, text
   * colour, size, the three font properties, shadow, border.
   */
  function MenuBarSlots(
    background: Option<ColorToken>, text: Option<ColorToken>, height: Option<SpacingToken>,
    font: Option<TypographyToken>, shadow: Option<ShadowToken>, border: Option<BorderToken>,
    position: MenuBarPosition): seq<Candidate>
  {
    [ Candidate("background-color", ColorValue(background)),
      Candidate("color", ColorValue(text)),
      Candidate(SizeProperty(position), SpacingValue(height)),
      Candidate("font-family", FontFamilyValue(font)),
      Candidate("font-size", FontSizeValue(font)),
      Candidate("font-weight", FontWeightValue(font)),
      Candidate("box-shadow", ShadowValue(shadow)),
      Candidate("border", BorderShorthand(border)) ]
  }

  /** The menu-bar slots of a theme. */
  function MenuBarCandidates(theme: Theme, position: MenuBarPosition): seq<Candidate> {
    MenuBarSlots(
      theme.GetColor("MenuBarBackground"), theme.GetColor("MenuBarText"), theme.GetSpacing("MenuBarHeight"),
      theme.GetTypography("MenuBarFont"), theme.GetShadow("MenuBarShadow"), theme.GetBorder("MenuBarBorder"),
      position)
  }

  /** The content-area slots: the primary background only. */
  function ContentCandidates(theme: Theme): seq<Candidate> {
    [Candidate("background-color", ColorValue(theme.GetColor("PrimaryBackground")))]
  }

  /**
   * `GetMenuBarStyles`: empty without a theme; otherwise the declarations of the
   * menu-bar roles the theme defines, appended in slot order.
   */
  method GetMenuBarStyles(theme: Option<Theme>, position: MenuBarPosition) returns (styles: string)
    ensures theme.None? ==> styles == ""
    ensures theme.Some? ==> styles == Render(Present(MenuBarCandidates(theme.value, position)))
  {
    if theme.None? {
      return "";
    }
    var t := theme.value;
    var menuBarBg := t.GetColor("MenuBarBackground");
    var menuBarText := t.GetColor("MenuBarText");
    var menuBarHeight := t.GetSpacing("MenuBarHeight");
    var menuBarFont := t.GetTypography("MenuBarFont");
    var menuBarShadow := t.GetShadow("MenuBarShadow");
    var menuBarBorder := t.GetBorder("MenuBarBorder");
    styles := AppendMenuBarDeclarations(menuBarBg, menuBarText, menuBarHeight, menuBarFont, menuBarShadow, menuBarBorder, position);
  }

  /**
   * The `StringBuilder` part of `GetMenuBarStyles`: each looked-up role that is present
   * appends its declaration, in slot order.
   */
  method AppendMenuBarDeclarations(
    menuBarBg: Option<ColorToken>, menuBarText: Option<ColorToken>, menuBarHeight: Option<SpacingToken>,
    menuBarFont: Option<TypographyToken>, menuBarShadow: Option<ShadowToken>, menuBarBorder: Option<BorderToken>,
    position: MenuBarPosition) returns (styles: string)
    ensures styles == Render(Present(MenuBarSlots(menuBarBg, menuBarText, menuBarHeight, menuBarFont, menuBarShadow, menuBarBorder, position)))
  {
    styles := AppendColorsAndSize(menuBarBg, menuBarText, menuBarHeight, position);
    styles := AppendFontShadowAndBorder(styles, menuBarFont, menuBarShadow, menuBarBorder);
    MenuBarRendering(menuBarBg, menuBarText, menuBarHeight, menuBarFont, menuBarShadow, menuBarBorder, position);
  }

  /** The menu-bar style is the text of its eight slots, one after the other. */
  lemma MenuBarRendering(
    menuBarBg: Option<ColorToken>, menuBarText: Option<ColorToken>, menuBarHeight: Option<SpacingToken>,
    menuBarFont: Option<TypographyToken>, menuBarShadow: Option<ShadowToken>, menuBarBorder: Option<BorderToken>,
    position: MenuBarPosition)
    ensures Render(Present(MenuBarSlots(menuBarBg, menuBarText, menuBarHeight, menuBarFont, menuBarShadow, menuBarBorder, position)))
            == Contribution(Candidate("background-color", ColorValue(menuBarBg)))
               + Contribution(Candidate("color", ColorValue(menuBarText)))
               + Contribution(Candidate(SizeProperty(position), SpacingValue(menuBarHeight)))
               + Contribution(Candidate("font-family", FontFamilyValue(menuBarFont)))
               + Contribution(Candidate("font-size", FontSizeValue(menuBarFont)))
               + Contribution(Candidate("font-weight", FontWeightValue(menuBarFont)))
               + Contribution(Candidate("box-shadow", ShadowValue(menuBarShadow)))
               + Contribution(Candidate("border", BorderShorthand(menuBarBorder)))
  {
    RenderPresentOfEight(MenuBarSlots(menuBarBg, menuBarText, menuBarHeight, menuBarFont, menuBarShadow, menuBarBorder, position));
  }

  /** The first three menu-bar appends: background, text colour, and the size under `height` or `width` by position. */
  method AppendColorsAndSize(
    menuBarBg: Option<ColorToken>, menuBarText: Option<ColorToken>, menuBarHeight: Option<SpacingToken>,
    position: MenuBarPosition) returns (r: string)
    ensures r == Contribution(Candidate("background-color", ColorValue(menuBarBg)))
                 + Contribution(Candidate("color", ColorValue(menuBarText)))
                 + Contribution(Candidate(SizeProperty(position), SpacingValue(menuBarHeight)))
  {
    r := AppendIfPresent("", "background-color", ColorValue(menuBarBg));
    assert r == Contribution(Candidate("background-color", ColorValue(menuBarBg)));
    r := AppendIfPresent(r, "color", ColorValue(menuBarText));
    r := AppendIfPresent(r, SizeProperty(position), SpacingValue(menuBarHeight));
  }

  /** The last menu-bar appends: the font's three properties, then the shadow and the border. */
  method AppendFontShadowAndBorder(
    styles: string, menuBarFont: Option<TypographyToken>, menuBarShadow: Option<ShadowToken>, menuBarBorder: Option<BorderToken>)
    returns (r: string)
    ensures r == styles + Contribution(Candidate("font-family", FontFamilyValue(menuBarFont)))
                        + Contribution(Candidate("font-size", FontSizeValue(menuBarFont)))
                        + Contribution(Candidate("font-weight", FontWeightValue(menuBarFont)))
                        + Contribution(Candidate("box-shadow", ShadowValue(menuBarShadow)))
                        + Contribution(Candidate("border", BorderShorthand(menuBarBorder)))
  {
    r := AppendFontDeclarations(styles, menuBarFont);
    r := AppendIfPresent(r, "box-shadow", ShadowValue(menuBarShadow));
    r := AppendIfPresent(r, "border", BorderShorthand(menuBarBorder));
  }

  /** The font block of `GetMenuBarStyles`: a font appends its three properties together, no font appends nothing. */
  method AppendFontDeclarations(styles: string, font: Option<TypographyToken>) returns (r: string)
    ensures r == styles + Contribution(Candidate("font-family", FontFamilyValue(font)))
                        + Contribution(Candidate("font-size", FontSizeValue(font)))
                        + Contribution(Candidate("font-weight", FontWeightValue(font)))
  {
    r := styles;
    if font.Some? {
      r := AppendIfPresent(r, "font-family", Some(font.value.fontFamily));
      r := AppendIfPresent(r, "font-size", Some(font.value.fontSize));
      r := AppendIfPresent(r, "font-weight", Some(font.value.fontWeight));
    } else {
      assert r + "" + "" + "" == r;
    }
  }

  /**
   * `GetContentStyles`: empty without a theme; otherwise the primary background's
   * declaration when the theme defines it.
   */
  method GetContentStyles(theme: Option<Theme>) returns (styles: string)
    ensures theme.None? ==> styles == ""
    ensures theme.Some? ==> styles == Render(Present(ContentCandidates(theme.value)))
  {
    if theme.None? {
      return "";
    }
    ghost var slots := ContentCandidates(theme.value);
    var contentBg := theme.value.GetColor("PrimaryBackground");
    styles := AppendIfPresent("", "background-color", ColorValue(contentBg));
    assert slots[..0] == [];
    RenderPresentIsAppended(slots);
  }

  /**
   * The content style of a theme is the `PrimaryBackground` declaration when the
   * theme has that colour, and empty otherwise.
   */
  lemma ContentStyleIsPrimaryBackground(theme: Theme)
    ensures var bg := theme.GetColor("PrimaryBackground");
            && (bg.Some? ==> Render(Present(ContentCandidates(theme))) == "background-color: " + bg.value.value + "; ")
            && (bg.None? ==> Render(Present(ContentCandidates(theme))) == "")
  {
    var c := ContentCandidates(theme)[0];
    PresentSingle(c);
    RenderEmit(c);
  }

  /**
   * The size declaration follows the position: a theme that defines `MenuBarHeight`
   * gets `height` for a horizontal bar and `width` for a vertical one, never the other.
   */
  lemma MenuBarSizeFollowsPosition(theme: Theme, position: MenuBarPosition)
    requires theme.GetSpacing("MenuBarHeight").Some?
    ensures var v := theme.GetSpacing("MenuBarHeight").value.value;
            position in {Top, Bottom} ==> Declaration("height", v) in Present(MenuBarCandidates(theme, position))
    ensures position in {Top, Bottom} ==> forall w :: Declaration("width", w) !in Present(MenuBarCandidates(theme, position))
    ensures var v := theme.GetSpacing("MenuBarHeight").value.value;
            position in {Left, Right} ==> Declaration("width", v) in Present(MenuBarCandidates(theme, position))
    ensures position in {Left, Right} ==> forall w :: Declaration("height", w) !in Present(MenuBarCandidates(theme, position))
  {
    var cs := MenuBarCandidates(theme, position);
    PresentMembership(cs);
    assert cs[2] == Candidate(SizeProperty(position), Some(theme.GetSpacing("MenuBarHeight").value.value));
  }

  /**
   * A menu-bar role the theme lacks removes only its own declaration: dropping the
   * shadow token from a theme removes exactly the `box-shadow` text, whatever the
   * other roles hold.
   */
  lemma MenuBarShadowOmittedAlone(theme: Theme, position: MenuBarPosition, shadow: ShadowToken)
    requires theme.GetShadow("MenuBarShadow") == Some(shadow)
    ensures var without := theme.(shadows := theme.shadows - {"MenuBarShadow"});
            var cs := MenuBarCandidates(theme, position);
            && Render(Present(MenuBarCandidates(without, position)))
               == Render(Present(cs[..6])) + Render(Present(cs[7..]))
            && Render(Present(cs))
               == Render(Present(cs[..6])) + Serialize(Declaration("box-shadow", shadow.value)) + Render(Present(cs[7..]))
  {
    var without := theme.(shadows := theme.shadows - {"MenuBarShadow"});
    var cs := MenuBarCandidates(theme, position);
    var ds := MenuBarCandidates(without, position);
    assert without.GetShadow("MenuBarShadow") == None;
    assert ds == cs[..6] + [Candidate("box-shadow", None)] + cs[7..];
    assert cs == cs[..6] + [cs[6]] + cs[7..];
    SlotContributesOnlyItsOwnText(cs[..6], Candidate("box-shadow", None), cs[7..]);
    SlotContributesOnlyItsOwnText(cs[..6], cs[6], cs[7..]);
  }
}
