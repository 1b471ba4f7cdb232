/**
 * `MoMoStartButton`: the Start button. Its code-behind computes the button's CSS
 * classes, its inline styles and its icon colour from an optional theme, and invokes
 * the `OnClick` callback on a click or on an activation key.
 */
module MoMoStartButton {
  import opened Wrappers
  import opened Text
  import opened Tokens
  import opened Theming
  import opened Css

  /** The icon colour used when there is no theme or the theme has no `StartButtonIcon` role. */
  const DefaultIconColor := "#0078d4"

  /** `GetCssClasses`: "momo-start-button", then the trimmed custom class when it is not blank. */
  function CssClasses(cssClass: Option<string>): (classes: string)
    ensures IsNullOrWhiteSpace(cssClass) ==> classes == "momo-start-button"
    ensures !IsNullOrWhiteSpace(cssClass) ==> classes == "momo-start-button " + Trim(cssClass.value)
  {
    TrimmedClassList("momo-start-button", cssClass)
  }

  /** The corner radius of a border role: the token's width, if the theme defines the role. */
  function RadiusValue(t: Option<BorderToken>): (v: Option<string>)
    ensures v.Some? <==> t.Some?
    ensures v.Some? ==> v.value == t.value.width
  {
    if t.Some? then Some(t.value.width) else None
  }

  /** The Start-button slots in append order: background, width, height, corner radius, border. */
  function StartButtonSlots(
    background: Option<ColorToken>, size: Option<SpacingToken>, radius: Option<BorderToken>, border: Option<BorderToken>)
    : seq<Candidate>
  {
    [ Candidate("background-color", ColorValue(background)),
      Candidate("width", SpacingValue(size)),
      Candidate("height", SpacingValue(size)),
      Candidate("border-radius", RadiusValue(radius)),
      Candidate("border", BorderShorthand(border)) ]
  }

  /** The Start-button slots of a theme. */
  function StartButtonCandidates(theme: Theme): seq<Candidate> {
    StartButtonSlots(
      theme.GetColor("StartButtonBackground"), theme.GetSpacing("StartButtonSize"),
      theme.GetBorder("StartButtonRadius"), theme.GetBorder("StartButtonBorder"))
  }

  /**
   * `GetInlineStyles`: empty without a theme; otherwise the declarations of the
   * Start-button roles the theme defines, appended in slot order.
   */
  method GetInlineStyles(theme: Option<Theme>) returns (styles: string)
    ensures theme.None? ==> styles == ""
    ensures theme.Some? ==> styles == Render(Present(StartButtonCandidates(theme.value)))
  {
    if theme.None? {
      return "";
    }
    var t := theme.value;
    var background := t.GetColor("StartButtonBackground");
    var size := t.GetSpacing("StartButtonSize");
    var borderRadius := t.GetBorder("StartButtonRadius");
    var border := t.GetBorder("StartButtonBorder");
    styles := AppendStartButtonDeclarations(background, size, borderRadius, border);
  }

  /**
   * The `StringBuilder` part of `GetInlineStyles`: a size appends `width` and `height`
   * with the same value, and the corner radius is the radius token's width.
   */
  method AppendStartButtonDeclarations(
    background: Option<ColorToken>, size: Option<SpacingToken>, borderRadius: Option<BorderToken>, border: Option<BorderToken>)
    returns (styles: string)
    ensures styles == Render(Present(StartButtonSlots(background, size, borderRadius, border)))
  {
    ghost var slots := StartButtonSlots(background, size, borderRadius, border);
    assert Appended(slots[..0]) == "" by { assert slots[..0] == []; }

    styles := AppendIfPresent("", "background-color", ColorValue(background));
    AppendedPrefix(slots, 1);
    styles := AppendIfPresent(styles, "width", SpacingValue(size));
    AppendedPrefix(slots, 2);
    styles := AppendIfPresent(styles, "height", SpacingValue(size));
    AppendedPrefix(slots, 3);
    styles := AppendIfPresent(styles, "border-radius", RadiusValue(borderRadius));
    AppendedPrefix(slots, 4);
    styles := AppendIfPresent(styles, "border", BorderShorthand(border));
    assert styles == Appended(slots);
    RenderPresentIsAppended(slots);
  }

  /**
   * A theme with a `StartButtonSize` role sizes the button square: `width` and
   * `height` are both emitted, with the token's value; without the role neither is.
   */
  lemma SizeSetsWidthAndHeight(theme: Theme)
    ensures var size := theme.GetSpacing("StartButtonSize");
            var ds := Present(StartButtonCandidates(theme));
            && (size.Some? ==> Declaration("width", size.value.value) in ds && Declaration("height", size.value.value) in ds)
            && (size.None? ==> forall v :: Declaration("width", v) !in ds && Declaration("height", v) !in ds)
  {
    PresentMembership(StartButtonCandidates(theme));
  }

  /** The corner radius is the `StartButtonRadius` token's width, and only that. */
  lemma RadiusUsesBorderWidth(theme: Theme, v: string)
    ensures Declaration("border-radius", v) in Present(StartButtonCandidates(theme))
            <==> theme.GetBorder("StartButtonRadius").Some? && theme.GetBorder("StartButtonRadius").value.width == v
  {
    PresentMembership(StartButtonCandidates(theme));
  }

  /** `GetIconColor`: the `StartButtonIcon` colour of the theme, or the default blue. */
  function IconColor(theme: Option<Theme>): (color: string)
    ensures theme.Some? && theme.value.GetColor("StartButtonIcon").Some?
            ==> color == theme.value.colors["StartButtonIcon"].value
    ensures theme.None? || theme.value.GetColor("StartButtonIcon").None? ==> color == DefaultIconColor
  {
    if theme.None? then DefaultIconColor
    else
      var iconColor := theme.value.GetColor("StartButtonIcon");
      if iconColor.Some? then iconColor.value.value else DefaultIconColor
  }

  /** For no theme, or a theme whose tokens are valid, the icon colour is never blank. */
  lemma IconColorNotBlank(theme: Option<Theme>)
    ensures theme.None? || TokensValid(theme.value) ==> !IsBlank(IconColor(theme))
  {
    NotBlank(DefaultIconColor);
  }

  /** The keys `HandleKeyPress` treats as a click. */
  predicate IsActivationKey(key: string) {
    key == " " || key == "Enter"
  }

  /**
   * The interactive part of the component. `OnClick.InvokeAsync` is modelled by the
   * count of invocations it has received.
   */
  class StartButton {
    var clickInvocations: nat

    constructor()
      ensures clickInvocations == 0
    {
      clickInvocations := 0;
    }

    /** `HandleClick`: a click always invokes `OnClick`. */
    method HandleClick()
      modifies this
      ensures clickInvocations == old(clickInvocations) + 1
    {
      clickInvocations := clickInvocations + 1;
    }

    /** `HandleKeyPress`: a space or Enter invokes `OnClick`; any other key does nothing. */
    method HandleKeyPress(key: string)
      modifies this
      ensures IsActivationKey(key) ==> clickInvocations == old(clickInvocations) + 1
      ensures !IsActivationKey(key) ==> clickInvocations == old(clickInvocations)
    {
      if key == " " || key == "Enter" {
        clickInvocations := clickInvocations + 1;
      }
    }
  }
}
