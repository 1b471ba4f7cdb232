/**
 * `MoMoTaskbar`: the taskbar container. Its code-behind computes the container's CSS
 * classes and its inline styles from an optional theme.
 */
module MoMoTaskbar {
  import opened Wrappers
  import opened Text
  import opened Tokens
  import opened Theming
  import opened Css

  /** `GetCssClasses`: "momo-taskbar", then the trimmed custom class when it is not blank. */
  function CssClasses(cssClass: Option<string>): (classes: string)
    ensures IsNullOrWhiteSpace(cssClass) ==> classes == "momo-taskbar"
    ensures !IsNullOrWhiteSpace(cssClass) ==> classes == "momo-taskbar " + Trim(cssClass.value)
  {
    TrimmedClassList("momo-taskbar", cssClass)
  }

  /** The top border of a colour role: a one-pixel solid line in that colour. */
  function BorderTopValue(t: Option<ColorToken>): (v: Option<string>)
    ensures v.Some? <==> t.Some?
    ensures v.Some? ==> v.value == "1px solid " + t.value.value
  {
    if t.Some? then Some("1px solid " + t.value.value) else None
  }

  /** The taskbar slots in append order: background, top border, shadow, height, padding. */
  function TaskbarSlots(
    background: Option<ColorToken>, border: Option<ColorToken>, shadow: Option<ShadowToken>,
    height: Option<SpacingToken>, padding: Option<SpacingToken>): seq<Candidate>
  {
    [ Candidate("background-color", ColorValue(background)),
      Candidate("border-top", BorderTopValue(border)),
      Candidate("box-shadow", ShadowValue(shadow)),
      Candidate("height", SpacingValue(height)),
      Candidate("padding", SpacingValue(padding)) ]
  }

  /** The taskbar slots of a theme. */
  function TaskbarCandidates(theme: Theme): seq<Candidate> {
    TaskbarSlots(
      theme.GetColor("TaskbarBackground"), theme.GetColor("TaskbarBorder"), theme.GetShadow("TaskbarShadow"),
      theme.GetSpacing("TaskbarHeight"), theme.GetSpacing("TaskbarPadding"))
  }

  /**
   * `GetInlineStyles`: empty without a theme; otherwise the declarations of the
   * taskbar roles the theme defines, appended in slot order.
   */
  method GetInlineStyles(theme: Option<Theme>) returns (styles: string)
    ensures theme.None? ==> styles == ""
    ensures theme.Some? ==> styles == Render(Present(TaskbarCandidates(theme.value)))
  {
    if theme.None? {
      return "";
    }
    var t := theme.value;
    var bg := t.GetColor("TaskbarBackground");
    var border := t.GetColor("TaskbarBorder");
    var shadow := t.GetShadow("TaskbarShadow");
    var height := t.GetSpacing("TaskbarHeight");
    var padding := t.GetSpacing("TaskbarPadding");
    styles := AppendTaskbarDeclarations(bg, border, shadow, height, padding);
  }

  /** The `StringBuilder` part of `GetInlineStyles`: one guarded append per role. */
  method AppendTaskbarDeclarations(
    bg: Option<ColorToken>, border: Option<ColorToken>, shadow: Option<ShadowToken>,
    height: Option<SpacingToken>, padding: Option<SpacingToken>) returns (styles: string)
    ensures styles == Render(Present(TaskbarSlots(bg, border, shadow, height, padding)))
  {
    ghost var slots := TaskbarSlots(bg, border, shadow, height, padding);
    assert Appended(slots[..0]) == "" by { assert slots[..0] == []; }

    styles := AppendIfPresent("", "background-color", ColorValue(bg));
    AppendedPrefix(slots, 1);
    styles := AppendIfPresent(styles, "border-top", BorderTopValue(border));
    AppendedPrefix(slots, 2);
    styles := AppendIfPresent(styles, "box-shadow", ShadowValue(shadow));
    AppendedPrefix(slots, 3);
    styles := AppendIfPresent(styles, "height", SpacingValue(height));
    AppendedPrefix(slots, 4);
    styles := AppendIfPresent(styles, "padding", SpacingValue(padding));
    assert styles == Appended(slots);
    RenderPresentIsAppended(slots);
  }

  /**
   * The top border is drawn exactly when the theme has a `TaskbarBorder` colour, and
   * it is a one-pixel solid line in that colour.
   */
  lemma BorderTopIsOnePixelSolid(theme: Theme, v: string)
    ensures Declaration("border-top", v) in Present(TaskbarCandidates(theme))
            <==> theme.GetColor("TaskbarBorder").Some? && v == "1px solid " + theme.GetColor("TaskbarBorder").value.value
  {
    PresentMembership(TaskbarCandidates(theme));
  }
}
