/**
 * `BaseTheme`: a named, immutable bundle of five token maps keyed by role name.
 * Keys compare ordinally (exact, case-sensitive), which is `string` equality here.
 * The constructor validates the name and copies each source map; a Dafny map is a
 * value, so the copy is a snapshot that later changes to the caller's map cannot
 * reach.
 */
module Theming {
  import opened Wrappers
  import opened Text
  import opened Arguments
  import opened Tokens

  datatype Theme = Theme(
    name: string,
    colors: map<string, ColorToken>,
    spacing: map<string, SpacingToken>,
    typography: map<string, TypographyToken>,
    shadows: map<string, ShadowToken>,
    borders: map<string, BorderToken>)
  {
    /** `GetColor`: the colour token of a role, absent for a blank or unknown role. */
    function GetColor(key: string): (r: Option<ColorToken>)
      ensures r.Some? <==> !IsBlank(key) && key in colors
      ensures r.Some? ==> r.value == colors[key]
    {
      TryGet(colors, key)
    }

    /** `GetSpacing`: the spacing token of a role, absent for a blank or unknown role. */
    function GetSpacing(key: string): (r: Option<SpacingToken>)
      ensures r.Some? <==> !IsBlank(key) && key in spacing
      ensures r.Some? ==> r.value == spacing[key]
    {
      TryGet(spacing, key)
    }

    /** `GetTypography`: the typography token of a role, absent for a blank or unknown role. */
    function GetTypography(key: string): (r: Option<TypographyToken>)
      ensures r.Some? <==> !IsBlank(key) && key in typography
      ensures r.Some? ==> r.value == typography[key]
    {
      TryGet(typography, key)
    }

    /** `GetShadow`: the shadow token of a role, absent for a blank or unknown role. */
    function GetShadow(key: string): (r: Option<ShadowToken>)
      ensures r.Some? <==> !IsBlank(key) && key in shadows
      ensures r.Some? ==> r.value == shadows[key]
    {
      TryGet(shadows, key)
    }

    /** `GetBorder`: the border token of a role, absent for a blank or unknown role. */
    function GetBorder(key: string): (r: Option<BorderToken>)
      ensures r.Some? <==> !IsBlank(key) && key in borders
      ensures r.Some? ==> r.value == borders[key]
    {
      TryGet(borders, key)
    }
  }

  /** `TryGet`: a blank key is never looked up; otherwise an exact lookup. */
  function TryGet<T>(source: map<string, T>, key: string): Option<T> {
    if IsBlank(key) then None
    else if key in source then Some(source[key])
    else None
  }

  /** `Clone`: a null source map throws; otherwise an ordinal copy of it. */
  function Clone<T>(source: Option<map<string, T>>): (r: Result<map<string, T>, Error>)
    ensures source.None? <==> r == Failure(ArgumentNullException("source"))
    ensures source.Some? ==> r == Success(source.value)
  {
    if source.None? then Failure(ArgumentNullException("source")) else Success(source.value)
  }

  /**
   * The `BaseTheme` constructor: the name is validated first, then the five maps are
   * copied in order; the theme exposes exactly the snapshots taken.
   */
  function NewTheme(
    name: Option<string>,
    colors: Option<map<string, ColorToken>>,
    spacing: Option<map<string, SpacingToken>>,
    typography: Option<map<string, TypographyToken>>,
    shadows: Option<map<string, ShadowToken>>,
    borders: Option<map<string, BorderToken>>): (r: Result<Theme, Error>)
    ensures r.Success? <==> && !IsNullOrWhiteSpace(name)
                            && colors.Some? && spacing.Some? && typography.Some? && shadows.Some? && borders.Some?
    ensures name.None? ==> r == Failure(ArgumentNullException("name"))
    ensures name.Some? && IsBlank(name.value) ==> r == Failure(ArgumentException("name"))
    ensures !IsNullOrWhiteSpace(name) && r.Failure? ==> r == Failure(ArgumentNullException("source"))
    ensures r.Success? ==> && r.value.name == name.value
                           && r.value.colors == colors.value && r.value.spacing == spacing.value
                           && r.value.typography == typography.value && r.value.shadows == shadows.value
                           && r.value.borders == borders.value
  {
    var n :- Validate(name, "name");
    var c :- Clone(colors);
    var s :- Clone(spacing);
    var t :- Clone(typography);
    var h :- Clone(shadows);
    var b :- Clone(borders);
    Success(Theme(n, c, s, t, h, b))
  }

  /** Each accessor reads its own category only: themes that agree on it agree on the lookup. */
  lemma AccessorsReadOwnCategory(t: Theme, u: Theme, key: string)
    ensures t.colors == u.colors ==> t.GetColor(key) == u.GetColor(key)
    ensures t.spacing == u.spacing ==> t.GetSpacing(key) == u.GetSpacing(key)
    ensures t.typography == u.typography ==> t.GetTypography(key) == u.GetTypography(key)
    ensures t.shadows == u.shadows ==> t.GetShadow(key) == u.GetShadow(key)
    ensures t.borders == u.borders ==> t.GetBorder(key) == u.GetBorder(key)
  {
  }

  /** A blank key is absent even when the source map happens to hold it. */
  lemma BlankKeyIsNeverFound(t: Theme, key: string)
    requires IsBlank(key)
    ensures t.GetColor(key).None? && t.GetSpacing(key).None? && t.GetTypography(key).None?
    ensures t.GetShadow(key).None? && t.GetBorder(key).None?
  {
  }

  /** The data a theme class supplies is self-describing: every key is its token's `Name`. */
  predicate KeysMatchTokenNames(t: Theme) {
    && (forall k :: k in t.colors ==> t.colors[k].name == k)
    && (forall k :: k in t.spacing ==> t.spacing[k].name == k)
    && (forall k :: k in t.typography ==> t.typography[k].name == k)
    && (forall k :: k in t.shadows ==> t.shadows[k].name == k)
    && (forall k :: k in t.borders ==> t.borders[k].name == k)
  }

  /** Every token of the theme is one its record constructor accepts. */
  predicate TokensValid(t: Theme) {
    && (forall k :: k in t.colors ==> ValidColor(t.colors[k]))
    && (forall k :: k in t.spacing ==> ValidSpacing(t.spacing[k]))
    && (forall k :: k in t.typography ==> ValidTypography(t.typography[k]))
    && (forall k :: k in t.shadows ==> ValidShadow(t.shadows[k]))
    && (forall k :: k in t.borders ==> ValidBorder(t.borders[k]))
  }
}
