/**
 * The five design-token records. Each is an immutable record whose primary
 * constructor runs its property initialisers in declaration order, each through the
 * string guard of `Arguments`, so the first bad field in that order is the one the
 * exception names. Equality is structural, as for C# records and Dafny datatypes.
 * A `with` copy goes through the plain `init` accessors and is NOT re-validated: it
 * is the datatype update `t.(field := v)` here.
 */
module Tokens {
  import opened Wrappers
  import opened Text
  import opened Arguments

  /** record ColorToken(Value, Name): a CSS colour. */
  datatype ColorToken = ColorToken(value: string, name: string)

  /** record SpacingToken(Value, Name): a CSS length. */
  datatype SpacingToken = SpacingToken(value: string, name: string)

  /** record TypographyToken(FontFamily, FontSize, FontWeight, Name). */
  datatype TypographyToken = TypographyToken(fontFamily: string, fontSize: string, fontWeight: string, name: string)

  /** record ShadowToken(Value, Name): a CSS box-shadow. */
  datatype ShadowToken = ShadowToken(value: string, name: string)

  /** record BorderToken(Width, Style, Color, Name). */
  datatype BorderToken = BorderToken(width: string, style: string, color: string, name: string)

  // What a primary constructor guarantees about a token: no field is blank.

  predicate ValidColor(t: ColorToken) {
    !IsBlank(t.value) && !IsBlank(t.name)
  }

  predicate ValidSpacing(t: SpacingToken) {
    !IsBlank(t.value) && !IsBlank(t.name)
  }

  predicate ValidTypography(t: TypographyToken) {
    !IsBlank(t.fontFamily) && !IsBlank(t.fontSize) && !IsBlank(t.fontWeight) && !IsBlank(t.name)
  }

  predicate ValidShadow(t: ShadowToken) {
    !IsBlank(t.value) && !IsBlank(t.name)
  }

  predicate ValidBorder(t: BorderToken) {
    !IsBlank(t.width) && !IsBlank(t.style) && !IsBlank(t.color) && !IsBlank(t.name)
  }

  // The constructors' arguments, in the order the initialisers run.

  function TwoFields(first: Option<string>, firstName: string, name: Option<string>): seq<Argument> {
    [Argument(first, firstName), Argument(name, "Name")]
  }

  function TypographyFields(fontFamily: Option<string>, fontSize: Option<string>,
                            fontWeight: Option<string>, name: Option<string>): seq<Argument> {
    [Argument(fontFamily, "FontFamily"), Argument(fontSize, "FontSize"),
     Argument(fontWeight, "FontWeight"), Argument(name, "Name")]
  }

  function BorderFields(width: Option<string>, style: Option<string>,
                        color: Option<string>, name: Option<string>): seq<Argument> {
    [Argument(width, "Width"), Argument(style, "Style"), Argument(color, "Color"), Argument(name, "Name")]
  }

  /** Unfolds the reference definition one argument at a time. */
  lemma FirstInvalidCons(a: Argument, rest: seq<Argument>)
    ensures FirstInvalid([a] + rest) ==
      match Validate(a.value, a.paramName)
      case Failure(e) => Some(e)
      case Success(_) => FirstInvalid(rest)
  {
    assert ([a] + rest)[1..] == rest;
  }

  /** `new ColorToken(value, name)`. */
  function NewColorToken(value: Option<string>, name: Option<string>): (r: Result<ColorToken, Error>)
    ensures r.Success? <==> !IsNullOrWhiteSpace(value) && !IsNullOrWhiteSpace(name)
    ensures r.Failure? ==> Some(r.error) == FirstInvalid(TwoFields(value, "Value", name))
    ensures r.Success? ==> r.value == ColorToken(value.value, name.value) && ValidColor(r.value)
  {
    FirstInvalidCons(Argument(value, "Value"), [Argument(name, "Name")]);
    FirstInvalidCons(Argument(name, "Name"), []);
    var v :- Validate(value, "Value");
    var n :- Validate(name, "Name");
    Success(ColorToken(v, n))
  }

  /** `new SpacingToken(value, name)`. */
  function NewSpacingToken(value: Option<string>, name: Option<string>): (r: Result<SpacingToken, Error>)
    ensures r.Success? <==> !IsNullOrWhiteSpace(value) && !IsNullOrWhiteSpace(name)
    ensures r.Failure? ==> Some(r.error) == FirstInvalid(TwoFields(value, "Value", name))
    ensures r.Success? ==> r.value == SpacingToken(value.value, name.value) && ValidSpacing(r.value)
  {
    FirstInvalidCons(Argument(value, "Value"), [Argument(name, "Name")]);
    FirstInvalidCons(Argument(name, "Name"), []);
    var v :- Validate(value, "Value");
    var n :- Validate(name, "Name");
    Success(SpacingToken(v, n))
  }

  /** `new ShadowToken(value, name)`. */
  function NewShadowToken(value: Option<string>, name: Option<string>): (r: Result<ShadowToken, Error>)
    ensures r.Success? <==> !IsNullOrWhiteSpace(value) && !IsNullOrWhiteSpace(name)
    ensures r.Failure? ==> Some(r.error) == FirstInvalid(TwoFields(value, "Value", name))
    ensures r.Success? ==> r.value == ShadowToken(value.value, name.value) && ValidShadow(r.value)
  {
    FirstInvalidCons(Argument(value, "Value"), [Argument(name, "Name")]);
    FirstInvalidCons(Argument(name, "Name"), []);
    var v :- Validate(value, "Value");
    var n :- Validate(name, "Name");
    Success(ShadowToken(v, n))
  }

  /** `new TypographyToken(fontFamily, fontSize, fontWeight, name)`. */
  function NewTypographyToken(fontFamily: Option<string>, fontSize: Option<string>,
                              fontWeight: Option<string>, name: Option<string>): (r: Result<TypographyToken, Error>)
    ensures r.Success? <==> && !IsNullOrWhiteSpace(fontFamily) && !IsNullOrWhiteSpace(fontSize)
                            && !IsNullOrWhiteSpace(fontWeight) && !IsNullOrWhiteSpace(name)
    ensures r.Failure? ==> Some(r.error) == FirstInvalid(TypographyFields(fontFamily, fontSize, fontWeight, name))
    ensures r.Success? ==> && r.value == TypographyToken(fontFamily.value, fontSize.value, fontWeight.value, name.value)
                           && ValidTypography(r.value)
  {
    var args := TypographyFields(fontFamily, fontSize, fontWeight, name);
    FirstInvalidCons(args[0], args[1..]);
    FirstInvalidCons(args[1], args[2..]);
    FirstInvalidCons(args[2], args[3..]);
    FirstInvalidCons(args[3], []);
    var f :- Validate(fontFamily, "FontFamily");
    var s :- Validate(fontSize, "FontSize");
    var w :- Validate(fontWeight, "FontWeight");
    var n :- Validate(name, "Name");
    Success(TypographyToken(f, s, w, n))
  }

  /** `new BorderToken(width, style, color, name)`. */
  function NewBorderToken(width: Option<string>, style: Option<string>,
                          color: Option<string>, name: Option<string>): (r: Result<BorderToken, Error>)
    ensures r.Success? <==> && !IsNullOrWhiteSpace(width) && !IsNullOrWhiteSpace(style)
                            && !IsNullOrWhiteSpace(color) && !IsNullOrWhiteSpace(name)
    ensures r.Failure? ==> Some(r.error) == FirstInvalid(BorderFields(width, style, color, name))
    ensures r.Success? ==> r.value == BorderToken(width.value, style.value, color.value, name.value) && ValidBorder(r.value)
  {
    var args := BorderFields(width, style, color, name);
    FirstInvalidCons(args[0], args[1..]);
    FirstInvalidCons(args[1], args[2..]);
    FirstInvalidCons(args[2], args[3..]);
    FirstInvalidCons(args[3], []);
    var w :- Validate(width, "Width");
    var s :- Validate(style, "Style");
    var c :- Validate(color, "Color");
    var n :- Validate(name, "Name");
    Success(BorderToken(w, s, c, n))
  }

  // The exception each constructor throws: the first rejected field in declaration order.

  lemma ColorTokenErrors(value: Option<string>, name: Option<string>)
    ensures IsNullOrWhiteSpace(value) ==> NewColorToken(value, name) == Failure(GuardError(value, "Value"))
    ensures !IsNullOrWhiteSpace(value) && IsNullOrWhiteSpace(name) ==>
              NewColorToken(value, name) == Failure(GuardError(name, "Name"))
  {
    var args := TwoFields(value, "Value", name);
    if IsNullOrWhiteSpace(value) {
      FirstInvalidNamesFirstRejected(args, 0);
    } else if IsNullOrWhiteSpace(name) {
      FirstInvalidNamesFirstRejected(args, 1);
    }
  }

  lemma SpacingTokenErrors(value: Option<string>, name: Option<string>)
    ensures IsNullOrWhiteSpace(value) ==> NewSpacingToken(value, name) == Failure(GuardError(value, "Value"))
    ensures !IsNullOrWhiteSpace(value) && IsNullOrWhiteSpace(name) ==>
              NewSpacingToken(value, name) == Failure(GuardError(name, "Name"))
  {
    var args := TwoFields(value, "Value", name);
    if IsNullOrWhiteSpace(value) {
      FirstInvalidNamesFirstRejected(args, 0);
    } else if IsNullOrWhiteSpace(name) {
      FirstInvalidNamesFirstRejected(args, 1);
    }
  }

  lemma ShadowTokenErrors(value: Option<string>, name: Option<string>)
    ensures IsNullOrWhiteSpace(value) ==> NewShadowToken(value, name) == Failure(GuardError(value, "Value"))
    ensures !IsNullOrWhiteSpace(value) && IsNullOrWhiteSpace(name) ==>
              NewShadowToken(value, name) == Failure(GuardError(name, "Name"))
  {
    var args := TwoFields(value, "Value", name);
    if IsNullOrWhiteSpace(value) {
      FirstInvalidNamesFirstRejected(args, 0);
    } else if IsNullOrWhiteSpace(name) {
      FirstInvalidNamesFirstRejected(args, 1);
    }
  }

  lemma TypographyTokenErrors(fontFamily: Option<string>, fontSize: Option<string>,
                              fontWeight: Option<string>, name: Option<string>)
    ensures IsNullOrWhiteSpace(fontFamily) ==>
              NewTypographyToken(fontFamily, fontSize, fontWeight, name) == Failure(GuardError(fontFamily, "FontFamily"))
    ensures !IsNullOrWhiteSpace(fontFamily) && IsNullOrWhiteSpace(fontSize) ==>
              NewTypographyToken(fontFamily, fontSize, fontWeight, name) == Failure(GuardError(fontSize, "FontSize"))
    ensures !IsNullOrWhiteSpace(fontFamily) && !IsNullOrWhiteSpace(fontSize) && IsNullOrWhiteSpace(fontWeight) ==>
              NewTypographyToken(fontFamily, fontSize, fontWeight, name) == Failure(GuardError(fontWeight, "FontWeight"))
    ensures !IsNullOrWhiteSpace(fontFamily) && !IsNullOrWhiteSpace(fontSize) && !IsNullOrWhiteSpace(fontWeight)
            && IsNullOrWhiteSpace(name) ==>
              NewTypographyToken(fontFamily, fontSize, fontWeight, name) == Failure(GuardError(name, "Name"))
  {
    var args := TypographyFields(fontFamily, fontSize, fontWeight, name);
    if IsNullOrWhiteSpace(fontFamily) {
      FirstInvalidNamesFirstRejected(args, 0);
    } else if IsNullOrWhiteSpace(fontSize) {
      FirstInvalidNamesFirstRejected(args, 1);
    } else if IsNullOrWhiteSpace(fontWeight) {
      FirstInvalidNamesFirstRejected(args, 2);
    } else if IsNullOrWhiteSpace(name) {
      FirstInvalidNamesFirstRejected(args, 3);
    }
  }

  lemma BorderTokenErrors(width: Option<string>, style: Option<string>,
                          color: Option<string>, name: Option<string>)
    ensures IsNullOrWhiteSpace(width) ==>
              NewBorderToken(width, style, color, name) == Failure(GuardError(width, "Width"))
    ensures !IsNullOrWhiteSpace(width) && IsNullOrWhiteSpace(style) ==>
              NewBorderToken(width, style, color, name) == Failure(GuardError(style, "Style"))
    ensures !IsNullOrWhiteSpace(width) && !IsNullOrWhiteSpace(style) && IsNullOrWhiteSpace(color) ==>
              NewBorderToken(width, style, color, name) == Failure(GuardError(color, "Color"))
    ensures !IsNullOrWhiteSpace(width) && !IsNullOrWhiteSpace(style) && !IsNullOrWhiteSpace(color)
            && IsNullOrWhiteSpace(name) ==>
              NewBorderToken(width, style, color, name) == Failure(GuardError(name, "Name"))
  {
    var args := BorderFields(width, style, color, name);
    if IsNullOrWhiteSpace(width) {
      FirstInvalidNamesFirstRejected(args, 0);
    } else if IsNullOrWhiteSpace(style) {
      FirstInvalidNamesFirstRejected(args, 1);
    } else if IsNullOrWhiteSpace(color) {
      FirstInvalidNamesFirstRejected(args, 2);
    } else if IsNullOrWhiteSpace(name) {
      FirstInvalidNamesFirstRejected(args, 3);
    }
  }

  // Structural equality: two constructed tokens are equal exactly when every field is.

  lemma ColorTokenEquality(v1: string, n1: string, v2: string, n2: string)
    requires NewColorToken(Some(v1), Some(n1)).Success? && NewColorToken(Some(v2), Some(n2)).Success?
    ensures NewColorToken(Some(v1), Some(n1)).value == NewColorToken(Some(v2), Some(n2)).value
            <==> v1 == v2 && n1 == n2
  {
  }

  lemma SpacingTokenEquality(v1: string, n1: string, v2: string, n2: string)
    requires NewSpacingToken(Some(v1), Some(n1)).Success? && NewSpacingToken(Some(v2), Some(n2)).Success?
    ensures NewSpacingToken(Some(v1), Some(n1)).value == NewSpacingToken(Some(v2), Some(n2)).value
            <==> v1 == v2 && n1 == n2
  {
  }

  lemma ShadowTokenEquality(v1: string, n1: string, v2: string, n2: string)
    requires NewShadowToken(Some(v1), Some(n1)).Success? && NewShadowToken(Some(v2), Some(n2)).Success?
    ensures NewShadowToken(Some(v1), Some(n1)).value == NewShadowToken(Some(v2), Some(n2)).value
            <==> v1 == v2 && n1 == n2
  {
  }

  lemma TypographyTokenEquality(a: TypographyToken, b: TypographyToken)
    ensures a == b <==> && a.fontFamily == b.fontFamily && a.fontSize == b.fontSize
                        && a.fontWeight == b.fontWeight && a.name == b.name
  {
  }

  lemma BorderTokenEquality(a: BorderToken, b: BorderToken)
    ensures a == b <==> a.width == b.width && a.style == b.style && a.color == b.color && a.name == b.name
  {
  }

  /**
   * A `with { Value = ... }` copy of any colour token keeps the name, holds the new
   * value and leaves the original as it was. It goes through the `init` accessor and
   * so skips the guard: a blank replacement that the constructor rejects still gives a
   * copy, one that is not a valid token.
   */
  lemma ColorTokenWith(t: ColorToken, v: string)
    ensures t.(value := v).name == t.name
    ensures t.(value := v).value == v
    ensures t.(value := v) == t <==> v == t.value
    ensures !ValidColor(t.(value := ""))
    ensures IsBlank(v) ==> NewColorToken(Some(v), Some(t.name)).Failure? && !ValidColor(t.(value := v))
  {
  }

  /** The `with` copy on the constructed token ("#FF5733", "PrimaryColor"). */
  lemma ColorTokenWithExample()
    ensures var original := NewColorToken(Some("#FF5733"), Some("PrimaryColor"));
            && original.Success?
            && var modified := original.value.(value := "#33FF57");
            && original.value.value == "#FF5733" && modified.value == "#33FF57"
            && modified.name == "PrimaryColor"
            && !ValidColor(original.value.(value := ""))
  {
    NotBlank("#FF5733");
    NotBlank("PrimaryColor");
  }
}
