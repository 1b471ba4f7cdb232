/**
 * The inline-style strings the components build. Each component asks the theme for
 * a fixed list of roles and appends `property: value; ` for every role the theme
 * defines, skipping the others. A `Candidate` is one such slot (the property and
 * the value, absent when the token is missing); `Present` keeps the filled slots in
 * order, and `Render` is the text a `StringBuilder` holds after appending them.
 */
module Css {
  import opened Wrappers
  import opened Text
  import opened Tokens

  /** One CSS declaration. */
  datatype Declaration = Declaration(property: string, value: string)

  /** The text appended for one declaration: `property: value; `. */
  function Serialize(d: Declaration): string {
    d.property + ": " + d.value + "; "
  }

  /** The declarations appended one after the other. */
  function Render(ds: seq<Declaration>): string {
    if ds == [] then "" else Render(ds[..|ds| - 1]) + Serialize(ds[|ds| - 1])
  }

  /** A style slot: the property a role feeds and the role's value, absent when the theme lacks the role. */
  datatype Candidate = Candidate(property: string, value: Option<string>)

  /** The declaration a slot contributes: one when its value is present, none otherwise. */
  function Emit(c: Candidate): seq<Declaration> {
    if c.value.Some? then [Declaration(c.property, c.value.value)] else []
  }

  /** The declarations of the filled slots, in slot order. */
  function Present(cs: seq<Candidate>): seq<Declaration> {
    if cs == [] then [] else Present(cs[..|cs| - 1]) + Emit(cs[|cs| - 1])
  }

  /** A declaration is emitted exactly when some slot holds that property with that value. */
  lemma {:induction false} PresentMembership(cs: seq<Candidate>)
    ensures forall d :: d in Present(cs) <==> Candidate(d.property, Some(d.value)) in cs
    ensures |Present(cs)| <= |cs|
  {
    if cs != [] {
      PresentMembership(cs[..|cs| - 1]);
      assert forall c :: c in cs <==> c in cs[..|cs| - 1] || c == cs[|cs| - 1];
    }
  }

  /** The text one slot adds: its declaration when the value is present, nothing otherwise. */
  function Contribution(c: Candidate): string {
    if c.value.Some? then Serialize(Declaration(c.property, c.value.value)) else ""
  }

  /** The text of a run of slots, each slot's contribution appended in turn. */
  function Appended(cs: seq<Candidate>): string {
    if cs == [] then "" else Appended(cs[..|cs| - 1]) + Contribution(cs[|cs| - 1])
  }

  /** Appending one more slot appends its text, or nothing when it is empty. */
  lemma RenderPresentSnoc(cs: seq<Candidate>, c: Candidate)
    ensures Render(Present(cs + [c])) == Render(Present(cs)) + Contribution(c)
  {
    assert (cs + [c])[..|cs|] == cs;
    var p := Present(cs);
    if c.value.Some? {
      assert (p + Emit(c))[..|p|] == p;
    } else {
      assert p + Emit(c) == p;
    }
  }

  /** Rendering the filled slots is appending every slot's contribution in order. */
  lemma {:induction false} RenderPresentIsAppended(cs: seq<Candidate>)
    ensures Render(Present(cs)) == Appended(cs)
    decreases |cs|
  {
    if cs != [] {
      var init := cs[..|cs| - 1];
      assert init + [cs[|cs| - 1]] == cs;
      RenderPresentSnoc(init, cs[|cs| - 1]);
      RenderPresentIsAppended(init);
    }
  }

  /** The text of the first k slots is that of the first k - 1 followed by slot k - 1's. */
  lemma AppendedPrefix(cs: seq<Candidate>, k: nat)
    requires 0 < k <= |cs|
    ensures Appended(cs[..k]) == Appended(cs[..k - 1]) + Contribution(cs[k - 1])
  {
    assert cs[..k][..k - 1] == cs[..k - 1];
  }

  /** Eight slots render as their eight contributions, in order. */
  lemma RenderPresentOfEight(cs: seq<Candidate>)
    requires |cs| == 8
    ensures Render(Present(cs)) == Contribution(cs[0]) + Contribution(cs[1]) + Contribution(cs[2]) + Contribution(cs[3])
                                   + Contribution(cs[4]) + Contribution(cs[5]) + Contribution(cs[6]) + Contribution(cs[7])
  {
    RenderPresentIsAppended(cs);
    assert cs[..8] == cs;
    assert Appended(cs[..0]) == "" by { assert cs[..0] == []; }
    AppendedPrefix(cs, 1);
    assert Appended(cs[..1]) == Contribution(cs[0]);
    AppendedPrefix(cs, 2);
    AppendedPrefix(cs, 3);
    AppendedPrefix(cs, 4);
    AppendedPrefix(cs, 5);
    AppendedPrefix(cs, 6);
    AppendedPrefix(cs, 7);
    AppendedPrefix(cs, 8);
  }

  /**
   * One `StringBuilder.Append` guarded by a null check: the declaration is appended
   * when the role's value is present, and nothing is appended otherwise.
   */
  method AppendIfPresent(styles: string, property: string, value: Option<string>) returns (r: string)
    ensures r == styles + Contribution(Candidate(property, value))
  {
    r := styles;
    if value.Some? {
      r := r + Serialize(Declaration(property, value.value));
    } else {
      assert styles + "" == styles;
    }
  }

  /** Rendering distributes over concatenation. */
  lemma {:induction false} RenderAppend(a: seq<Declaration>, b: seq<Declaration>)
    ensures Render(a + b) == Render(a) + Render(b)
    decreases |b|
  {
    if b != [] {
      var init := b[..|b| - 1];
      assert (a + b)[..|a + b| - 1] == a + init;
      assert (a + b)[|a + b| - 1] == b[|b| - 1];
      RenderAppend(a, init);
      calc {
        Render(a + b);
        Render(a + init) + Serialize(b[|b| - 1]);
        Render(a) + Render(init) + Serialize(b[|b| - 1]);
        Render(a) + (Render(init) + Serialize(b[|b| - 1]));
      }
    } else {
      assert a + b == a;
    }
  }

  /** Filtering distributes over concatenation. */
  lemma {:induction false} PresentAppend(a: seq<Candidate>, b: seq<Candidate>)
    ensures Present(a + b) == Present(a) + Present(b)
    decreases |b|
  {
    if b != [] {
      var init := b[..|b| - 1];
      assert (a + b)[..|a + b| - 1] == a + init;
      assert (a + b)[|a + b| - 1] == b[|b| - 1];
      PresentAppend(a, init);
      calc {
        Present(a + b);
        Present(a + init) + Emit(b[|b| - 1]);
        Present(a) + Present(init) + Emit(b[|b| - 1]);
        Present(a) + (Present(init) + Emit(b[|b| - 1]));
      }
    } else {
      assert a + b == a;
    }
  }

  /** Filtering a slot list around one slot: the slots before, that slot's own output, the slots after. */
  lemma PresentAround(before: seq<Candidate>, c: Candidate, after: seq<Candidate>)
    ensures Present(before + [c] + after) == Present(before) + Emit(c) + Present(after)
  {
    PresentAppend(before + [c], after);
    PresentAppend(before, [c]);
    PresentSingle(c);
  }

  /** Rendering three consecutive runs of declarations. */
  lemma RenderAround(p: seq<Declaration>, e: seq<Declaration>, q: seq<Declaration>)
    ensures Render(p + e + q) == Render(p) + Render(e) + Render(q)
  {
    RenderAppend(p + e, q);
    RenderAppend(p, e);
  }

  /**
   * A missing role omits only its own declaration, and a present one adds exactly
   * its own, between the text of the slots before it and the text of those after it.
   */
  lemma SlotContributesOnlyItsOwnText(before: seq<Candidate>, c: Candidate, after: seq<Candidate>)
    ensures c.value.None? ==> Render(Present(before + [c] + after)) == Render(Present(before)) + Render(Present(after))
    ensures c.value.Some? ==> Render(Present(before + [c] + after))
                              == Render(Present(before)) + Serialize(Declaration(c.property, c.value.value)) + Render(Present(after))
  {
    var p, e, q := Present(before), Emit(c), Present(after);
    PresentAround(before, c, after);
    if c.value.None? {
      assert p + e + q == p + q;
      RenderAppend(p, q);
    } else {
      RenderAround(p, e, q);
      RenderEmit(c);
    }
  }

  lemma PresentSingle(c: Candidate)
    ensures Present([c]) == Emit(c)
  {
    assert [c][..0] == [];
  }

  lemma RenderEmit(c: Candidate)
    ensures Render(Emit(c)) == if c.value.Some? then Serialize(Declaration(c.property, c.value.value)) else ""
  {
    if c.value.Some? {
      assert Emit(c)[..0] == [];
    }
  }

  /** With every role missing, nothing is emitted. */
  lemma {:induction false} AllMissingRendersEmpty(cs: seq<Candidate>)
    requires forall i :: 0 <= i < |cs| ==> cs[i].value.None?
    ensures Render(Present(cs)) == ""
  {
    if cs != [] {
      AllMissingRendersEmpty(cs[..|cs| - 1]);
    }
  }

  /** With every role present, each slot gives exactly its own declaration, at its own position. */
  lemma {:induction false} AllPresentEmitsEach(cs: seq<Candidate>)
    requires forall i :: 0 <= i < |cs| ==> cs[i].value.Some?
    ensures |Present(cs)| == |cs|
    ensures forall i :: 0 <= i < |cs| ==> Present(cs)[i] == Declaration(cs[i].property, cs[i].value.value)
  {
    if cs != [] {
      AllPresentEmitsEach(cs[..|cs| - 1]);
    }
  }

  /** The rendered text opens with the first declaration. */
  lemma RenderFirst(ds: seq<Declaration>)
    requires ds != []
    ensures Render(ds) == Serialize(ds[0]) + Render(ds[1..])
  {
    RenderAppend([ds[0]], ds[1..]);
    assert [ds[0]] + ds[1..] == ds;
    assert [ds[0]][..0] == [];
  }

  /** The value of a colour role, if the theme defines it. */
  function ColorValue(t: Option<ColorToken>): (v: Option<string>)
    ensures v.Some? <==> t.Some?
    ensures v.Some? ==> v.value == t.value.value
  {
    if t.Some? then Some(t.value.value) else None
  }

  /** The value of a spacing role, if the theme defines it. */
  function SpacingValue(t: Option<SpacingToken>): (v: Option<string>)
    ensures v.Some? <==> t.Some?
    ensures v.Some? ==> v.value == t.value.value
  {
    if t.Some? then Some(t.value.value) else None
  }

  /** The value of a shadow role, if the theme defines it. */
  function ShadowValue(t: Option<ShadowToken>): (v: Option<string>)
    ensures v.Some? <==> t.Some?
    ensures v.Some? ==> v.value == t.value.value
  {
    if t.Some? then Some(t.value.value) else None
  }

  /** The `border` shorthand of a border role: width, style and colour separated by single spaces. */
  function BorderShorthand(t: Option<BorderToken>): (v: Option<string>)
    ensures v.Some? <==> t.Some?
    ensures v.Some? ==> v.value == t.value.width + " " + t.value.style + " " + t.value.color
  {
    if t.Some? then Some(t.value.width + " " + t.value.style + " " + t.value.color) else None
  }

  /**
   * The class list of a component that trims its custom class: the base class, then
   * one space and the trimmed custom class when that class is not null or blank.
   */
  function TrimmedClassList(base: string, cssClass: Option<string>): (classes: string)
    ensures IsNullOrWhiteSpace(cssClass) ==> classes == base
    ensures !IsNullOrWhiteSpace(cssClass) ==> classes == base + " " + Trim(cssClass.value)
  {
    var classes := base;
    if !IsNullOrWhiteSpace(cssClass) then classes + " " + Trim(cssClass.value) else classes
  }

  /** White space around the custom class never matters: a padded class gives the same list as the class trimmed. */
  lemma TrimmedClassListIgnoresPadding(base: string, c: string)
    ensures TrimmedClassList(base, Some(c)) == TrimmedClassList(base, Some(Trim(c)))
  {
    TrimIdempotent(c);
    assert IsBlank(Trim(c)) <==> Trim(Trim(c)) == [];
  }

  /**
   * What follows the base class is either nothing or one space and a word that starts
   * and ends with a character that is not white space.
   */
  lemma TrimmedClassListSuffix(base: string, cssClass: Option<string>)
    ensures var suffix := TrimmedClassList(base, cssClass)[|base|..];
            || (suffix == [] && IsNullOrWhiteSpace(cssClass))
            || (|suffix| >= 2 && suffix[0] == ' ' && !IsWhite(suffix[1]) && !IsWhite(suffix[|suffix| - 1]))
  {
    if !IsNullOrWhiteSpace(cssClass) {
      var t := Trim(cssClass.value);
      assert (base + " " + t)[|base|..] == " " + t;
    } else {
      assert base[|base|..] == [];
    }
  }
}
