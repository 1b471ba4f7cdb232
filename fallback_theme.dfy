/** The "Fallback" theme: the minimal theme a theme manager carries as its fallback, for explicit selection. Constant data only. */
module DefaultFallbackTheme {
  import opened Wrappers
  import opened Tokens
  import opened Text
  import opened Theming

  const Colors: map<string, ColorToken> := map[
      "PrimaryBackground" := ColorToken("#FFFFFF", "PrimaryBackground"),
      "PrimaryText" := ColorToken("#000000", "PrimaryText"),
      "Accent" := ColorToken("#0078D4", "Accent"),
      "MenuBarBackground" := ColorToken("#F0F0F0", "MenuBarBackground"),
      "MenuBarText" := ColorToken("#000000", "MenuBarText")
    ]

  const Spacing: map<string, SpacingToken> := map[
      "GapSmall" := SpacingToken("4px", "GapSmall"),
      "GapMedium" := SpacingToken("8px", "GapMedium"),
      "GapLarge" := SpacingToken("16px", "GapLarge"),
      "MenuBarHeight" := SpacingToken("40px", "MenuBarHeight")
    ]

  const Typography: map<string, TypographyToken> := map[
      "Body" := TypographyToken("Segoe UI", "14px", "400", "Body"),
      "Heading1" := TypographyToken("Segoe UI", "24px", "600", "Heading1"),
      "MenuBarFont" := TypographyToken("Segoe UI", "12px", "400", "MenuBarFont")
    ]

  const Shadows: map<string, ShadowToken> := map[
      "ElevationLow" := ShadowToken("0 1px 2px rgba(0,0,0,0.15)", "ElevationLow"),
      "MenuBarShadow" := ShadowToken("0 1px 3px rgba(0,0,0,0.12)", "MenuBarShadow")
    ]

  const Borders: map<string, BorderToken> := map[
      "FocusOutline" := BorderToken("2px", "solid", "#0078D4", "FocusOutline"),
      "MenuBarBorder" := BorderToken("1px", "solid", "#E0E0E0", "MenuBarBorder")
    ]

  const Fallback: Theme := Theme("Fallback", Colors, Spacing, Typography, Shadows, Borders)

  /** The `Fallback` constructor passes validation and builds exactly this value. */
  lemma ConstructionSucceeds()
    ensures NewTheme(Some("Fallback"), Some(Colors), Some(Spacing), Some(Typography), Some(Shadows), Some(Borders))
            == Success(Fallback)
  {
    NotBlank("Fallback");
  }

  /** Every key is its token's `Name`, and every token passes its record's guard. */
  lemma SelfDescribing()
    ensures KeysMatchTokenNames(Fallback) && TokensValid(Fallback)
  {
    ColorsSelfDescribing();
    SpacingSelfDescribing();
    TypographySelfDescribing();
    ShadowsSelfDescribing();
    BordersSelfDescribing();
  }

  lemma ColorsSelfDescribing()
    ensures forall k :: k in Colors ==> Colors[k].name == k && ValidColor(Colors[k])
  {
    forall k | k in Colors ensures Colors[k].name == k && ValidColor(Colors[k]) {
      NotBlank(Colors[k].value);
      NotBlank(Colors[k].name);
    }
  }

  lemma SpacingSelfDescribing()
    ensures forall k :: k in Spacing ==> Spacing[k].name == k && ValidSpacing(Spacing[k])
  {
    forall k | k in Spacing ensures Spacing[k].name == k && ValidSpacing(Spacing[k]) {
      NotBlank(Spacing[k].value);
      NotBlank(Spacing[k].name);
    }
  }

  lemma TypographySelfDescribing()
    ensures forall k :: k in Typography ==> Typography[k].name == k && ValidTypography(Typography[k])
  {
    forall k | k in Typography ensures Typography[k].name == k && ValidTypography(Typography[k]) {
      var t := Typography[k];
      NotBlank(t.fontFamily);
      NotBlank(t.fontSize);
      NotBlank(t.fontWeight);
      NotBlank(t.name);
    }
  }

  lemma ShadowsSelfDescribing()
    ensures forall k :: k in Shadows ==> Shadows[k].name == k && ValidShadow(Shadows[k])
  {
    forall k | k in Shadows ensures Shadows[k].name == k && ValidShadow(Shadows[k]) {
      NotBlank(Shadows[k].value);
      NotBlank(Shadows[k].name);
    }
  }

  lemma BordersSelfDescribing()
    ensures forall k :: k in Borders ==> Borders[k].name == k && ValidBorder(Borders[k])
  {
    forall k | k in Borders ensures Borders[k].name == k && ValidBorder(Borders[k]) {
      var t := Borders[k];
      NotBlank(t.width);
      NotBlank(t.style);
      NotBlank(t.color);
      NotBlank(t.name);
    }
  }

  /** The lookups a shell styled by the fallback theme relies on. */
  lemma FallbackLookups()
    ensures Fallback.GetColor("Accent") == Some(ColorToken("#0078D4", "Accent"))
    ensures Fallback.GetSpacing("MenuBarHeight") == Some(SpacingToken("40px", "MenuBarHeight"))
    ensures Fallback.GetBorder("MenuBarBorder") == Some(BorderToken("1px", "solid", "#E0E0E0", "MenuBarBorder"))
    ensures Fallback.GetShadow("MenuBarShadow").Some?
  {
    NotBlank("Accent");
    NotBlank("MenuBarHeight");
    NotBlank("MenuBarBorder");
    NotBlank("MenuBarShadow");
  }
}
