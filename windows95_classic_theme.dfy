/** The "Windows95Classic" theme: the Windows 95 classic inspired variant; it defines no taskbar or start-button roles. Constant data only. */
module Windows95ClassicTheme {
  import opened Wrappers
  import opened Tokens
  import opened Text
  import opened Theming

  const Colors: map<string, ColorToken> := map[
      "PrimaryBackground" := ColorToken("#C0C0C0", "PrimaryBackground"),
      "SecondaryBackground" := ColorToken("#FFFFFF", "SecondaryBackground"),
      "PrimaryText" := ColorToken("#000000", "PrimaryText"),
      "Accent" := ColorToken("#000080", "Accent"),
      "AccentHover" := ColorToken("#0000A0", "AccentHover"),
      "MenuBarBackground" := ColorToken("#C0C0C0", "MenuBarBackground"),
      "MenuBarText" := ColorToken("#000000", "MenuBarText")
    ]

  const Spacing: map<string, SpacingToken> := map[
      "Gap2" := SpacingToken("2px", "Gap2"),
      "Gap4" := SpacingToken("4px", "Gap4"),
      "Gap6" := SpacingToken("6px", "Gap6"),
      "Gap8" := SpacingToken("8px", "Gap8"),
      "MenuBarHeight" := SpacingToken("28px", "MenuBarHeight")
    ]

  const Typography: map<string, TypographyToken> := map[
      "Body" := TypographyToken("MS Sans Serif", "13px", "400", "Body"),
      "Heading1" := TypographyToken("MS Sans Serif", "20px", "600", "Heading1"),
      "MenuBarFont" := TypographyToken("MS Sans Serif", "11px", "400", "MenuBarFont")
    ]

  const Shadows: map<string, ShadowToken> := map[
      "ElevationLow" := ShadowToken("1px 1px 0 #808080", "ElevationLow"),
      "MenuBarShadow" := ShadowToken("none", "MenuBarShadow")
    ]

  const Borders: map<string, BorderToken> := map[
      "FocusOutline" := BorderToken("2px", "solid", "#000080", "FocusOutline"),
      "WindowBorder" := BorderToken("1px", "solid", "#808080", "WindowBorder"),
      "MenuBarBorder" := BorderToken("2px", "outset", "#FFFFFF", "MenuBarBorder")
    ]

  const Windows95Classic: Theme := Theme("Windows95Classic", Colors, Spacing, Typography, Shadows, Borders)

  /** The `Windows95Classic` constructor passes validation and builds exactly this value. */
  lemma ConstructionSucceeds()
    ensures NewTheme(Some("Windows95Classic"), Some(Colors), Some(Spacing), Some(Typography), Some(Shadows), Some(Borders))
            == Success(Windows95Classic)
  {
    NotBlank("Windows95Classic");
  }

  /** Every key is its token's `Name`, and every token passes its record's guard. */
  lemma SelfDescribing()
    ensures KeysMatchTokenNames(Windows95Classic) && TokensValid(Windows95Classic)
  {
    ColorsSelfDescribing();
    SpacingSelfDescribing();
    TypographySelfDescribing();
    ShadowsSelfDescribing();
    BordersSelfDescribing();
  }

  lemma ColorsSelfDescribing()
    ensures forall k :: k in Colors ==> Colors[k].name == k && ValidColor(Colors[k])
  {
    forall k | k in Colors ensures Colors[k].name == k && ValidColor(Colors[k]) {
      NotBlank(Colors[k].value);
      NotBlank(Colors[k].name);
    }
  }

  lemma SpacingSelfDescribing()
    ensures forall k :: k in Spacing ==> Spacing[k].name == k && ValidSpacing(Spacing[k])
  {
    forall k | k in Spacing ensures Spacing[k].name == k && ValidSpacing(Spacing[k]) {
      NotBlank(Spacing[k].value);
      NotBlank(Spacing[k].name);
    }
  }

  lemma TypographySelfDescribing()
    ensures forall k :: k in Typography ==> Typography[k].name == k && ValidTypography(Typography[k])
  {
    forall k | k in Typography ensures Typography[k].name == k && ValidTypography(Typography[k]) {
      var t := Typography[k];
      NotBlank(t.fontFamily);
      NotBlank(t.fontSize);
      NotBlank(t.fontWeight);
      NotBlank(t.name);
    }
  }

  lemma ShadowsSelfDescribing()
    ensures forall k :: k in Shadows ==> Shadows[k].name == k && ValidShadow(Shadows[k])
  {
    forall k | k in Shadows ensures Shadows[k].name == k && ValidShadow(Shadows[k]) {
      NotBlank(Shadows[k].value);
      NotBlank(Shadows[k].name);
    }
  }

  lemma BordersSelfDescribing()
    ensures forall k :: k in Borders ==> Borders[k].name == k && ValidBorder(Borders[k])
  {
    forall k | k in Borders ensures Borders[k].name == k && ValidBorder(Borders[k]) {
      var t := Borders[k];
      NotBlank(t.width);
      NotBlank(t.style);
      NotBlank(t.color);
      NotBlank(t.name);
    }
  }

  /** The lookups that distinguish the classic palette. */
  lemma ClassicLookups()
    ensures Windows95Classic.GetColor("Accent") == Some(ColorToken("#000080", "Accent"))
    ensures Windows95Classic.GetSpacing("MenuBarHeight") == Some(SpacingToken("28px", "MenuBarHeight"))
    ensures Windows95Classic.GetBorder("MenuBarBorder") == Some(BorderToken("2px", "outset", "#FFFFFF", "MenuBarBorder"))
  {
    NotBlank("Accent");
    NotBlank("MenuBarHeight");
    NotBlank("MenuBarBorder");
  }

  /** The theme defines no start-button or taskbar roles. */
  lemma NoTaskbarOrStartButtonRoles()
    ensures Windows95Classic.GetColor("StartButtonIcon").None?
    ensures Windows95Classic.GetColor("StartButtonBackground").None?
    ensures Windows95Classic.GetColor("TaskbarBackground").None?
    ensures Windows95Classic.GetSpacing("StartButtonSize").None?
    ensures Windows95Classic.GetSpacing("TaskbarHeight").None?
  {
  }
}
