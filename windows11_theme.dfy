/** The "Windows11" theme: the Windows 11 inspired variant, default theme of the samples and tests. Constant data only. */
module Windows11Theme {
  import opened Wrappers
  import opened Tokens
  import opened Text
  import opened Theming

  const Colors: map<string, ColorToken> := map[
      "PrimaryBackground" := ColorToken("#F3F3F3", "PrimaryBackground"),
      "SecondaryBackground" := ColorToken("#FFFFFF", "SecondaryBackground"),
      "PrimaryText" := ColorToken("#1B1B1B", "PrimaryText"),
      "SecondaryText" := ColorToken("#2E2E2E", "SecondaryText"),
      "Accent" := ColorToken("#2563EB", "Accent"),
      "AccentHover" := ColorToken("#1D4ED8", "AccentHover"),
      "AccentPressed" := ColorToken("#1E3A8A", "AccentPressed"),
      "DisabledText" := ColorToken("#8A8A8A", "DisabledText"),
      "MenuBarBackground" := ColorToken("rgba(32, 32, 32, 0.85)", "MenuBarBackground"),
      "MenuBarText" := ColorToken("rgba(255, 255, 255, 0.95)", "MenuBarText"),
      "TaskbarBackground" := ColorToken("rgba(243, 243, 243, 0.85)", "TaskbarBackground"),
      "TaskbarBorder" := ColorToken("#e5e5e5", "TaskbarBorder"),
      "StartButtonBackground" := ColorToken("transparent", "StartButtonBackground"),
      "StartButtonHoverBackground" := ColorToken("rgba(0, 0, 0, 0.05)", "StartButtonHoverBackground"),
      "StartButtonActiveBackground" := ColorToken("rgba(0, 0, 0, 0.08)", "StartButtonActiveBackground"),
      "StartButtonIcon" := ColorToken("#0078d4", "StartButtonIcon"),
      "DesktopBackground" := ColorToken("linear-gradient(135deg, #667eea 0%, #764ba2 100%)", "DesktopBackground"),
      "DesktopBackgroundFallback" := ColorToken("#667eea", "DesktopBackgroundFallback")
    ]

  const Spacing: map<string, SpacingToken> := map[
      "Gap2" := SpacingToken("2px", "Gap2"),
      "Gap4" := SpacingToken("4px", "Gap4"),
      "Gap8" := SpacingToken("8px", "Gap8"),
      "Gap12" := SpacingToken("12px", "Gap12"),
      "Gap16" := SpacingToken("16px", "Gap16"),
      "Gap24" := SpacingToken("24px", "Gap24"),
      "MenuBarHeight" := SpacingToken("48px", "MenuBarHeight"),
      "TaskbarHeight" := SpacingToken("48px", "TaskbarHeight"),
      "TaskbarPadding" := SpacingToken("4px 8px", "TaskbarPadding"),
      "StartButtonSize" := SpacingToken("40px", "StartButtonSize")
    ]

  const Typography: map<string, TypographyToken> := map[
      "Body" := TypographyToken("Segoe UI Variable", "14px", "400", "Body"),
      "BodyStrong" := TypographyToken("Segoe UI Variable", "14px", "600", "BodyStrong"),
      "Caption" := TypographyToken("Segoe UI Variable", "12px", "400", "Caption"),
      "Heading1" := TypographyToken("Segoe UI Variable", "28px", "600", "Heading1"),
      "Heading2" := TypographyToken("Segoe UI Variable", "24px", "600", "Heading2"),
      "Heading3" := TypographyToken("Segoe UI Variable", "20px", "600", "Heading3"),
      "MenuBarFont" := TypographyToken("Segoe UI Variable", "12px", "400", "MenuBarFont")
    ]

  const Shadows: map<string, ShadowToken> := map[
      "ElevationLow" := ShadowToken("0 1px 2px rgba(0,0,0,0.12)", "ElevationLow"),
      "ElevationMedium" := ShadowToken("0 2px 4px rgba(0,0,0,0.16)", "ElevationMedium"),
      "ElevationHigh" := ShadowToken("0 4px 12px rgba(0,0,0,0.20)", "ElevationHigh"),
      "MenuBarShadow" := ShadowToken("0 2px 8px rgba(0,0,0,0.15)", "MenuBarShadow"),
      "TaskbarShadow" := ShadowToken("0 -2px 8px rgba(0, 0, 0, 0.12)", "TaskbarShadow")
    ]

  const Borders: map<string, BorderToken> := map[
      "FocusOutline" := BorderToken("2px", "solid", "#2563EB", "FocusOutline"),
      "Divider" := BorderToken("1px", "solid", "#E5E5E5", "Divider"),
      "MenuBarBorder" := BorderToken("0px", "none", "transparent", "MenuBarBorder"),
      "StartButtonBorder" := BorderToken("0px", "none", "transparent", "StartButtonBorder"),
      "StartButtonRadius" := BorderToken("4px", "solid", "transparent", "StartButtonRadius")
    ]

  const Windows11: Theme := Theme("Windows11", Colors, Spacing, Typography, Shadows, Borders)

  /** The `BaseTheme` constructor accepts the data: the name is not blank and every map is present. */
  lemma ConstructionSucceeds()
    ensures NewTheme(Some("Windows11"), Some(Colors), Some(Spacing), Some(Typography), Some(Shadows), Some(Borders))
            == Success(Windows11)
  {
    NotBlank("Windows11");
  }

  /** Every key is its token's `Name`, and every token passes its record's guard. */
  lemma SelfDescribing()
    ensures KeysMatchTokenNames(Windows11) && TokensValid(Windows11)
  {
    ColorsSelfDescribing();
    SpacingSelfDescribing();
    TypographySelfDescribing();
    ShadowsSelfDescribing();
    BordersSelfDescribing();
  }

  lemma ColorsSelfDescribing()
    ensures forall k :: k in Colors ==> Colors[k].name == k && ValidColor(Colors[k])
  {
    forall k | k in Colors ensures Colors[k].name == k && ValidColor(Colors[k]) {
      NotBlank(Colors[k].value);
      NotBlank(Colors[k].name);
    }
  }

  lemma SpacingSelfDescribing()
    ensures forall k :: k in Spacing ==> Spacing[k].name == k && ValidSpacing(Spacing[k])
  {
    forall k | k in Spacing ensures Spacing[k].name == k && ValidSpacing(Spacing[k]) {
      NotBlank(Spacing[k].value);
      NotBlank(Spacing[k].name);
    }
  }

  lemma TypographySelfDescribing()
    ensures forall k :: k in Typography ==> Typography[k].name == k && ValidTypography(Typography[k])
  {
    forall k | k in Typography ensures Typography[k].name == k && ValidTypography(Typography[k]) {
      var t := Typography[k];
      NotBlank(t.fontFamily);
      NotBlank(t.fontSize);
      NotBlank(t.fontWeight);
      NotBlank(t.name);
    }
  }

  lemma ShadowsSelfDescribing()
    ensures forall k :: k in Shadows ==> Shadows[k].name == k && ValidShadow(Shadows[k])
  {
    forall k | k in Shadows ensures Shadows[k].name == k && ValidShadow(Shadows[k]) {
      NotBlank(Shadows[k].value);
      NotBlank(Shadows[k].name);
    }
  }

  lemma BordersSelfDescribing()
    ensures forall k :: k in Borders ==> Borders[k].name == k && ValidBorder(Borders[k])
  {
    forall k | k in Borders ensures Borders[k].name == k && ValidBorder(Borders[k]) {
      var t := Borders[k];
      NotBlank(t.width);
      NotBlank(t.style);
      NotBlank(t.color);
      NotBlank(t.name);
    }
  }

  /** The colour lookups the theme's tests assert. */
  lemma ColorLookups()
    ensures Windows11.GetColor("Accent") == Some(ColorToken("#2563EB", "Accent"))
    ensures Windows11.GetColor("StartButtonBackground") == Some(ColorToken("transparent", "StartButtonBackground"))
  {
    NotBlank("Accent");
    NotBlank("StartButtonBackground");
  }

  /** The spacing lookups the theme's tests assert. */
  lemma SpacingLookups()
    ensures Windows11.GetSpacing("StartButtonSize") == Some(SpacingToken("40px", "StartButtonSize"))
    ensures Windows11.GetSpacing("TaskbarHeight") == Some(SpacingToken("48px", "TaskbarHeight"))
    ensures Windows11.GetSpacing("TaskbarPadding") == Some(SpacingToken("4px 8px", "TaskbarPadding"))
  {
    NotBlank("StartButtonSize");
    NotBlank("TaskbarHeight");
    NotBlank("TaskbarPadding");
  }

  /** The border and shadow lookups the theme's tests assert. */
  lemma BorderAndShadowLookups()
    ensures Windows11.GetBorder("StartButtonBorder") == Some(BorderToken("0px", "none", "transparent", "StartButtonBorder"))
    ensures Windows11.GetBorder("StartButtonRadius") == Some(BorderToken("4px", "solid", "transparent", "StartButtonRadius"))
    ensures Windows11.GetShadow("TaskbarShadow") == Some(ShadowToken("0 -2px 8px rgba(0, 0, 0, 0.12)", "TaskbarShadow"))
  {
    NotBlank("StartButtonBorder");
    NotBlank("StartButtonRadius");
    NotBlank("TaskbarShadow");
  }

  /** The menu-bar colours of the theme. */
  lemma MenuBarColorLookups()
    ensures Windows11.GetColor("MenuBarBackground") == Some(ColorToken("rgba(32, 32, 32, 0.85)", "MenuBarBackground"))
    ensures Windows11.GetColor("MenuBarText") == Some(ColorToken("rgba(255, 255, 255, 0.95)", "MenuBarText"))
  {
    NotBlank("MenuBarBackground");
    NotBlank("MenuBarText");
  }

  /** The menu-bar size, font, shadow and border of the theme. */
  lemma MenuBarTokenLookups()
    ensures Windows11.GetSpacing("MenuBarHeight") == Some(SpacingToken("48px", "MenuBarHeight"))
    ensures Windows11.GetTypography("MenuBarFont") == Some(TypographyToken("Segoe UI Variable", "12px", "400", "MenuBarFont"))
    ensures Windows11.GetShadow("MenuBarShadow") == Some(ShadowToken("0 2px 8px rgba(0,0,0,0.15)", "MenuBarShadow"))
    ensures Windows11.GetBorder("MenuBarBorder") == Some(BorderToken("0px", "none", "transparent", "MenuBarBorder"))
  {
    NotBlank("MenuBarHeight");
    NotBlank("MenuBarFont");
    NotBlank("MenuBarShadow");
    NotBlank("MenuBarBorder");
  }

  /** Lookups are ordinal: a role name in another case is absent. */
  lemma LookupsAreCaseSensitive()
    ensures Windows11.GetColor("accent").None? && Windows11.GetColor("ACCENT").None?
  {
  }
}
