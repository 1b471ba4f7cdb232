# MoMo.Net theme system and component style builders, in Dafny

MoMo.Net is a .NET library of desktop-style Blazor components (a shell with a menu
bar, a taskbar, a Start button) themed by *design tokens*. This project models its
core and proves properties of the model:

- **Tokens** (`tokens.dfy`, `arguments.dfy`, `text.dfy`): the five immutable token
  records (colour, spacing, typography, shadow, border). Their constructors reject
  null and blank fields. Because the initialisers run in declaration order, the first
  bad field is the one the exception names. The `with` copy does not re-validate.
- **Themes** (`theme.dfy`): `BaseTheme` as a datatype of five role-keyed maps. It has a
  validating constructor that copies each map, and five lookups. A lookup is absent for
  a blank role and otherwise matches the key exactly.
- **Shipped themes** (`windows11_theme.dfy`, `windows95_classic_theme.dfy`,
  `fallback_theme.dfy`): the constant data of the Windows 11, Windows 95 classic and
  fallback themes. It comes with the lookups their tests rely on and the fact that
  every key is its token's own name.
- **Theme manager** (`theme_manager.dfy`): the registry of themes by name, the current
  theme and the `ThemeChanged` event.
  - The abstract state and one function per call (`Register`, `Switch`, `Lookup`,
    `Create`) carry the invariants.
  - The class `ThemeManager` updates its fields in place and proves that each method
    has exactly the effect of its function.
  - A ghost log of (old, new) pairs stands for the raised events.
- **Component style builders** (`css.dfy`, `shell.dfy`, `taskbar.dfy`,
  `start_button.dfy`): the code-behind of `MoMoShell`, `MoMoTaskbar` and
  `MoMoStartButton`.
  - Each style builder is a method that appends one declaration per slot whose theme
    role is present. Most roles fill one slot; `StartButtonSize` fills two (width and
    height) and `MenuBarFont` three (family, size and weight). It is proved equal to `Render(Present(candidates))`: the roles the theme
    defines, serialized in a fixed slot order.
  - The class strings are functions.
  - The Start button's click callback is a counter on a class.
- **Scenarios** (`themed_components.dfy`, `default_setup.dfy`): the styles the shipped
  themes produce, and the manager set up with Windows 11 as the default theme and the
  fallback theme beside it.

## Model

| member | source | states |
|---|---|---|
| Text.Trim | src/MoMo.Net.Blazor/Components/Layout/MoMoTaskbar.razor.cs:30 | `string.Trim`: empty exactly for a blank string; otherwise starts and ends with a non-white character; never longer than its input |
| Text.TrimRemovesOnlyWhiteSpace | src/MoMo.Net.Blazor/Components/Controls/MoMoStartButton.razor.cs:34 | the input is a blank prefix, then the trimmed string, then a blank suffix |
| Text.TrimIdempotent | src/MoMo.Net.Blazor/Components/Controls/MoMoStartButton.razor.cs:34 | trimming twice is trimming once |
| Arguments.Validate | src/MoMo.Net/Tokens/ColorToken.cs:20-33 | null gives ArgumentNullException(param), blank gives ArgumentException(param), anything else is returned unchanged; success exactly for a non-null, non-blank string |
| Arguments.FirstInvalid | src/MoMo.Net/Tokens/TypographyToken.cs:15-30 | reference for declaration-order reporting: absent exactly when every argument passes; otherwise the guard's error for some argument all of whose predecessors pass |
| Arguments.FirstInvalidNamesFirstRejected | src/MoMo.Net/Tokens/TypographyToken.cs:15-30 | when argument k is the first rejected one, the reported error is k's null-or-blank exception, whatever later arguments hold |
| Tokens.NewColorToken | src/MoMo.Net/Tokens/ColorToken.cs:8-33 | success exactly when Value and Name are both non-null and non-blank; the token then holds them unchanged and is valid; a failure is the first invalid field in declaration order |
| Tokens.NewSpacingToken | src/MoMo.Net/Tokens/SpacingToken.cs:8-33 | as for the colour token: success iff both fields pass, fields kept unchanged, first invalid field reported |
| Tokens.NewShadowToken | src/MoMo.Net/Tokens/ShadowToken.cs:8-33 | as for the colour token: success iff both fields pass, fields kept unchanged, first invalid field reported |
| Tokens.NewTypographyToken | src/MoMo.Net/Tokens/TypographyToken.cs:10-45 | success iff FontFamily, FontSize, FontWeight and Name all pass; all four kept unchanged; otherwise the first invalid one in that order is reported |
| Tokens.NewBorderToken | src/MoMo.Net/Tokens/BorderToken.cs:10-45 | success iff Width, Style, Color and Name all pass; all four kept unchanged; otherwise the first invalid one in that order is reported |
| Tokens.ColorTokenErrors | src/MoMo.Net/Tokens/ColorToken.cs:13-30 | a bad Value is reported (null or blank exception naming "Value") even when Name is bad too; a bad Name is reported when Value is good |
| Tokens.SpacingTokenErrors | src/MoMo.Net/Tokens/SpacingToken.cs:13-30 | the same as for the colour token, for the spacing record |
| Tokens.ShadowTokenErrors | src/MoMo.Net/Tokens/ShadowToken.cs:13-30 | the same as for the colour token, for the shadow record |
| Tokens.TypographyTokenErrors | src/MoMo.Net/Tokens/TypographyToken.cs:15-42 | the exception names the first bad field among FontFamily, FontSize, FontWeight and Name, null or blank as the case may be |
| Tokens.BorderTokenErrors | src/MoMo.Net/Tokens/BorderToken.cs:15-42 | the exception names the first bad field among Width, Style, Color and Name |
| Tokens.ColorTokenEquality | src/MoMo.Net/Tokens/ColorToken.cs:8 | two constructed colour tokens are equal iff their Value and Name are equal |
| Tokens.SpacingTokenEquality | src/MoMo.Net/Tokens/SpacingToken.cs:8 | structural equality of spacing tokens, both directions |
| Tokens.ShadowTokenEquality | src/MoMo.Net/Tokens/ShadowToken.cs:8 | structural equality of shadow tokens, both directions |
| Tokens.TypographyTokenEquality | src/MoMo.Net/Tokens/TypographyToken.cs:10 | typography tokens are equal iff all four fields are |
| Tokens.BorderTokenEquality | src/MoMo.Net/Tokens/BorderToken.cs:10 | border tokens are equal iff Width, Style, Color and Name all are; one differing field makes them unequal |
| Tokens.ColorTokenWith | src/MoMo.Net/Tokens/ColorToken.cs:13 | for every colour token and replacement value, the `with` copy keeps Name, holds the new value and equals the original only when the value is unchanged; it skips the guard, so a blank replacement the constructor rejects gives an invalid copy |
| Tokens.ColorTokenWithExample | src/MoMo.Net/Tokens/ColorToken.cs:13 | the token ("#FF5733", "PrimaryColor") constructs, and its copies with "#33FF57" and with "" keep the name, the latter being invalid |
| Theming.Theme.GetColor | src/MoMo.Net/Theming/BaseTheme.cs:64 | present iff the role is non-blank and in the colour map, and then exactly that entry |
| Theming.Theme.GetSpacing | src/MoMo.Net/Theming/BaseTheme.cs:67 | present iff the role is non-blank and in the spacing map, and then exactly that entry |
| Theming.Theme.GetTypography | src/MoMo.Net/Theming/BaseTheme.cs:70 | present iff the role is non-blank and in the typography map, and then exactly that entry |
| Theming.Theme.GetShadow | src/MoMo.Net/Theming/BaseTheme.cs:73 | present iff the role is non-blank and in the shadow map, and then exactly that entry |
| Theming.Theme.GetBorder | src/MoMo.Net/Theming/BaseTheme.cs:76 | present iff the role is non-blank and in the border map, and then exactly that entry |
| Theming.Clone | src/MoMo.Net/Theming/BaseTheme.cs:104-112 | a null map throws ArgumentNullException("source"); otherwise the copy equals the source |
| Theming.NewTheme | src/MoMo.Net/Theming/BaseTheme.cs:29-43 | success iff the name is non-null and non-blank and all five maps are present; a null name, a blank name and a null map each give their own exception; on success the theme holds the name and a snapshot of each map |
| Theming.AccessorsReadOwnCategory | src/MoMo.Net/Theming/BaseTheme.cs:64-76 | each accessor depends on its own category only: themes that agree on it agree on the lookup |
| Theming.BlankKeyIsNeverFound | src/MoMo.Net/Theming/BaseTheme.cs:78-87 | a blank role is absent from all five lookups, even when a map holds that key |
| Windows11Theme.ConstructionSucceeds | src/MoMo.Net/Theming/Windows11Theme.cs:15-83 | the base constructor accepts the data and builds the theme named "Windows11" |
| Windows11Theme.SelfDescribing | src/MoMo.Net/Theming/Windows11Theme.cs:17-82 | in every category each key is its token's Name, and every token passes its record's guard |
| Windows11Theme.ColorLookups | src/MoMo.Net/Theming/Windows11Theme.cs:23-33 | Accent is "#2563EB" and StartButtonBackground is "transparent" |
| Windows11Theme.SpacingLookups | src/MoMo.Net/Theming/Windows11Theme.cs:51-53 | StartButtonSize "40px", TaskbarHeight "48px", TaskbarPadding "4px 8px" |
| Windows11Theme.BorderAndShadowLookups | src/MoMo.Net/Theming/Windows11Theme.cs:71-81 | StartButtonBorder (0px, none, transparent), StartButtonRadius (4px, solid, transparent), TaskbarShadow "0 -2px 8px rgba(0, 0, 0, 0.12)" |
| Windows11Theme.MenuBarColorLookups | src/MoMo.Net/Theming/Windows11Theme.cs:27-28 | MenuBarBackground "rgba(32, 32, 32, 0.85)" and MenuBarText "rgba(255, 255, 255, 0.95)" |
| Windows11Theme.MenuBarTokenLookups | src/MoMo.Net/Theming/Windows11Theme.cs:48-77 | MenuBarHeight "48px", MenuBarFont (Segoe UI Variable, 12px, 400), MenuBarShadow and MenuBarBorder (0px, none, transparent) |
| Windows11Theme.LookupsAreCaseSensitive | src/MoMo.Net/Theming/BaseTheme.cs:111 | lookups are ordinal: "accent" and "ACCENT" are absent although "Accent" is present |
| Windows95ClassicTheme.ConstructionSucceeds | src/MoMo.Net/Theming/Windows95ClassicTheme.cs:15-52 | the base constructor accepts the data and builds the theme named "Windows95Classic" |
| Windows95ClassicTheme.SelfDescribing | src/MoMo.Net/Theming/Windows95ClassicTheme.cs:17-51 | each key is its token's Name, and every token is valid |
| Windows95ClassicTheme.ClassicLookups | src/MoMo.Net/Theming/Windows95ClassicTheme.cs:22-50 | Accent "#000080", MenuBarHeight "28px", MenuBarBorder (2px, outset, #FFFFFF) |
| Windows95ClassicTheme.NoTaskbarOrStartButtonRoles | src/MoMo.Net/Theming/Windows95ClassicTheme.cs:17-26 | StartButtonIcon, StartButtonBackground, TaskbarBackground, StartButtonSize and TaskbarHeight are absent |
| DefaultFallbackTheme.ConstructionSucceeds | src/MoMo.Net/Theming/DefaultFallbackTheme.cs:15-48 | the base constructor accepts the data and builds the theme named "Fallback" |
| DefaultFallbackTheme.SelfDescribing | src/MoMo.Net/Theming/DefaultFallbackTheme.cs:17-47 | each key is its token's Name, and every token is valid |
| DefaultFallbackTheme.FallbackLookups | src/MoMo.Net/Theming/DefaultFallbackTheme.cs:21-46 | Accent "#0078D4", MenuBarHeight "40px", MenuBarBorder (1px, solid, #E0E0E0), and a MenuBarShadow is present |
| ThemeManagement.Register | src/MoMo.Net/Theming/ThemeManager.cs:45-64 | a null theme and a blank name throw; a present name returns false with the manager unchanged; a new name returns true, adds exactly that entry and changes nothing else |
| ThemeManagement.Switch | src/MoMo.Net/Theming/ThemeManager.cs:67-88 | false with nothing changed iff the name is blank, unknown or the current theme's entry; otherwise the entry becomes current and exactly one (old, new) event with old != new is appended, nothing else changing |
| ThemeManagement.Lookup | src/MoMo.Net/Theming/ThemeManager.cs:94-102 | present iff the name is non-blank and registered, and then the registered theme |
| ThemeManagement.Create | src/MoMo.Net/Theming/ThemeManager.cs:23-30 | null default or fallback throws naming it; a blank name throws; otherwise current is the default, no events, exactly the two names registered, the default under its own |
| ThemeManagement.CreateEstablishesInv | src/MoMo.Net/Theming/ThemeManager.cs:23-30 | a constructed manager satisfies the invariant |
| ThemeManagement.CreateRegistersBoth | src/MoMo.Net/Theming/ThemeManager.cs:27-29 | both themes can be looked up when their names differ; with a shared name only the default is registered |
| ThemeManagement.RegisterPreservesInv | src/MoMo.Net/Theming/ThemeManager.cs:45-64 | registration keeps the invariant: keys non-blank and equal to their theme's name, default, fallback and current registered, events chained |
| ThemeManagement.RegisterThenLookup | src/MoMo.Net/Theming/ThemeManager.cs:62-63 | after registering a new name, looking it up gives the theme and every other name answers as before |
| ThemeManagement.CurrentEntryIsByName | src/MoMo.Net/Theming/ThemeManager.cs:79 | under the invariant a registry entry is the current theme iff its name is the current theme's name |
| ThemeManagement.SwitchToCurrentIsNoChange | src/MoMo.Net/Theming/ThemeManager.cs:79-82 | switching to the current theme's name returns false and changes nothing |
| ThemeManagement.SwitchPreservesInv | src/MoMo.Net/Theming/ThemeManager.cs:67-88 | switching keeps the invariant, including the chain of (old, new) events from the default to the current theme |
| ThemeManagement.Run | src/MoMo.Net/Theming/ThemeManager.cs:45-88 | a sequence of calls yields one outcome per call |
| ThemeManagement.RunPreservesInv | src/MoMo.Net/Theming/ThemeManager.cs:13-16 | every sequence of calls keeps the invariant, so the current theme is always a registry value |
| ThemeManagement.RunOnlyGrowsRegistry | src/MoMo.Net/Theming/ThemeManager.cs:13-16 | no sequence of calls removes a name or replaces its theme; default and fallback are never reassigned |
| ThemeManagement.RunLogsOneEventPerSwitch | src/MoMo.Net/Theming/ThemeManager.cs:84-87 | the event log only grows, by exactly one entry per SetTheme call that returned true |
| ThemeManagement.ThemeManager.constructor | src/MoMo.Net/Theming/ThemeManager.cs:23-30 | the new object's state is what Create gives, and it is valid |
| ThemeManagement.ThemeManager.New | src/MoMo.Net/Theming/ThemeManager.cs:23-30 | fails exactly when Create fails, with the same exception; otherwise a fresh valid manager in Create's state |
| ThemeManagement.ThemeManager.RegisterTheme | src/MoMo.Net/Theming/ThemeManager.cs:45-64 | throws exactly when Register does, leaving the state alone; otherwise returns Register's boolean and moves to its state; keeps validity |
| ThemeManagement.ThemeManager.SetTheme | src/MoMo.Net/Theming/ThemeManager.cs:67-88 | returns Switch's boolean and moves to Switch's state, raising the event only on true; keeps validity |
| ThemeManagement.ThemeManager.GetTheme | src/MoMo.Net/Theming/ThemeManager.cs:94-102 | present iff non-blank and registered; the theme found carries the name asked for |
| ThemeManagement.ThemeManager.GetRegisteredThemeNames | src/MoMo.Net/Theming/ThemeManager.cs:91 | exactly the names GetTheme finds, the default and fallback names among them |
| DefaultSetup.InitialRegistersBoth | src/MoMo.Net/Theming/ThemeManager.cs:23-30 | Windows 11 plus fallback: construction succeeds, Windows 11 is current, no events, names {"Windows11", "Fallback"}, the fallback found by name |
| DefaultSetup.RegisterClassicAndSwitch | src/MoMo.Net/Theming/ThemeManager.cs:57-87 | registering Windows95Classic returns true and again false; switching to it returns true, makes Accent "#000080" current and logs one (Windows11, Windows95Classic) event |
| DefaultSetup.RefusedSwitches | src/MoMo.Net/Theming/ThemeManager.cs:69-82 | "NonExistent", " " and "Windows11" are refused and leave the manager unchanged |
| Css.PresentMembership | src/MoMo.Net.Blazor/Components/Layout/MoMoShell.razor.cs:84-131 | a declaration is emitted iff its slot holds that value; at most one declaration per slot |
| Css.RenderPresentIsAppended | src/MoMo.Net.Blazor/Components/Layout/MoMoShell.razor.cs:81-133 | rendering the present declarations equals appending each slot's text in turn, as the StringBuilder does |
| Css.AppendIfPresent | src/MoMo.Net.Blazor/Components/Layout/MoMoTaskbar.razor.cs:43-47 | one guarded append: the styles grow by the slot's declaration text, or not at all when its token is absent |
| Css.PresentAppend | src/MoMo.Net.Blazor/Components/Layout/MoMoShell.razor.cs:84-131 | the declarations of consecutive slot runs are those of each run, in order |
| Css.RenderAppend | src/MoMo.Net.Blazor/Components/Layout/MoMoShell.razor.cs:81-133 | rendering a concatenation is the concatenation of the renderings |
| Css.SlotContributesOnlyItsOwnText | src/MoMo.Net.Blazor/Components/Layout/MoMoShell.razor.cs:84-131 | an absent slot adds nothing between its neighbours' text; a present one adds exactly `property: value; ` there |
| Css.AllMissingRendersEmpty | src/MoMo.Net.Blazor/Components/Layout/MoMoTaskbar.razor.cs:43-71 | when no slot is filled the style is empty |
| Css.AllPresentEmitsEach | src/MoMo.Net.Blazor/Components/Layout/MoMoTaskbar.razor.cs:43-71 | when every slot is filled there is one declaration per slot, in slot order, with the slot's value |
| Css.BorderShorthand | src/MoMo.Net.Blazor/Components/Layout/MoMoShell.razor.cs:130 | a border role gives "width style color" with single spaces, and nothing when absent |
| Css.TrimmedClassList | src/MoMo.Net.Blazor/Components/Layout/MoMoTaskbar.razor.cs:25-33 | the base class alone for a null or blank custom class, else base + " " + the trimmed custom class |
| Css.TrimmedClassListIgnoresPadding | src/MoMo.Net.Blazor/Components/Controls/MoMoStartButton.razor.cs:29-38 | padding the custom class with white space does not change the class string |
| Css.TrimmedClassListSuffix | src/MoMo.Net.Blazor/Components/Controls/MoMoStartButton.razor.cs:29-38 | after the base, the class string is empty (null or blank custom class) or one space and a word that starts and ends with a non-white character |
| MoMoShell.PositionClassInjective | src/MoMo.Net.Blazor/Components/Layout/MoMoShell.razor.cs:51-58 | Top, Bottom, Left and Right get four distinct classes |
| MoMoShell.ShellCssClasses | src/MoMo.Net.Blazor/Components/Layout/MoMoShell.razor.cs:49-68 | "momo-shell " + the position class, then " " + the custom class verbatim only when it is not blank |
| MoMoShell.ShellClassesDeterminePosition | src/MoMo.Net.Blazor/Components/Layout/MoMoShell.razor.cs:51-60 | equal class strings mean equal positions, whatever the custom classes |
| MoMoShell.ShellCustomClassNotTrimmed | src/MoMo.Net.Blazor/Components/Layout/MoMoShell.razor.cs:62-65 | a padded custom class reaches the class string with its white space |
| MoMoShell.GetMenuBarStyles | src/MoMo.Net.Blazor/Components/Layout/MoMoShell.razor.cs:74-134 | empty without a theme; otherwise the present declarations of background, color, size, font family/size/weight, shadow and border, in that order |
| MoMoShell.AppendMenuBarDeclarations | src/MoMo.Net.Blazor/Components/Layout/MoMoShell.razor.cs:81-133 | the appends produce exactly the rendering of the menu-bar slots |
| MoMoShell.MenuBarRendering | src/MoMo.Net.Blazor/Components/Layout/MoMoShell.razor.cs:84-131 | the menu-bar style is the text of background, color, size, font family, font size, font weight, shadow and border, concatenated in that order |
| MoMoShell.AppendColorsAndSize | src/MoMo.Net.Blazor/Components/Layout/MoMoShell.razor.cs:84-108 | the first appends produce the background, text-colour and size text, the size under the property its position selects |
| MoMoShell.AppendFontShadowAndBorder | src/MoMo.Net.Blazor/Components/Layout/MoMoShell.razor.cs:110-131 | the last appends add the font's three properties, then the shadow, then the border, to what is already there |
| MoMoShell.AppendFontDeclarations | src/MoMo.Net.Blazor/Components/Layout/MoMoShell.razor.cs:111-117 | a font appends family, size and weight in that order; no font appends nothing |
| MoMoShell.GetContentStyles | src/MoMo.Net.Blazor/Components/Layout/MoMoShell.razor.cs:140-157 | empty without a theme; otherwise the rendering of the PrimaryBackground slot |
| MoMoShell.ContentStyleIsPrimaryBackground | src/MoMo.Net.Blazor/Components/Layout/MoMoShell.razor.cs:150-156 | the content style is "background-color: v; " when PrimaryBackground is v, and empty when it is absent |
| MoMoShell.MenuBarSizeFollowsPosition | src/MoMo.Net.Blazor/Components/Layout/MoMoShell.razor.cs:97-108 | for any theme defining MenuBarHeight, whatever its token's Name, the token's value becomes `height` for Top/Bottom and `width` for Left/Right, never the other |
| MoMoShell.MenuBarShadowOmittedAlone | src/MoMo.Net.Blazor/Components/Layout/MoMoShell.razor.cs:119-124 | removing the shadow role removes exactly the box-shadow text and leaves the rest of the style as it was |
| MoMoTaskbar.CssClasses | src/MoMo.Net.Blazor/Components/Layout/MoMoTaskbar.razor.cs:25-33 | "momo-taskbar" for a null or blank custom class, otherwise that, one space and the trimmed custom class |
| MoMoTaskbar.BorderTopValue | src/MoMo.Net.Blazor/Components/Layout/MoMoTaskbar.razor.cs:49-53 | a TaskbarBorder colour gives "1px solid " + that colour, and nothing when absent |
| MoMoTaskbar.GetInlineStyles | src/MoMo.Net.Blazor/Components/Layout/MoMoTaskbar.razor.cs:35-74 | empty without a theme; otherwise the present declarations of background, border-top, box-shadow, height and padding, in that order |
| MoMoTaskbar.AppendTaskbarDeclarations | src/MoMo.Net.Blazor/Components/Layout/MoMoTaskbar.razor.cs:42-73 | the appends produce exactly the rendering of the taskbar slots |
| MoMoTaskbar.BorderTopIsOnePixelSolid | src/MoMo.Net.Blazor/Components/Layout/MoMoTaskbar.razor.cs:49-53 | a border-top declaration is emitted iff TaskbarBorder is present, and its value is "1px solid " + the colour |
| MoMoStartButton.RadiusValue | src/MoMo.Net.Blazor/Components/Controls/MoMoStartButton.razor.cs:62-66 | the corner radius is the radius token's Width, and nothing when absent |
| MoMoStartButton.GetInlineStyles | src/MoMo.Net.Blazor/Components/Controls/MoMoStartButton.razor.cs:40-75 | empty without a theme; otherwise the present declarations of background, width, height, border-radius and border, in that order |
| MoMoStartButton.AppendStartButtonDeclarations | src/MoMo.Net.Blazor/Components/Controls/MoMoStartButton.razor.cs:47-74 | the appends produce exactly the rendering of the Start-button slots |
| MoMoStartButton.SizeSetsWidthAndHeight | src/MoMo.Net.Blazor/Components/Controls/MoMoStartButton.razor.cs:55-60 | a StartButtonSize emits both width and height with its value; without it neither is emitted |
| MoMoStartButton.RadiusUsesBorderWidth | src/MoMo.Net.Blazor/Components/Controls/MoMoStartButton.razor.cs:62-66 | a border-radius v is emitted iff StartButtonRadius is present with Width v |
| MoMoStartButton.IconColor | src/MoMo.Net.Blazor/Components/Controls/MoMoStartButton.razor.cs:77-86 | the theme's StartButtonIcon colour when present, "#0078d4" without a theme or without the role |
| MoMoStartButton.IconColorNotBlank | src/MoMo.Net.Blazor/Components/Controls/MoMoStartButton.razor.cs:77-86 | the icon colour is never blank, without a theme or for a theme whose tokens are valid |
| MoMoStartButton.CssClasses | src/MoMo.Net.Blazor/Components/Controls/MoMoStartButton.razor.cs:29-38 | "momo-start-button" for a null or blank custom class, otherwise that, one space and the trimmed custom class |
| MoMoStartButton.StartButton.constructor | src/MoMo.Net.Blazor/Components/Controls/MoMoStartButton.razor.cs:27 | no callback invocation yet |
| MoMoStartButton.StartButton.HandleClick | src/MoMo.Net.Blazor/Components/Controls/MoMoStartButton.razor.cs:88-91 | a click invokes the callback once |
| MoMoStartButton.StartButton.HandleKeyPress | src/MoMo.Net.Blazor/Components/Controls/MoMoStartButton.razor.cs:93-99 | a key press invokes the callback once iff the key is " " or "Enter", else not at all |
| ThemedComponents.Windows11StartButtonStyle | src/MoMo.Net.Blazor/Components/Controls/MoMoStartButton.razor.cs:49-72 | with Windows 11: background-color transparent, width and height 40px, border-radius 4px, border "0px none transparent" |
| ThemedComponents.Windows11StartButtonStartsTransparent | src/MoMo.Net.Blazor/Components/Controls/MoMoStartButton.razor.cs:49-53 | with Windows 11 the style begins "background-color: transparent; " |
| ThemedComponents.Windows95ClassicStartButtonUnstyled | src/MoMo.Net/Theming/Windows95ClassicTheme.cs:17-26 | with the classic theme the Start button's style is empty |
| ThemedComponents.IconColors | src/MoMo.Net.Blazor/Components/Controls/MoMoStartButton.razor.cs:84-85 | Windows 11 gives its own "#0078d4"; the classic theme falls back to the default colour |
| ThemedComponents.Windows11TaskbarStyle | src/MoMo.Net.Blazor/Components/Layout/MoMoTaskbar.razor.cs:43-71 | with Windows 11: background rgba(243, 243, 243, 0.85), border-top "1px solid #e5e5e5", its shadow, height 48px, padding "4px 8px" |
| ThemedComponents.Windows95ClassicTaskbarUnstyled | src/MoMo.Net/Theming/Windows95ClassicTheme.cs:17-26 | with the classic theme the taskbar's style is empty |
| ThemedComponents.Windows11TopMenuBarStyle | src/MoMo.Net.Blazor/Components/Layout/MoMoShell.razor.cs:84-131 | with Windows 11 at the top: the eight menu-bar declarations with the theme's values, height 48px, border "0px none transparent" |

## Left out

- Razor markup is not modelled: aria roles, element order and the desktop background parameters are in templates, not in the code-behind.
- The sample applications' `Program.cs` files are not part of this model: they wire up hosting and dependency injection.
- `EventCallback.InvokeAsync` is modelled as a count of invocations, and the .NET `event` is a ghost log of (old, new) pairs; asynchrony, subscribers and handler reentrancy are not modelled.
- `ThemeChangedEventArgs.ChangedAtUtc` is left out because it reads the wall clock; an event keeps only the old and new themes.
- The "fallback chain" named in the `ThemeManager` doc comment is not implemented by the code, so it is not modelled: a missing token is absent, never looked up in another theme.
- C# `null` is represented only where the source checks for it (`Option` for constructor arguments, maps and custom classes). A null theme name passed to `SetTheme` or `GetTheme`, a null role passed to a `Get*` lookup, a null token stored in a map, and a null field of a `with` copy are not representable; in the source a null name or role is refused or not found like a blank one, a null token stored in a map is skipped like an absent role, a null icon value gives the default icon colour, and a null field appended to a style adds nothing, like an empty value.
- The records' generated `ToString` and `GetHashCode` are not modelled; only structural equality is.
- `ITheme` and `IThemeManager` carry no logic; the datatype and the class here provide the members they declare.
- ThemeManagement.Switch: the source compares the registry entry with the current theme by reference; the model compares values. `CurrentEntryIsByName` shows that under the invariant both come to "same name".
- ThemeManagement.ThemeManager.GetRegisteredThemeNames: returns a set; the order in which the dictionary enumerates its keys is not modelled.
- ThemeManagement.ThemeManager.constructor: requires non-blank names so that it cannot throw half-way; `ThemeManager.New` covers null and blank arguments with the same outcomes as the source.
- MoMoShell.ShellCssClasses: the `_` arm of the position switch is unreachable for the four declared enum values and is not modelled; an out-of-range cast enum value is not representable.
- Text.IsWhite is the fixed set of characters `char.IsWhiteSpace` accepts in current .NET; later Unicode changes to that set are not modelled.
- MoMoShell.GetMenuBarStyles, MoMoTaskbar.GetInlineStyles and MoMoStartButton.GetInlineStyles: all theme lookups are done before the appends, whereas the source interleaves them; lookups are pure, so the result is the same. The `StringBuilder` is a local string.
- Css.AppendIfPresent: stated through the slot's contribution (`property: value; ` or nothing) rather than as a separate `Append` call per fragment; the fragments concatenate to the same text.
