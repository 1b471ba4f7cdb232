/**
 * The manager as an application sets it up: Windows 11 as the default theme, the
 * fallback theme beside it, and the Windows 95 classic theme registered later and
 * switched to.
 */
module DefaultSetup {
  import opened Wrappers
  import opened Text
  import opened Tokens
  import opened Theming
  import opened ThemeManagement
  import Windows11Theme
  import Windows95ClassicTheme
  import DefaultFallbackTheme

  /** The manager built from the Windows 11 and fallback themes. */
  function Initial(): Manager
    requires Create(Some(Windows11Theme.Windows11), Some(DefaultFallbackTheme.Fallback)).Success?
  {
    Create(Some(Windows11Theme.Windows11), Some(DefaultFallbackTheme.Fallback)).value
  }

  /**
   * Construction succeeds, starts on Windows 11 with no event raised, and registers
   * both themes, since "Windows11" and "Fallback" differ.
   */
  lemma InitialRegistersBoth()
    ensures Create(Some(Windows11Theme.Windows11), Some(DefaultFallbackTheme.Fallback)).Success?
    ensures Initial().current == Windows11Theme.Windows11 && Initial().events == []
    ensures Initial().themes.Keys == {"Windows11", "Fallback"}
    ensures Lookup(Initial(), "Fallback") == Some(DefaultFallbackTheme.Fallback)
  {
    NotBlank("Windows11");
    NotBlank("Fallback");
    CreateRegistersBoth(Windows11Theme.Windows11, DefaultFallbackTheme.Fallback);
  }

  /**
   * Registering the Windows 95 classic theme returns true, a second registration
   * returns false, and switching to it returns true, makes its navy accent current
   * and raises exactly one event, from Windows 11 to it.
   */
  lemma RegisterClassicAndSwitch()
    ensures Create(Some(Windows11Theme.Windows11), Some(DefaultFallbackTheme.Fallback)).Success?
    ensures Register(Initial(), Some(Windows95ClassicTheme.Windows95Classic)).Success?
    ensures var (added, m) := Register(Initial(), Some(Windows95ClassicTheme.Windows95Classic)).value;
            && added
            && Register(m, Some(Windows95ClassicTheme.Windows95Classic)) == Success((false, m))
            && var (changed, m') := Switch(m, "Windows95Classic");
            && changed
            && m'.current.GetColor("Accent") == Some(ColorToken("#000080", "Accent"))
            && m'.events == [ThemeChange(Windows11Theme.Windows11, Windows95ClassicTheme.Windows95Classic)]
  {
    InitialRegistersBoth();
    NotBlank("Windows95Classic");
    Windows95ClassicTheme.ClassicLookups();
    var m := Register(Initial(), Some(Windows95ClassicTheme.Windows95Classic)).value.1;
    assert m.themes["Windows95Classic"] == Windows95ClassicTheme.Windows95Classic;
    assert Windows95ClassicTheme.Windows95Classic != Windows11Theme.Windows11;
  }

  /** Unknown, blank and current names are refused and change nothing. */
  lemma RefusedSwitches()
    ensures Create(Some(Windows11Theme.Windows11), Some(DefaultFallbackTheme.Fallback)).Success?
    ensures Switch(Initial(), "NonExistent") == (false, Initial())
    ensures Switch(Initial(), " ") == (false, Initial())
    ensures Switch(Initial(), "Windows11") == (false, Initial())
  {
    InitialRegistersBoth();
    assert "NonExistent" !in Initial().themes.Keys;
  }
}
