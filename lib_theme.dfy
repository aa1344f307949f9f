/** The theme provider (`lib/ThemeContext.tsx`): the device's colour scheme
    decides between light and dark until the user toggles, after which the
    user's choice holds whatever the device reports. */
module LibTheme {
  import opened Options

  /** What the device reports (`useColorScheme`); `NoScheme` for null or undefined. */
  datatype Scheme = LightScheme | DarkScheme | NoScheme

  /** A theme the user picked. */
  datatype ThemeName = Light | Dark

  /** `isDark`: the user's choice when there is one, else the device's. */
  function IsDark(manualTheme: Option<ThemeName>, device: Scheme): (dark: bool)
    ensures manualTheme.Some? ==> (dark <==> manualTheme.value == Dark)
    ensures manualTheme.None? ==> (dark <==> device == DarkScheme)
  {
    if manualTheme.Some? then manualTheme.value == Dark else device == DarkScheme
  }

  /** The choice `toggleTheme` stores: the opposite of what is shown now. */
  function Toggled(manualTheme: Option<ThemeName>, device: Scheme): (r: Option<ThemeName>)
    ensures r.Some?
    ensures forall later: Scheme :: IsDark(r, later) == !IsDark(manualTheme, device)
  {
    Some(if IsDark(manualTheme, device) then Light else Dark)
  }

  /** Toggling twice shows what was shown before, now pinned against any
      later change of the device's scheme. */
  lemma ToggleTwice(manualTheme: Option<ThemeName>, device: Scheme, later: Scheme)
    ensures IsDark(Toggled(Toggled(manualTheme, device), device), later) == IsDark(manualTheme, device)
  {
  }

  /** Until the first toggle the device decides. */
  lemma DeviceDecidesFirst(device: Scheme)
    ensures IsDark(None, device) <==> device == DarkScheme
  {
  }

  /** The provider's state: the user's choice, null at first. */
  class ThemeProvider {
    var manualTheme: Option<ThemeName>

    constructor ()
      ensures manualTheme == None
    {
      manualTheme := None;
    }

    /** The theme shown while the device reports `device`. */
    function ShowsDark(device: Scheme): (dark: bool)
      reads this
      ensures manualTheme.None? ==> (dark <==> device == DarkScheme)
    {
      IsDark(manualTheme, device)
    }

    /** `toggleTheme`: flips the theme shown, and keeps it under any device scheme. */
    method ToggleTheme(device: Scheme)
      modifies this
      ensures manualTheme == Toggled(old(manualTheme), device)
      ensures forall later: Scheme :: ShowsDark(later) == !old(ShowsDark(device))
    {
      manualTheme := Some(if IsDark(manualTheme, device) then Light else Dark);
    }
  }
}
