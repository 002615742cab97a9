/** The `theme` slice of the application store: the colour mode of the UI. */
module ThemeSlice {

  datatype Mode = Light | Dark

  const InitialMode: Mode := Light

  /** The mode `toggleTheme` switches to. */
  function Toggled(m: Mode): (r: Mode)
    ensures r != m
    ensures m == Light <==> r == Dark
  {
    if m == Light then Dark else Light
  }

  /** Toggling twice returns to the mode one started from. */
  lemma ToggleTwiceIsIdentity(m: Mode)
    ensures Toggled(Toggled(m)) == m
  {
  }

  class ThemeStore {
    var mode: Mode

    constructor ()
      ensures mode == Light
    {
      mode := InitialMode;
    }

    method ToggleTheme()
      modifies this
      ensures mode == Toggled(old(mode))
    {
      mode := Toggled(mode);
    }

    method SetTheme(m: Mode)
      modifies this
      ensures mode == m
    {
      mode := m;
    }
  }
}
