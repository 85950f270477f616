/** The client's light/dark theme, switched by a toggle and read through `useTheme`. */
module Theme {
  import opened Wrappers
  import Ui

  datatype ThemeName = Light | Dark

  function Toggled(t: ThemeName): (r: ThemeName)
    ensures r != t
  {
    if t == Light then Dark else Light
  }

  /** Toggling twice restores the theme. */
  lemma ToggleTwice(t: ThemeName)
    ensures Toggled(Toggled(t)) == t
  {
  }

  class ThemeProvider {
    var theme: ThemeName

    constructor ()
      ensures theme == Light && !IsDarkMode()
    {
      theme := Light;
    }

    predicate IsDarkMode()
      reads this
    {
      theme == Dark
    }

    /** `toggleTheme`. */
    method ToggleTheme()
      modifies this
      ensures theme == Toggled(old(theme))
      ensures IsDarkMode() <==> !old(IsDarkMode())
    {
      theme := if theme == Light then Dark else Light;
    }
  }

  /** `useTheme`. */
  function UseTheme<C>(context: Option<C>): (r: Result<C, string>)
    ensures context.Some? ==> r == Success(context.value)
    ensures context.None? ==> r == Failure("useTheme must be used within a ThemeProvider")
  {
    assert "useTheme" + " must be used within " + "a ThemeProvider" == "useTheme must be used within a ThemeProvider";
    Ui.UseContext(context, "useTheme", "a ThemeProvider")
  }
}
