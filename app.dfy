/** The application shell (src/App.tsx): the theme applied at startup and
    the guard in front of the dashboard route. */
module App {
  import opened Wrappers
  import opened Theme

  /** Whether the page starts dark: a persisted "dark" does; any other
      persisted value does not; with nothing persisted the operating
      system's colour-scheme preference decides. */
  function StartupDark(stored: Option<string>, prefersDark: bool): (dark: bool)
    ensures stored.Some? ==> (dark <==> stored.value == "dark")
    ensures stored.None? ==> dark == prefersDark
  {
    stored == Some("dark") || (stored.None? && prefersDark)
  }

  /** A persisted light theme wins over an operating system that prefers dark. */
  lemma LightOverridesSystemDark()
    ensures !StartupDark(Some("light"), true)
    ensures StartupDark(Some("dark"), false)
  {
  }

  /** The startup effect: sets or clears the dark class from the stored
      theme and the preference; the stored theme itself is left alone. */
  method InitializeTheme(doc: Document, prefersDark: bool)
    modifies doc
    ensures doc.darkClass == StartupDark(doc.storedTheme, prefersDark)
    ensures doc.storedTheme == old(doc.storedTheme)
  {
    if StartupDark(doc.storedTheme, prefersDark) {
      doc.darkClass := true;
    } else {
      doc.darkClass := false;
    }
  }

  /** A toggle followed by a page reload: the page comes back in the theme
      the user picked, whatever the operating system prefers, and a fresh
      toggle starts in sync with it. */
  method ToggleThenReload(t: ThemeToggle, doc: Document, prefersDark: bool)
    returns (reloaded: ThemeToggle)
    modifies t, doc
    ensures doc.darkClass == !old(t.isDark)
    ensures reloaded.isDark == !old(t.isDark) && reloaded.InSync(doc)
  {
    t.Toggle(doc);
    InitializeTheme(doc, prefersDark);
    reloaded := new ThemeToggle(doc, true);
  }

  /** What the dashboard route renders. */
  datatype View = LoadingView | Children | Redirect(to: string)

  const LoginPath := "/login"

  /** `PrivateRoute`: the loading view while authentication is loading,
      whoever the user is; afterwards the children when signed in and a
      redirect to the login page otherwise. */
  function PrivateRoute<U>(loading: bool, user: Option<U>): (v: View)
    ensures loading ==> v == LoadingView
    ensures !loading ==> (v == Children <==> user.Some?)
    ensures !loading && user.None? ==> v == Redirect(LoginPath)
  {
    if loading then LoadingView
    else if user.Some? then Children
    else Redirect(LoginPath)
  }
}
