/** The theme toggle (src/components/ThemeToggle.tsx): a flag kept in sync
    with the `dark` class on the root element and with the persisted theme. */
module Theme {
  import opened Wrappers

  /** The parts of the browser the theme code touches: whether the root
      element carries the `dark` class, and `localStorage.theme` (absent, or
      the string stored there). */
  class Document {
    var darkClass: bool
    var storedTheme: Option<string>

    constructor(darkClass: bool, storedTheme: Option<string>)
      ensures this.darkClass == darkClass && this.storedTheme == storedTheme
    {
      this.darkClass := darkClass;
      this.storedTheme := storedTheme;
    }
  }

  /** The value persisted for a theme. */
  function ThemeName(dark: bool): (name: string)
    ensures name == "dark" <==> dark
    ensures name == "light" <==> !dark
  {
    if dark then "dark" else "light"
  }

  class ThemeToggle {
    var isDark: bool

    /** The initial flag is whether the root element carries the dark class;
        without a window (no document to look at) it is false. */
    constructor(doc: Document, hasWindow: bool)
      ensures isDark == (hasWindow && doc.darkClass)
    {
      isDark := hasWindow && doc.darkClass;
    }

    /** The flag agrees with the page. */
    predicate InSync(doc: Document)
      reads this, doc
    {
      doc.darkClass == isDark
    }

    /** `toggleTheme`: flips the flag, then adds or removes the dark class
        and persists "dark" or "light" to match the new flag. */
    method Toggle(doc: Document)
      modifies this, doc
      ensures isDark == !old(isDark)
      ensures InSync(doc)
      ensures doc.storedTheme == Some(ThemeName(isDark))
    {
      var newTheme := !isDark;
      isDark := newTheme;
      if newTheme {
        doc.darkClass := true;
      } else {
        doc.darkClass := false;
      }
      doc.storedTheme := Some(ThemeName(newTheme));
    }
  }

  /** Two clicks on the toggle restore the flag, and the class when the page
      was in sync before; a theme is persisted afterwards even when none was
      before. */
  method ToggleTwice(t: ThemeToggle, doc: Document)
    modifies t, doc
    ensures t.isDark == old(t.isDark)
    ensures old(t.InSync(doc)) ==> doc.darkClass == old(doc.darkClass)
    ensures doc.storedTheme == Some(ThemeName(old(t.isDark)))
  {
    t.Toggle(doc);
    t.Toggle(doc);
  }
}
