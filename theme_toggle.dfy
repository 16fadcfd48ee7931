/**
 * The colour-scheme switch and the inline script that applies the stored scheme
 * before the page hydrates (frontend/components/theme-toggle.tsx).
 */
module ThemeToggle {
  import opened Common
  import opened JsStrings

  /** `ThemeMode`: the three values the toggle offers and stores. */
  datatype ThemeMode = Dark | Light | System

  function ThemeName(theme: ThemeMode): string {
    match theme
    case Dark => "dark"
    case Light => "light"
    case System => "system"
  }

  /** The class a theme puts on the root element; `system` follows the colour-scheme media query. */
  function ResolvedClass(theme: ThemeMode, prefersDark: bool): (cls: string)
    ensures cls == "dark" || cls == "light"
    ensures theme == System ==> (cls == "dark" <==> prefersDark)
    ensures theme != System ==> cls == ThemeName(theme)
  {
    if theme == System then (if prefersDark then "dark" else "light") else ThemeName(theme)
  }

  /** The parts of the browser the toggle reads and writes, and the toggle's own state. */
  class ThemeDocument {
    /** `document.documentElement.classList`. */
    var classes: set<string>
    /** The value stored under the theme key in `localStorage`. */
    var stored: Option<ThemeMode>
    /** Whether the root element carries `data-theme-loaded`. */
    var themeLoaded: bool
    /** Whether the colour-scheme media query matches. */
    var prefersDark: bool
    /** The toggle's `theme` state; `None` until it has mounted (it renders nothing then). */
    var theme: Option<ThemeMode>

    constructor (classes0: set<string>, stored0: Option<ThemeMode>, prefersDark0: bool)
      ensures classes == classes0 && stored == stored0 && prefersDark == prefersDark0
      ensures !themeLoaded && theme == None
    {
      classes, stored, prefersDark := classes0, stored0, prefersDark0;
      themeLoaded, theme := false, None;
    }

    /**
     * The inline `THEME_SCRIPT` as shipped: adds the stored (default `system`) theme's class
     * without removing anything. Its last statement, which would set `data-theme-loaded`,
     * follows a `//` comment line; once the line feeds are removed it sits inside that
     * comment, so the flag is left as it was.
     */
    method RunThemeScript()
      modifies this
      ensures classes == old(classes) + {ResolvedClass(old(stored).GetOr(System), prefersDark)}
      ensures themeLoaded == old(themeLoaded)
      ensures stored == old(stored) && prefersDark == old(prefersDark) && theme == old(theme)
    {
      classes := classes + {ResolvedClass(stored.GetOr(System), prefersDark)};
    }

    /** The script as intended: the same class, and `data-theme-loaded` set afterwards. */
    method RunIntendedThemeScript()
      modifies this
      ensures classes == old(classes) + {ResolvedClass(old(stored).GetOr(System), prefersDark)}
      ensures themeLoaded
      ensures stored == old(stored) && prefersDark == old(prefersDark) && theme == old(theme)
    {
      classes := classes + {ResolvedClass(stored.GetOr(System), prefersDark)};
      themeLoaded := true;
    }

    /**
     * `applyTheme`: stores the requested theme verbatim, and leaves exactly one of
     * `dark` and `light` on the root element; every other class is kept.
     */
    method ApplyTheme(t: ThemeMode)
      modifies this
      ensures classes == (old(classes) - {"dark", "light"}) + {ResolvedClass(t, prefersDark)}
      ensures ("dark" in classes) != ("light" in classes)
      ensures forall c :: c != "dark" && c != "light" ==> (c in classes <==> c in old(classes))
      ensures stored == Some(t)
      ensures themeLoaded == old(themeLoaded) && prefersDark == old(prefersDark) && theme == old(theme)
    {
      classes := classes - {"dark", "light"};
      stored := Some(t);
      if t == System {
        if prefersDark {
          classes := classes + {"dark"};
        } else {
          classes := classes + {"light"};
        }
      } else {
        classes := classes + {ThemeName(t)};
      }
    }

    /**
     * The mount effect: re-applies the stored theme (default `system`) only when the
     * inline script has not run, then records that theme as the toggle's state.
     */
    method Mount()
      modifies this
      ensures theme == Some(old(stored).GetOr(System))
      ensures old(themeLoaded) ==> classes == old(classes) && stored == old(stored)
      ensures !old(themeLoaded) ==>
        && classes == (old(classes) - {"dark", "light"}) + {ResolvedClass(old(stored).GetOr(System), prefersDark)}
        && stored == Some(old(stored).GetOr(System))
      ensures themeLoaded == old(themeLoaded) && prefersDark == old(prefersDark)
    {
      if !themeLoaded {
        ApplyTheme(stored.GetOr(System));
      }
      theme := Some(stored.GetOr(System));
    }

    /**
     * A page load as shipped: the inline script, then the toggle's mount effect. The flag is
     * never set, so the mount always re-applies the theme: exactly one of `dark` and `light`
     * remains, and the theme (default `system`) is written to storage.
     */
    method LoadPage()
      modifies this
      ensures !old(themeLoaded) ==>
        && classes == (old(classes) - {"dark", "light"}) + {ResolvedClass(old(stored).GetOr(System), prefersDark)}
        && ("dark" in classes) != ("light" in classes)
        && stored == Some(old(stored).GetOr(System))
      ensures old(themeLoaded) ==>
        classes == old(classes) + {ResolvedClass(old(stored).GetOr(System), prefersDark)} && stored == old(stored)
      ensures theme == Some(old(stored).GetOr(System))
      ensures themeLoaded == old(themeLoaded) && prefersDark == old(prefersDark)
    {
      RunThemeScript();
      Mount();
    }

    /**
     * A page load with the intended script: the script alone applies the theme and marks it
     * loaded, and the mount then only records the stored theme, leaving the document and the
     * storage as the script left them.
     */
    method LoadPageIntended()
      modifies this
      ensures classes == old(classes) + {ResolvedClass(old(stored).GetOr(System), prefersDark)}
      ensures themeLoaded && stored == old(stored)
      ensures theme == Some(old(stored).GetOr(System))
      ensures prefersDark == old(prefersDark)
    {
      RunIntendedThemeScript();
      Mount();
    }

    /** `handleThemeChange`: applies the theme and records the same theme as the state. */
    method HandleThemeChange(t: ThemeMode)
      modifies this
      ensures theme == Some(t) && stored == Some(t)
      ensures classes == (old(classes) - {"dark", "light"}) + {ResolvedClass(t, prefersDark)}
      ensures ("dark" in classes) != ("light" in classes)
      ensures themeLoaded == old(themeLoaded) && prefersDark == old(prefersDark)
    {
      ApplyTheme(t);
      theme := Some(t);
    }
  }

  /** The normalisation applied to the script text: `.trim().replace(/\n/g, '').replace(/\s+/g, ' ')`. */
  function NormalizeScript(source: string): string {
    CollapseWhitespace(RemoveNewlines(Trim(source)))
  }

  /**
   * Whatever the template, the inlined script is one line: no line feed, no two white-space
   * characters in a row, none at either end, and every non-white-space character kept in order.
   */
  lemma NormalizedScriptIsOneLine(source: string)
    ensures var r := NormalizeScript(source);
      && (forall i :: 0 <= i < |r| ==> r[i] != '\n')
      && (forall i :: 0 <= i < |r| - 1 ==> !(IsWhitespace(r[i]) && IsWhitespace(r[i + 1])))
      && (r == [] || (!IsWhitespace(r[0]) && !IsWhitespace(r[|r| - 1])))
      && Visible(r) == Visible(source)
  {
    NormalizedHasNoNewline(source);
    NormalizedEnds(source);
    NormalizedKeepsVisible(source);
  }

  lemma NormalizedHasNoNewline(source: string)
    ensures var r := NormalizeScript(source); forall i :: 0 <= i < |r| ==> r[i] != '\n'
  {
    assert IsWhitespace('\n');
  }

  lemma NormalizedEnds(source: string)
    ensures var r := NormalizeScript(source); r == [] || (!IsWhitespace(r[0]) && !IsWhitespace(r[|r| - 1]))
  {
    TrimmedEnds(source);
    var t := Trim(source);
    var u := RemoveNewlines(t);
    assert t != [] ==> u != [] && u[0] == t[0] && u[|u| - 1] == t[|t| - 1];
  }

  lemma NormalizedKeepsVisible(source: string)
    ensures Visible(NormalizeScript(source)) == Visible(source)
  {
    TrimKeepsVisible(source);
    CollapseKeepsVisible(RemoveNewlines(Trim(source)));
  }

  /**
   * Collapsing is the last step: the normalised script has the layout of the trimmed text
   * without line feeds, so it holds one space exactly where that text had white space.
   */
  lemma NormalizedKeepsLayout(source: string)
    ensures Layout(NormalizeScript(source)) == Layout(RemoveNewlines(Trim(source)))
  {
    CollapseKeepsLayout(RemoveNewlines(Trim(source)));
  }

  /** JavaScript's line terminators: the only characters that end a `//` comment. */
  predicate IsLineTerminator(c: char) {
    c == '\n' || c == '\r' || c == '\U{2028}' || c == '\U{2029}'
  }

  /**
   * The normalised script has no line terminator at all, so a `//` comment in it runs to the
   * end of the script.
   */
  lemma NormalizedHasNoLineTerminator(source: string)
    ensures var r := NormalizeScript(source); forall i :: 0 <= i < |r| ==> !IsLineTerminator(r[i])
  {
    var r := NormalizeScript(source);
    forall i | 0 <= i < |r| ensures !IsLineTerminator(r[i]) {
      if IsLineTerminator(r[i]) {
        assert IsWhitespace(r[i]);
      }
    }
  }

  /**
   * Removing line feeds pulls the line after a `//` comment onto the comment's line, right
   * after its text: in `THEME_SCRIPT` (the comment line, then the `setAttribute` line) the
   * `setAttribute` call ends up inside the comment.
   */
  lemma {:induction false} NewlineRemovalJoinsCommentToNextLine(code: string, comment: string, next: string)
    requires '\n' !in code && '\n' !in comment
    ensures RemoveNewlines(code + "//" + comment + "\n" + next) == code + "//" + comment + RemoveNewlines(next)
  {
    var head := code + "//" + comment;
    assert '\n' !in head by {
      forall i | 0 <= i < |head| ensures head[i] != '\n' {
        if i < |code| { assert head[i] == code[i]; }
        else if i >= |code| + 2 { assert head[i] == comment[i - |code| - 2]; }
      }
    }
    RemoveNewlinesKeepsPlainText(head);
    assert code + "//" + comment + "\n" + next == head + ("\n" + next);
    RemoveNewlinesAppend(head, "\n" + next);
    RemoveNewlinesAppend("\n", next);
    assert RemoveNewlines("\n") == [];
  }

  /** The trimmed text neither starts nor ends with white space. */
  lemma TrimmedEnds(source: string)
    ensures var t := Trim(source); t == [] || (!IsWhitespace(t[0]) && !IsWhitespace(t[|t| - 1]))
  {
    var s0 := TrimStart(source);
    var t := Trim(source);
    if t != [] {
      assert t[0] == s0[0];
    }
  }
}
