/**
 * The theme hook: the chosen theme, the `light`/`dark` class on the root
 * element, the theme remembered under the storage key `theme`, and the
 * reaction to a change of the system colour-scheme preference.
 *
 * The hook's three effects are modelled as the methods that a render
 * triggers: Mount runs the initialisation effect and then the re-render it
 * causes; SetTheme runs the synchronising effect after a change; and
 * SystemPreferenceChanged is the media-query listener.
 */
module UseTheme {
  import opened JsValue

  /** The three themes the hook's type admits. */
  predicate IsTheme(t: string)
  {
    t == "light" || t == "dark" || t == "system"
  }

  /**
   * The class a theme puts on the root: `system` resolves to dark exactly
   * when the dark colour scheme is preferred, the others are added as they are.
   */
  function Resolve(t: string, prefersDark: bool): (r: string)
    ensures t == "system" ==> (r == "dark" <==> prefersDark)
    ensures t == "system" ==> (r == "light" <==> !prefersDark)
    ensures t != "system" ==> r == t
    ensures IsTheme(t) ==> r in {"light", "dark"}
  {
    if t == "system" then (if prefersDark then "dark" else "light") else t
  }

  /** The class set after applyTheme(t): both theme classes removed, then the resolved one added. */
  function Applied(classes: set<string>, t: string, prefersDark: bool): (r: set<string>)
    ensures Resolve(t, prefersDark) in r
    ensures forall c :: c in classes && c != "light" && c != "dark" ==> c in r
  {
    (classes - {"light", "dark"}) + {Resolve(t, prefersDark)}
  }

  /** The root shows theme t: its resolved class is present and the other theme class is absent. */
  predicate Reflects(classes: set<string>, t: string, prefersDark: bool)
  {
    && Resolve(t, prefersDark) in classes
    && (Resolve(t, prefersDark) != "light" ==> "light" !in classes)
    && (Resolve(t, prefersDark) != "dark" ==> "dark" !in classes)
  }

  /**
   * For one of the three themes, applying it leaves exactly one of `light`
   * and `dark`, the resolved one, and touches no other class.
   */
  lemma AppliedExactlyOne(classes: set<string>, t: string, prefersDark: bool)
    requires IsTheme(t)
    ensures ("light" in Applied(classes, t, prefersDark)) != ("dark" in Applied(classes, t, prefersDark))
    ensures "dark" in Applied(classes, t, prefersDark) <==> Resolve(t, prefersDark) == "dark"
    ensures forall c :: c != "light" && c != "dark" ==> (c in Applied(classes, t, prefersDark) <==> c in classes)
    ensures Reflects(Applied(classes, t, prefersDark), t, prefersDark)
  {
  }

  /** A value outside the three themes (an arbitrary stored string) leaves neither theme class. */
  lemma AppliedUnknownTheme(classes: set<string>, t: string, prefersDark: bool)
    requires !IsTheme(t)
    ensures "light" !in Applied(classes, t, prefersDark) && "dark" !in Applied(classes, t, prefersDark)
    ensures t in Applied(classes, t, prefersDark)
  {
  }

  /** Applying a theme twice is applying it once. */
  lemma AppliedIdempotent(classes: set<string>, t: string, prefersDark: bool)
    ensures Applied(Applied(classes, t, prefersDark), t, prefersDark) == Applied(classes, t, prefersDark)
  {
  }

  /** Of two themes applied in a row, the first being one of the three, only the second one shows. */
  lemma AppliedLastWins(classes: set<string>, a: string, b: string, prefersDark: bool)
    requires IsTheme(a)
    ensures Applied(Applied(classes, a, prefersDark), b, prefersDark) == Applied(classes, b, prefersDark)
  {
  }

  /** Applying the theme the root already shows changes nothing. */
  lemma AppliedWhenReflected(classes: set<string>, t: string, prefersDark: bool)
    requires Reflects(classes, t, prefersDark)
    ensures Applied(classes, t, prefersDark) == classes
  {
  }

  /** Applying an explicit theme does not depend on the media query. */
  lemma AppliedExplicitIgnoresPreference(classes: set<string>, t: string)
    requires t != "system"
    ensures Applied(classes, t, true) == Applied(classes, t, false)
  {
  }

  /** `stored || 'system'`: an absent or empty stored value falls back to `system`. */
  function InitialTheme(stored: Option<string>): (r: string)
    ensures stored.None? || stored == Some("") ==> r == "system"
    ensures stored.Some? && stored.value != "" ==> r == stored.value
    ensures r != ""
  {
    match stored
    case None => "system"
    case Some(s) => if s == "" then "system" else s
  }

  class ThemeHook {
    /** The `theme` state; starts as `system`. */
    var theme: string
    /** The `mounted` state. */
    var mounted: bool
    /** The root element's class list (a token list holds each class once). */
    var classes: set<string>
    /** localStorage's item under the key `theme`. */
    var stored: Option<string>
    /** Whether `(prefers-color-scheme: dark)` matches. */
    var prefersDark: bool

    /** Once mounted, the theme is persisted and the root reflects it. */
    ghost predicate Valid()
      reads this
    {
      mounted ==> stored == Some(theme) && Reflects(classes, theme, prefersDark)
    }

    /** The first render: nothing is applied or stored before mount. */
    constructor (classes: set<string>, stored: Option<string>, prefersDark: bool)
      ensures Valid()
      ensures theme == "system" && !mounted
      ensures this.classes == classes && this.stored == stored && this.prefersDark == prefersDark
    {
      theme := "system";
      mounted := false;
      this.classes := classes;
      this.stored := stored;
      this.prefersDark := prefersDark;
    }

    /** applyTheme: remove both theme classes, then add the resolved one. */
    method ApplyTheme(t: string)
      modifies this`classes
      ensures classes == Applied(old(classes), t, prefersDark)
    {
      classes := classes - {"light", "dark"};
      classes := classes + {Resolve(t, prefersDark)};
    }

    /**
     * The mount effect (mounted, initial theme from storage, apply), followed
     * by the re-render it causes, in which the synchronising effect applies
     * and persists the theme because `mounted` changed.
     */
    method Mount()
      requires !mounted
      modifies this
      ensures Valid()
      ensures mounted && theme == InitialTheme(old(stored))
      ensures classes == Applied(old(classes), theme, prefersDark)
      ensures stored == Some(theme) && prefersDark == old(prefersDark)
    {
      mounted := true;
      var initial := InitialTheme(stored);
      theme := initial;
      ApplyTheme(initial);
      // re-render: the synchronising effect sees mounted change
      ApplyTheme(theme);
      stored := Some(theme);
      AppliedIdempotent(old(classes), theme, prefersDark);
      ReflectsApplied(old(classes), theme, prefersDark);
    }

    /**
     * The setter the hook returns: ignored until mounted.  A new value is
     * re-rendered, and the synchronising effect applies and persists it; the
     * same value again does not re-render, so nothing runs.
     */
    method SetTheme(newTheme: string)
      requires Valid()
      modifies this`theme, this`classes, this`stored
      ensures Valid()
      ensures !old(mounted) ==> theme == old(theme) && classes == old(classes) && stored == old(stored)
      ensures old(mounted) ==> theme == newTheme && stored == Some(newTheme)
      ensures old(mounted) && newTheme != old(theme) ==> classes == Applied(old(classes), newTheme, prefersDark)
      ensures old(mounted) && newTheme == old(theme) ==> classes == old(classes)
    {
      if mounted {
        if newTheme != theme {
          theme := newTheme;
          ApplyTheme(theme);
          stored := Some(theme);
          ReflectsApplied(old(classes), theme, prefersDark);
        }
      }
    }

    /** The media-query listener: re-apply `system` while mounted and the theme is `system`. */
    method SystemPreferenceChanged(dark: bool)
      requires Valid()
      modifies this`prefersDark, this`classes
      ensures Valid()
      ensures prefersDark == dark
      ensures old(mounted) && theme == "system" ==> classes == Applied(old(classes), "system", dark)
      ensures !(old(mounted) && theme == "system") ==> classes == old(classes)
    {
      prefersDark := dark;
      if mounted && theme == "system" {
        ApplyTheme("system");
        ReflectsApplied(old(classes), theme, prefersDark);
      }
    }
  }

  /** Whatever theme is applied, the root then reflects it. */
  lemma ReflectsApplied(classes: set<string>, t: string, prefersDark: bool)
    ensures Reflects(Applied(classes, t, prefersDark), t, prefersDark)
  {
  }
}
