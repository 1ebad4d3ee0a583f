/**
 * The theme toggle button: before mount a disabled placeholder, afterwards a
 * button that cycles light → dark → system → light, shows the icon of the
 * current theme and is labelled with the mode it switches to.
 */
module ThemeToggle {
  import opened JsValue
  import opened UseTheme

  /** The cycle order of cycleTheme. */
  const Themes: seq<string> := ["light", "dark", "system"]

  /** `xs.indexOf(x)`: the first position holding x, or -1. */
  function IndexOf(xs: seq<string>, x: string): (i: int)
    ensures -1 <= i < |xs|
    ensures i == -1 <==> x !in xs
    ensures 0 <= i ==> xs[i] == x && x !in xs[..i]
  {
    if xs == [] then -1
    else if xs[0] == x then 0
    else
      var j := IndexOf(xs[1..], x);
      assert xs[1..][..if j < 0 then 0 else j] == xs[1..1 + (if j < 0 then 0 else j)];
      if j == -1 then -1 else 1 + j
  }

  /** The cycle order lists exactly the three themes of the hook. */
  lemma ThemesAreTheHookThemes(t: string)
    ensures t in Themes <==> IsTheme(t)
  {
  }

  /** cycleTheme's target: the theme after the current one, wrapping round. */
  function NextTheme(theme: string): (r: string)
    ensures r in Themes
  {
    Themes[(IndexOf(Themes, theme) + 1) % |Themes|]
  }

  /** light → dark, dark → system, system → light. */
  lemma CycleOrder()
    ensures NextTheme("light") == "dark"
    ensures NextTheme("dark") == "system"
    ensures NextTheme("system") == "light"
  {
    assert IndexOf(Themes, "light") == 0;
    assert IndexOf(Themes, "dark") == 1;
    assert IndexOf(Themes, "system") == 2;
  }

  /** A value outside the list (indexOf gives -1) moves to light. */
  lemma UnknownThemeCyclesToLight(theme: string)
    requires theme !in Themes
    ensures NextTheme(theme) == "light"
  {
  }

  /** Three clicks bring every listed theme back to itself. */
  lemma {:induction false} CycleThriceIsIdentity(theme: string)
    requires theme in Themes
    ensures NextTheme(NextTheme(NextTheme(theme))) == theme
  {
    CycleOrder();
  }

  datatype Icon = Sun | Moon | Monitor

  /** getIcon: the current theme's icon; anything but light and dark shows the monitor. */
  function GetIcon(theme: string): (r: Icon)
    ensures r == Sun <==> theme == "light"
    ensures r == Moon <==> theme == "dark"
    ensures r == Monitor <==> theme != "light" && theme != "dark"
  {
    match theme
    case "light" => Sun
    case "dark" => Moon
    case _ => Monitor
  }

  /** getLabel: the accessible label, which names the mode a click moves to, for every theme value. */
  function GetLabel(theme: string): (r: string)
    ensures r == "Przełącz na tryb " + ModeName(NextTheme(theme))
  {
    CycleOrder();
    match theme
    case "light" => "Przełącz na tryb ciemny"
    case "dark" => "Przełącz na tryb systemowy"
    case _ => "Przełącz na tryb jasny"
  }

  /** The Polish adjective naming a mode in the label. */
  function ModeName(theme: string): string
  {
    match theme
    case "dark" => "ciemny"
    case "system" => "systemowy"
    case _ => "jasny"
  }

  /** The three labels as the component spells them. */
  lemma LabelSpelling()
    ensures GetLabel("light") == "Przełącz na tryb ciemny"
    ensures GetLabel("dark") == "Przełącz na tryb systemowy"
    ensures forall t :: t != "light" && t != "dark" ==> GetLabel(t) == "Przełącz na tryb jasny"
  {
  }

  /** The icon shows the current theme, not the next one: the three listed themes have three different icons. */
  lemma IconsDistinguishThemes(a: string, b: string)
    requires a in Themes && b in Themes && a != b
    ensures GetIcon(a) != GetIcon(b)
  {
  }

  /** What the component renders. */
  datatype View =
    | DisabledPlaceholder
    | ToggleButton(icon: Icon, ariaLabel: string, target: string)

  /** Before mount a disabled button without action; afterwards the cycling button. */
  function Render(mounted: bool, theme: string): (v: View)
    ensures v.DisabledPlaceholder? <==> !mounted
    ensures v.ToggleButton? ==> v.target in Themes && v.ariaLabel == "Przełącz na tryb " + ModeName(v.target)
  {
    if !mounted then DisabledPlaceholder
    else ToggleButton(GetIcon(theme), GetLabel(theme), NextTheme(theme))
  }

  /**
   * A click on the component.  The placeholder has no click handler, so a
   * click before mount changes nothing; afterwards it sets the next theme
   * through the hook.
   */
  method Click(h: ThemeHook)
    requires h.Valid()
    modifies h`theme, h`classes, h`stored
    ensures h.Valid()
    ensures !h.mounted ==> h.theme == old(h.theme) && h.classes == old(h.classes) && h.stored == old(h.stored)
    ensures h.mounted ==> h.theme == NextTheme(old(h.theme)) && h.stored == Some(h.theme)
    ensures h.mounted ==> h.classes == Applied(old(h.classes), h.theme, h.prefersDark)
  {
    CycleOrder();
    var view := Render(h.mounted, h.theme);
    if view.ToggleButton? {
      h.SetTheme(view.target);
    }
  }

  /** Three clicks after mount restore a listed theme and persist it. */
  method ClickThrice(h: ThemeHook)
    requires h.Valid() && h.mounted && h.theme in Themes
    modifies h`theme, h`classes, h`stored
    ensures h.Valid()
    ensures h.theme == old(h.theme) && h.stored == Some(old(h.theme))
    ensures h.classes == old(h.classes)
  {
    ghost var c0, t0 := h.classes, h.theme;
    Click(h);
    ghost var c1 := h.classes;
    Click(h);
    ghost var c2 := h.classes;
    Click(h);
    CycleThriceIsIdentity(t0);
    ThemesAreTheHookThemes(NextTheme(t0));
    ThemesAreTheHookThemes(NextTheme(NextTheme(t0)));
    assert c2 == Applied(c1, NextTheme(NextTheme(t0)), h.prefersDark);
    AppliedLastWins(c1, NextTheme(NextTheme(t0)), t0, h.prefersDark);
    assert c1 == Applied(c0, NextTheme(t0), h.prefersDark);
    AppliedLastWins(c0, NextTheme(t0), t0, h.prefersDark);
    AppliedWhenReflected(c0, t0, h.prefersDark);
  }
}
