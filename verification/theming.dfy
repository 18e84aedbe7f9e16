/** The theme manager: a current theme chosen from a growable list of theme
    names, mirrored into the root element's `data-theme` attribute and into
    the icon of the theme toggle button. Toggling steps cyclically through
    the list. */
module Theming {
  import opened Dom

  const DefaultTheme: string := "dark"
  const DefaultThemes: seq<string> := ["dark", "light"]
  /** The crescent moon shown for the dark theme and for unknown themes. */
  const Moon: string := "\U{1F319}"
  /** The sun (with emoji presentation selector) shown for the light theme. */
  const Sun: string := "\U{2600}\U{FE0F}"

  ghost predicate NoDuplicates(s: seq<string>)
  {
    forall i, j :: 0 <= i < j < |s| ==> s[i] != s[j]
  }

  /** `Array.prototype.indexOf`: the first position of `x`, or -1. */
  function IndexOf(s: seq<string>, x: string): (i: int)
    ensures -1 <= i < |s|
    ensures i == -1 <==> x !in s
    ensures 0 <= i ==> s[i] == x && x !in s[..i]
  {
    if s == [] then -1
    else if s[0] == x then 0
    else
      var j := IndexOf(s[1..], x);
      if j == -1 then -1
      else
        assert s[..j + 1] == [s[0]] + s[1..][..j];
        j + 1
  }

  /** The theme `toggleTheme` selects: the one after the current theme's
      first position, wrapping to the first theme; the first theme too when
      the current one is not listed. */
  function NextTheme(themes: seq<string>, current: string): (next: string)
    requires |themes| > 0
    ensures next in themes
    ensures current !in themes ==> next == themes[0]
  {
    var i := IndexOf(themes, current);
    if i + 1 < |themes| then themes[i + 1] else themes[0]
  }

  /** `toggleTheme` computes `(i + 1) % length` with `-1 <= i < length`; the
      dividend is never negative, so JavaScript's `%` agrees with Dafny's,
      and the result wraps exactly at the end of the list. */
  lemma WrapIsMod(k: nat, n: nat)
    requires 0 < n && k <= n
    ensures k % n == if k < n then k else 0
  {
    if k == n {
      assert k % n == n % n == 0;
    } else {
      assert k / n == 0;
    }
  }

  /** The position after `i` in a list of `n` themes, wrapping to the first. */
  function Succ(i: nat, n: nat): nat
  {
    if i + 1 < n then i + 1 else 0
  }

  /** In a list without duplicates, toggling moves one position on, wrapping
      from the last theme to the first. */
  lemma NextThemeAt(themes: seq<string>, i: nat)
    requires NoDuplicates(themes) && i < |themes|
    ensures NextTheme(themes, themes[i]) == themes[Succ(i, |themes|)]
  {
    assert IndexOf(themes, themes[i]) == i;
  }

  /** With the default list: dark -> light -> dark. */
  lemma DefaultThemesAlternate()
    ensures NextTheme(DefaultThemes, "dark") == "light"
    ensures NextTheme(DefaultThemes, "light") == "dark"
  {
    NextThemeAt(DefaultThemes, 0);
    NextThemeAt(DefaultThemes, 1);
  }

  /** The theme after `k` toggles starting from `start`. */
  function ToggleTimes(themes: seq<string>, start: string, k: nat): string
    requires |themes| > 0
  {
    if k == 0 then start else NextTheme(themes, ToggleTimes(themes, start, k - 1))
  }

  /** Up to `n` toggles from the `i`-th theme land `k` positions on, counted
      around the list. */
  lemma {:induction false} ToggleCycle(themes: seq<string>, i: nat, k: nat)
    requires NoDuplicates(themes) && i < |themes| && k <= |themes|
    ensures ToggleTimes(themes, themes[i], k)
            == themes[if i + k < |themes| then i + k else i + k - |themes|]
  {
    if k > 0 {
      ToggleCycle(themes, i, k - 1);
      var n := |themes|;
      var j := if i + k - 1 < n then i + k - 1 else i + k - 1 - n;
      assert ToggleTimes(themes, themes[i], k) == NextTheme(themes, themes[j]);
      NextThemeAt(themes, j);
      assert Succ(j, n) == if i + k < n then i + k else i + k - n;
    }
  }

  /** As many toggles as there are themes bring the starting theme back. */
  lemma ToggleRoundTrip(themes: seq<string>, i: nat)
    requires NoDuplicates(themes) && i < |themes|
    ensures ToggleTimes(themes, themes[i], |themes|) == themes[i]
  {
    ToggleCycle(themes, i, |themes|);
  }

  /** `addTheme`'s list update: the name is appended only when absent. */
  function WithTheme(themes: seq<string>, name: string): (r: seq<string>)
    ensures name in r
    ensures |r| == if name in themes then |themes| else |themes| + 1
    ensures r[..|themes|] == themes
  {
    if name !in themes then themes + [name] else themes
  }

  /** Adding a theme keeps the list free of duplicates, and adding it twice
      is the same as adding it once. */
  lemma WithThemeNoDuplicates(themes: seq<string>, name: string)
    requires NoDuplicates(themes)
    ensures NoDuplicates(WithTheme(themes, name))
    ensures WithTheme(WithTheme(themes, name), name) == WithTheme(themes, name)
  {
    var r := WithTheme(themes, name);
    forall i, j | 0 <= i < j < |r| ensures r[i] != r[j] {
      if j == |themes| {
        assert r[i] == themes[i];
      }
    }
  }

  /** The toggle button's icon: the sun exactly for the light theme. */
  function ToggleIcon(theme: string): (icon: string)
    ensures icon == Sun <==> theme == "light"
    ensures icon == Moon <==> theme != "light"
  {
    match theme
    case "dark" => Moon
    case "light" => Sun
    case _ => Moon
  }

  class ThemeManager {
    var currentTheme: string
    var themes: seq<string>
    /** Whether the page has a `#themeToggle` button. */
    const hasToggle: bool
    const dom: Document

    ghost predicate Valid()
      reads this, dom
    {
      && |themes| > 0
      && NoDuplicates(themes)
      && dom.dataTheme == Some(currentTheme)
      && (hasToggle ==> dom.toggleText == ToggleIcon(currentTheme))
    }

    constructor (dom: Document, hasToggle: bool)
      modifies dom`dataTheme, dom`toggleText
      ensures Valid() && this.dom == dom && this.hasToggle == hasToggle
      ensures currentTheme == DefaultTheme && themes == DefaultThemes
      ensures dom.dataTheme == Some(DefaultTheme)
      ensures !hasToggle ==> dom.toggleText == old(dom.toggleText)
    {
      this.dom := dom;
      this.hasToggle := hasToggle;
      currentTheme := DefaultTheme;
      themes := DefaultThemes;
      new;
      SetTheme(currentTheme);
    }

    method SetTheme(theme: string)
      modifies this`currentTheme, dom`dataTheme, dom`toggleText
      ensures currentTheme == theme && dom.dataTheme == Some(theme)
      ensures hasToggle ==> dom.toggleText == ToggleIcon(theme)
      ensures !hasToggle ==> dom.toggleText == old(dom.toggleText)
      ensures Valid() <==> |themes| > 0 && NoDuplicates(themes)
    {
      dom.dataTheme := Some(theme);
      currentTheme := theme;
      UpdateToggleButton();
    }

    method ToggleTheme()
      requires Valid()
      modifies this`currentTheme, dom`dataTheme, dom`toggleText
      ensures Valid() && currentTheme == NextTheme(themes, old(currentTheme))
      ensures !hasToggle ==> dom.toggleText == old(dom.toggleText)
    {
      var currentIndex := IndexOf(themes, currentTheme);
      var nextIndex := (currentIndex + 1) % |themes|;
      WrapIsMod(currentIndex + 1, |themes|);
      SetTheme(themes[nextIndex]);
    }

    method UpdateToggleButton()
      modifies dom`toggleText
      ensures hasToggle ==> dom.toggleText == ToggleIcon(currentTheme)
      ensures !hasToggle ==> dom.toggleText == old(dom.toggleText)
    {
      if hasToggle {
        dom.toggleText := ToggleIcon(currentTheme);
      }
    }

    method AddTheme(name: string)
      requires Valid()
      modifies this`themes
      ensures Valid() && themes == WithTheme(old(themes), name)
      ensures currentTheme == old(currentTheme)
    {
      WithThemeNoDuplicates(themes, name);
      if name !in themes {
        themes := themes + [name];
      }
    }
  }
}
