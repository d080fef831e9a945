/** The theme toggle (src/components/layout/header.tsx). */
module Header {

  const Themes: seq<string> := ["light", "dark", "system"]

  /** `Array.prototype.indexOf`: the first position of x, or -1. */
  function IndexOf(s: seq<string>, x: string): (i: int)
    ensures -1 <= i < |s|
    ensures i == -1 <==> x !in s
    ensures i >= 0 ==> s[i] == x && forall j :: 0 <= j < i ==> s[j] != x
  {
    if s == [] then -1
    else if s[0] == x then 0
    else
      var k := IndexOf(s[1..], x);
      if k == -1 then -1 else k + 1
  }

  /** `cycleTheme`: the successor of the current theme in the list, modulo
      its length; a theme not in the list (index -1) goes to the first. */
  function CycleTheme(theme: string): (next: string)
    ensures next in Themes
    ensures next != theme
  {
    var nextIndex := (IndexOf(Themes, theme) + 1) % |Themes|;
    Themes[nextIndex]
  }

  lemma CycleOrder()
    ensures CycleTheme("light") == "dark"
    ensures CycleTheme("dark") == "system"
    ensures CycleTheme("system") == "light"
  {
    assert IndexOf(Themes, "light") == 0;
    assert IndexOf(Themes, "dark") == 1;
    assert IndexOf(Themes, "system") == 2;
  }

  /** Three presses return every listed theme to itself. */
  lemma ThreeCyclesReturn(theme: string)
    requires theme in Themes
    ensures CycleTheme(CycleTheme(CycleTheme(theme))) == theme
  {
    CycleOrder();
  }

  /** A value outside the list cycles to "light". */
  lemma UnknownThemeGoesToLight(theme: string)
    requires theme !in Themes
    ensures CycleTheme(theme) == "light"
  {
  }
}
