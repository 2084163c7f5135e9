/**
 * The collapse button of the panel header (the toggle-btn click handler
 * in init): it rewrites the body's inline `display` and its own glyph.
 * The body starts with no inline display ("") and the glyph '−' (U+2212).
 */
module Collapse {

  const Expanded: string := "\U{2212}"
  const Collapsed: string := "+"

  datatype Panel = Panel(display: string, glyph: string)

  const Initial := Panel("", Expanded)

  /** Whether the body is shown: any inline display other than "none". */
  predicate Visible(p: Panel) {
    p.display != "none"
  }

  /** The glyph tells the truth about the body. */
  predicate Consistent(p: Panel) {
    p.glyph == (if Visible(p) then Expanded else Collapsed)
  }

  /** One click: a hidden body becomes "block" with '−'; anything else becomes "none" with '+'. */
  function Toggle(p: Panel): (r: Panel)
    ensures Visible(r) <==> !Visible(p)
    ensures Consistent(r)
    ensures r.display == "block" || r.display == "none"
  {
    if p.display == "none" then Panel("block", Expanded) else Panel("none", Collapsed)
  }

  /**
   * Two clicks restore visibility and, on a consistent panel, the glyph;
   * the inline style itself comes back only once it has been written
   * (the initial "" returns as "block").
   */
  lemma ToggleTwice(p: Panel)
    ensures Visible(Toggle(Toggle(p))) == Visible(p)
    ensures Consistent(p) ==> Toggle(Toggle(p)).glyph == p.glyph
    ensures Consistent(p) && (p.display == "block" || p.display == "none") ==> Toggle(Toggle(p)) == p
    ensures Toggle(Toggle(Initial)) == Panel("block", Expanded)
  {
  }

  class CollapseToggle {
    var display: string
    var glyph: string

    function State(): Panel
      reads this
    {
      Panel(display, glyph)
    }

    constructor ()
      ensures State() == Initial
    {
      display := "";
      glyph := Expanded;
    }

    method Click()
      modifies this
      ensures State() == Toggle(old(State()))
    {
      if display == "none" {
        display := "block";
        glyph := Expanded;
      } else {
        display := "none";
        glyph := Collapsed;
      }
    }
  }
}
