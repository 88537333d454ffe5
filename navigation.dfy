/** The navigation bar: the scroll-spy that marks the link of the visible section as
    active, and the scroll handler that makes the bar opaque past 50 px and hides it while
    the page is scrolled down past 200 px. */
module Navigation {

  /** A `.nav-link` element: its `href` attribute and whether it has the `active` class. */
  datatype Link = Link(href: string, active: bool)

  /** The `href` a link must carry to belong to the section `sectionId`. */
  function Anchor(sectionId: string): string {
    "#" + sectionId
  }

  /** The links after `setActiveLink(sectionId)`: every link loses `active` and the ones
      whose `href` is the section's anchor get it back. */
  function MarkActive(links: seq<Link>, sectionId: string): (r: seq<Link>)
    ensures |r| == |links|
    ensures forall i :: 0 <= i < |r| ==>
      r[i].href == links[i].href && (r[i].active <==> links[i].href == Anchor(sectionId))
  {
    if links == [] then []
    else [Link(links[0].href, links[0].href == Anchor(sectionId))]
         + MarkActive(links[1..], sectionId)
  }

  /** Marking the same section twice is the same as marking it once. */
  lemma MarkActiveIdempotent(links: seq<Link>, sectionId: string)
    ensures MarkActive(MarkActive(links, sectionId), sectionId) == MarkActive(links, sectionId)
  {
    var once := MarkActive(links, sectionId);
    var twice := MarkActive(once, sectionId);
    assert forall i :: 0 <= i < |twice| ==> twice[i] == once[i];
  }

  /** When the links carry distinct `href`s, at most one of them is active afterwards,
      and it is the one pointing at the section. */
  lemma {:induction false} AtMostOneActive(links: seq<Link>, sectionId: string, i: int, j: int)
    requires forall a, b :: 0 <= a < b < |links| ==> links[a].href != links[b].href
    requires 0 <= i < |links| && 0 <= j < |links|
    requires MarkActive(links, sectionId)[i].active && MarkActive(links, sectionId)[j].active
    ensures i == j && links[i].href == Anchor(sectionId)
  {
    var r := MarkActive(links, sectionId);
    assert links[i].href == Anchor(sectionId) == links[j].href;
  }

  class NavigationController {
    var links: seq<Link>
    /** The closure variable `lastScroll` of the scroll handler. */
    var lastScroll: real
    /** The opaque background and shadow style (scrolled past 50 px). */
    var solid: bool
    /** The bar is translated out of view (`translateY(-100%)`). */
    var hidden: bool

    /** `new NavigationController()` over the page's `.nav-link` elements, whose hrefs and
        `active` classes come from the markup as they are. */
    constructor (pageLinks: seq<Link>)
      ensures links == pageLinks
      ensures lastScroll == 0.0 && !solid && !hidden
    {
      links := pageLinks;
      lastScroll := 0.0;
      solid := false;
      hidden := false;
    }

    /** `setActiveLink`: one pass over the links, removing `active` and re-adding it
        where the `href` matches. */
    method SetActiveLink(sectionId: string)
      modifies this`links
      ensures links == MarkActive(old(links), sectionId)
    {
      var i := 0;
      ghost var original := links;
      while i < |links|
        invariant |links| == |original|
        invariant 0 <= i <= |links|
        invariant forall k :: 0 <= k < i ==>
          links[k] == Link(original[k].href, original[k].href == Anchor(sectionId))
        invariant forall k :: i <= k < |links| ==> links[k] == original[k]
      {
        links := links[i := Link(links[i].href, links[i].href == Anchor(sectionId))];
        i := i + 1;
      }
      assert links == MarkActive(original, sectionId);
    }

    /** The window scroll listener, called with `window.pageYOffset`. */
    method OnScroll(currentScroll: real)
      modifies this`solid, this`hidden, this`lastScroll
      ensures solid <==> currentScroll > 50.0
      ensures hidden <==> currentScroll > old(lastScroll) && currentScroll > 200.0
      ensures lastScroll == currentScroll
    {
      if currentScroll > 50.0 {
        solid := true;
      } else {
        solid := false;
      }
      if currentScroll > lastScroll && currentScroll > 200.0 {
        hidden := true;
      } else {
        hidden := false;
      }
      lastScroll := currentScroll;
    }
  }
}
