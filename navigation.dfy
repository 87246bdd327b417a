/**
 * What the four front ends share: the quick-navigation page links (one
 * entry per page, the current one highlighted) and the word each uses for a
 * page. The markup of the links is not modelled; an entry is its number and
 * whether it is the highlighted one.
 */
module Navigation {
  import opened Wrappers
  import opened Canvas

  /** What a navigation handler of a Gradio front end returns: the preview, the status message and the navigation text. */
  datatype Reply = Reply(image: Option<Image>, status: string, navInfo: string)

  /**
   * What a Gradio load handler returns: a `Reply` and the page-link panel,
   * shown (with its entries) or hidden.
   */
  datatype LoadReply = LoadReply(reply: Reply, linksVisible: bool, links: seq<PageLink>)

  datatype PageLink = PageLink(number: int, active: bool)

  /** The links for pages 1 to `total`, the one numbered `current` active. */
  function Links(total: nat, current: int): (links: seq<PageLink>)
    ensures |links| == total
  {
    if total == 0 then [] else Links(total - 1, current) + [PageLink(total, total == current)]
  }

  /** The number of highlighted entries. */
  function ActiveCount(links: seq<PageLink>): nat {
    if links == [] then 0 else (if links[|links| - 1].active then 1 else 0) + ActiveCount(links[..|links| - 1])
  }

  /** The loop that emits one entry per page, highlighting the current one. */
  method BuildLinks(total: nat, current: int) returns (links: seq<PageLink>)
    ensures links == Links(total, current)
  {
    links := [];
    for i := 1 to total + 1
      invariant links == Links(i - 1, current)
    {
      if i == current {
        links := links + [PageLink(i, true)];
      } else {
        links := links + [PageLink(i, false)];
      }
    }
  }

  /** Entry `i` is page `i + 1`, and it is the highlighted one exactly when that is the current page. */
  lemma {:induction false} LinksNumbered(total: nat, current: int)
    ensures forall i :: 0 <= i < total ==>
      Links(total, current)[i].number == i + 1 && (Links(total, current)[i].active <==> i + 1 == current)
  {
    if total > 0 {
      LinksNumbered(total - 1, current);
      var links := Links(total, current);
      assert links[..total - 1] == Links(total - 1, current);
      assert forall i :: 0 <= i < total - 1 ==> links[i] == Links(total - 1, current)[i];
    }
  }

  /** Exactly one entry is highlighted when the current page is one of the pages, and none otherwise. */
  lemma {:induction false} ExactlyOneActive(total: nat, current: int)
    ensures ActiveCount(Links(total, current)) == if 1 <= current <= total then 1 else 0
  {
    if total > 0 {
      ExactlyOneActive(total - 1, current);
      var links := Links(total, current);
      assert links[..|links| - 1] == Links(total - 1, current);
    }
  }

  /** The word a front end shows for one page of a document. */
  datatype PageKind = Page | Slide | Sheet

  function KindName(k: PageKind): string {
    match k
    case Page => "Page"
    case Slide => "Slide"
    case Sheet => "Sheet"
  }
}
