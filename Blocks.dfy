/**
 * What a rendered card shows, block by block, independent of markup: the
 * snapshot generator and the interactive preview are both described as a
 * list of these blocks, so that the two renderers can be compared.
 */
module Blocks {
  import opened Types

  /** An action button; `primary` selects the emphasised style (primary class) over the muted one. */
  datatype Button = Button(url: string, caption: string, primary: bool)

  datatype Block =
    | Image(href: string, src: string, alt: string)
    | Badge(subject: string)
    | Title(href: string, text: string)
    | Author(author: string)
    | Brand(brand: string)
      /** The publisher as an anchor to `link` when there is one, as plain text otherwise. */
    | Publisher(name: string, link: Option<string>)
    | Description(content: string)
    | WhyRead(text: string)
    | Objectives(items: seq<string>)
    | Tags(items: seq<string>)
    | Actions(buttons: seq<Button>)

  /** A block shown only under a condition: `cond && <block>` in a template. */
  function Opt(cond: bool, b: Block): seq<Block> {
    if cond then [b] else []
  }

  /** A link as a button: primary styling exactly for primary links. */
  function ToButton(l: Link): (b: Button)
    ensures b.url == l.url && b.caption == l.caption
    ensures b.primary <==> l.kind == Primary
  {
    Button(l.url, l.caption, l.kind == Primary)
  }

  function ToButtons(links: seq<Link>): (bs: seq<Button>)
    ensures |bs| == |links|
    ensures forall k :: 0 <= k < |links| ==> bs[k] == ToButton(links[k])
  {
    if links == [] then [] else [ToButton(links[0])] + ToButtons(links[1..])
  }

  /** `links.filter(l => l.type === 'primary')`. */
  function PrimaryOnly(links: seq<Link>): seq<Link> {
    if links == [] then []
    else (if links[0].kind == Primary then [links[0]] else []) + PrimaryOnly(links[1..])
  }

  /** The link filter keeps exactly the primary links, in their original order. */
  lemma {:induction false} PrimaryOnlyIsFilter(links: seq<Link>)
    ensures forall l :: l in PrimaryOnly(links) <==> l in links && l.kind == Primary
    ensures IsSubsequence(PrimaryOnly(links), links)
    ensures forall l :: multiset(PrimaryOnly(links))[l] == if l.kind == Primary then multiset(links)[l] else 0
  {
    PrimaryOnlyCounts(links);
    if links != [] {
      PrimaryOnlyIsFilter(links[1..]);
      var rest := PrimaryOnly(links[1..]);
      if links[0].kind == Primary {
        assert ([links[0]] + rest)[1..] == rest;
      } else {
        assert [] + rest == rest;
      }
    }
  }

  /** Each primary link is kept as many times as it occurs, and no other link. */
  lemma {:induction false} PrimaryOnlyCounts(links: seq<Link>)
    ensures forall l :: multiset(PrimaryOnly(links))[l] == if l.kind == Primary then multiset(links)[l] else 0
  {
    if links != [] {
      PrimaryOnlyCounts(links[1..]);
      assert links == [links[0]] + links[1..];
    }
  }

  /** A list whose every link is primary passes the filter unchanged. */
  lemma {:induction false} PrimaryOnlyOfPrimaries(links: seq<Link>)
    requires forall k :: 0 <= k < |links| ==> links[k].kind == Primary
    ensures PrimaryOnly(links) == links
  {
    if links != [] {
      PrimaryOnlyOfPrimaries(links[1..]);
    }
  }
}
