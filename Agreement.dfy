/**
 * How the pasted snapshot and the live preview of the same record relate:
 * they show the same blocks exactly when the record names a variant and,
 * if that variant is comic, has a subject. A record without a variant is a
 * comic for the snapshot and a card without comic blocks for the preview.
 */
module Agreement {
  import opened Types
  import opened Blocks
  import opened Generator
  import opened Preview

  /** Two optional blocks that are never both shown can be listed in either order. */
  lemma {:induction false} SwapExclusive(s: seq<Block>, a: bool, x: Block, b: bool, y: Block, r: seq<Block>)
    requires !(a && b)
    ensures s + Opt(a, x) + Opt(b, y) + r == s + Opt(b, y) + Opt(a, x) + r
  {
    if a {
      assert Opt(b, y) == [];
    } else {
      assert Opt(a, x) == [];
    }
  }

  /** The blocks agree exactly when a variant is set and a comic has a subject. */
  lemma {:induction false} SnapshotMatchesPreview(d: ProductData)
    ensures SnapshotBlocks(d) == PreviewBlocks(d) <==>
      d.cardVariant.Some? && (d.cardVariant.value == Comic ==> d.subject != "")
  {
    ExactlyOneVariant(d);
    SnapshotBadge(d);
    PreviewBadge(d);
    if d.cardVariant.Some? && (d.cardVariant.value == Comic ==> d.subject != "") {
      assert IsComic(d) == PreviewComic(d);
      assert IsComic(d) == (PreviewComic(d) && d.subject != "");
      var prefix := [Image(ImageHref(d), d.coverImage, d.cardTitle)]
        + Opt(IsComic(d), Badge(d.subject))
        + [Title(TitleHref(d), d.cardTitle)]
        + Opt(IsBook(d) && Truthy(d.author), Author(d.author.GetOr("")))
        + Opt((IsProduct(d) || IsSimple(d)) && Truthy(d.brand), Brand(d.brand.GetOr("")))
        + Opt(!IsProduct(d) && !IsSimple(d), Publisher(d.publisher, PublisherLink(d)))
        + [Description(d.description)]
        + Opt(IsBook(d) && Truthy(d.whyRead), WhyRead(d.whyRead.GetOr("")));
      SwapExclusive(prefix,
        IsComic(d) && |d.tags| > 0, Tags(d.tags),
        IsProduct(d) && d.educationalObjectives.Some? && |d.educationalObjectives.value| > 0,
        Objectives(d.educationalObjectives.GetOr([])),
        [Actions(ToButtons(LinksToRender(d)))]);
    } else {
      assert Badge(d.subject) in SnapshotBlocks(d);
      assert Badge(d.subject) !in PreviewBlocks(d);
    }
  }

  /** The snapshot treats a record without a variant exactly as an explicit comic. */
  lemma {:induction false} MissingVariantSnapshotsAsComic(d: ProductData)
    requires d.cardVariant == None
    ensures SnapshotBlocks(d) == SnapshotBlocks(d.(cardVariant := Some(Comic)))
    ensures RootClass(d) == RootClass(d.(cardVariant := Some(Comic)))
  {
    var c := d.(cardVariant := Some(Comic));
    ExactlyOneVariant(d);
    ExactlyOneVariant(c);
    assert IsComic(d) && IsComic(c);
    assert LinksToRender(d) == LinksToRender(c);
  }

  /** The preview treats a record without a variant as a comic with neither subject nor tags would be shown. */
  lemma {:induction false} MissingVariantPreview(d: ProductData)
    requires d.cardVariant == None
    ensures PreviewBlocks(d) == PreviewBlocks(d.(cardVariant := Some(Comic), subject := "", tags := []))
  {
    var c := d.(cardVariant := Some(Comic), subject := "", tags := []);
    PreviewFlags(d);
    ExactlyOneVariant(c);
    assert LinksToRender(d) == LinksToRender(c);
  }
}
