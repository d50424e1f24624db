/**
 * The editor's live preview of a card, as the list of blocks it shows. It
 * uses the same URL fallbacks and the same link filter as the snapshot
 * generator, but treats a card as a comic only when its variant says so,
 * shows the subject badge only when there is a subject, and lists the
 * objectives before the tags.
 */
module Preview {
  import opened Types
  import opened Blocks
  import opened Generator

  /** The preview's comic flag: set only by an explicit comic variant. */
  predicate PreviewComic(d: ProductData) {
    d.cardVariant == Some(Comic)
  }

  /** Without a variant the preview shows no comic-only block, and it is still not a book, product or simple card. */
  lemma {:induction false} PreviewFlags(d: ProductData)
    ensures PreviewComic(d) <==> IsComic(d) && d.cardVariant.Some?
    ensures d.cardVariant == None ==> !PreviewComic(d) && !IsBook(d) && !IsProduct(d) && !IsSimple(d)
  {
    ExactlyOneVariant(d);
  }

  /** The blocks of the preview, top to bottom. */
  function PreviewBlocks(d: ProductData): seq<Block> {
    [Image(ImageHref(d), d.coverImage, d.cardTitle)]
    + Opt(PreviewComic(d) && d.subject != "", Badge(d.subject))
    + [Title(TitleHref(d), d.cardTitle)]
    + Opt(IsBook(d) && Truthy(d.author), Author(d.author.GetOr("")))
    + Opt((IsProduct(d) || IsSimple(d)) && Truthy(d.brand), Brand(d.brand.GetOr("")))
    + Opt(!IsProduct(d) && !IsSimple(d), Publisher(d.publisher, PublisherLink(d)))
    + [Description(d.description)]
    + Opt(IsBook(d) && Truthy(d.whyRead), WhyRead(d.whyRead.GetOr("")))
    + Opt(IsProduct(d) && d.educationalObjectives.Some? && |d.educationalObjectives.value| > 0,
          Objectives(d.educationalObjectives.GetOr([])))
    + Opt(PreviewComic(d) && |d.tags| > 0, Tags(d.tags))
    + [Actions(ToButtons(LinksToRender(d)))]
  }

  /** The badge is shown only for an explicit comic with a non-empty subject. */
  lemma {:induction false} PreviewBadge(d: ProductData)
    ensures forall s :: Badge(s) in PreviewBlocks(d) <==> PreviewComic(d) && d.subject != "" && s == d.subject
  {
  }

  /** Tags are shown only for an explicit comic with tags. */
  lemma {:induction false} PreviewTags(d: ProductData)
    ensures forall t :: Tags(t) in PreviewBlocks(d) <==> PreviewComic(d) && |d.tags| > 0 && t == d.tags
  {
  }

  /** The publisher block is shown for everything but product and simple, linked when it has a URL. */
  lemma {:induction false} PreviewPublisher(d: ProductData)
    ensures forall n, l :: Publisher(n, l) in PreviewBlocks(d) <==>
      !IsProduct(d) && !IsSimple(d) && n == d.publisher && l == PublisherLink(d)
  {
  }

  /** Objectives are shown only for a product with a non-empty list of them. */
  lemma {:induction false} PreviewObjectives(d: ProductData)
    ensures forall o :: Objectives(o) in PreviewBlocks(d) <==>
      IsProduct(d) && d.educationalObjectives.Some? && |d.educationalObjectives.value| > 0
      && o == d.educationalObjectives.value
  {
  }

  /** The buttons are the rendered links, the primary one emphasised. */
  lemma {:induction false} PreviewActions(d: ProductData)
    ensures forall bs :: Actions(bs) in PreviewBlocks(d) <==> bs == ToButtons(LinksToRender(d))
  {
  }
}
