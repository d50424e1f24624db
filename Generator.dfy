/**
 * The static snapshot generator: a card record becomes the HTML and the CSS
 * that are pasted into a WordPress page. The HTML is modelled twice: as the
 * literal markup string, and as the ordered list of blocks it shows, so that
 * it can be compared with the interactive preview.
 */
module Generator {
  import opened Types
  import opened Strings
  import opened Blocks

  // ---------------------------------------------------------------------
  // Variant classification
  // ---------------------------------------------------------------------

  predicate IsBook(d: ProductData) { d.cardVariant == Some(Book) }
  predicate IsProduct(d: ProductData) { d.cardVariant == Some(Product) }
  predicate IsSimple(d: ProductData) { d.cardVariant == Some(Simple) }

  /** Comic is the fallback: whatever is not exactly book, product or simple. */
  predicate IsComic(d: ProductData) {
    (!IsBook(d) && !IsProduct(d) && !IsSimple(d)) || d.cardVariant == Some(Comic)
  }

  /** Exactly one of the four flags holds, and a missing variant counts as comic. */
  lemma {:induction false} ExactlyOneVariant(d: ProductData)
    ensures IsComic(d) <==> d.cardVariant == None || d.cardVariant == Some(Comic)
    ensures IsBook(d) || IsProduct(d) || IsSimple(d) || IsComic(d)
    ensures IsComic(d) ==> !IsBook(d) && !IsProduct(d) && !IsSimple(d)
    ensures IsBook(d) ==> !IsProduct(d) && !IsSimple(d)
    ensures IsProduct(d) ==> !IsSimple(d)
  {
    match d.cardVariant
    case None =>
    case Some(v) =>
      match v
      case Comic =>
      case Book =>
      case Product =>
      case Simple =>
  }

  /** The CSS class of the card's root element, which all the other classes extend. */
  function RootClass(d: ProductData): (c: string)
    ensures IsBook(d) ==> c == "wp-book-card"
    ensures IsProduct(d) ==> c == "wp-edu-card"
    ensures IsSimple(d) ==> c == "wp-simple-card"
    ensures IsComic(d) ==> c == "wp-comic-card"
  {
    if IsBook(d) then "wp-book-card"
    else if IsProduct(d) then "wp-edu-card"
    else if IsSimple(d) then "wp-simple-card"
    else "wp-comic-card"
  }

  /** The variant's name in the leading HTML comment. */
  function CommentLabel(d: ProductData): string {
    if IsBook(d) then "Libro"
    else if IsProduct(d) then "Prodotto Didattico"
    else if IsSimple(d) then "Prodotto Semplice"
    else "Fumetto"
  }

  // ---------------------------------------------------------------------
  // URL fallbacks and the link filter
  // ---------------------------------------------------------------------

  /** `links[0]?.url || '#'`: the first link's URL whatever its type, never empty. */
  function PrimaryUrl(links: seq<Link>): (u: string)
    ensures u != ""
    ensures links != [] && links[0].url != "" ==> u == links[0].url
    ensures links == [] || links[0].url == "" ==> u == "#"
  {
    if links != [] && links[0].url != "" then links[0].url else "#"
  }

  /** `titleUrl`, else the first link's URL. */
  function TitleHref(d: ProductData): (h: string)
    ensures h != ""
    ensures Truthy(d.titleUrl) ==> h == d.titleUrl.value
    ensures !Truthy(d.titleUrl) ==> h == PrimaryUrl(d.links)
  {
    OrElse(d.titleUrl, PrimaryUrl(d.links))
  }

  /** `imageClickUrl`, else the first link's URL. */
  function ImageHref(d: ProductData): (h: string)
    ensures h != ""
    ensures Truthy(d.imageClickUrl) ==> h == d.imageClickUrl.value
    ensures !Truthy(d.imageClickUrl) ==> h == PrimaryUrl(d.links)
  {
    OrElse(d.imageClickUrl, PrimaryUrl(d.links))
  }

  /** Book, product and simple cards render only their primary links; a comic renders them all. */
  function LinksToRender(d: ProductData): seq<Link> {
    if IsBook(d) || IsProduct(d) || IsSimple(d) then PrimaryOnly(d.links) else d.links
  }

  /** The rendered links are the record's links, order kept, less the secondary ones unless comic. */
  lemma {:induction false} RenderedLinks(d: ProductData)
    ensures forall l :: l in LinksToRender(d) <==> l in d.links && (IsComic(d) || l.kind == Primary)
    ensures IsSubsequence(LinksToRender(d), d.links)
  {
    if IsBook(d) || IsProduct(d) || IsSimple(d) {
      PrimaryOnlyIsFilter(d.links);
    } else {
      SubsequenceRefl(d.links);
    }
  }

  lemma {:induction false} SubsequenceRefl<T>(s: seq<T>)
    ensures IsSubsequence(s, s)
    decreases |s|
  {
    if s != [] {
      SubsequenceRefl(s[1..]);
    }
  }

  /** The publisher's link target: `publisherUrl` when it is non-empty. */
  function PublisherLink(d: ProductData): (l: Option<string>)
    ensures l.Some? <==> Truthy(d.publisherUrl)
    ensures l.Some? ==> l.value == d.publisherUrl.value
  {
    if Truthy(d.publisherUrl) then Some(d.publisherUrl.value) else None
  }

  // ---------------------------------------------------------------------
  // The snapshot as blocks
  // ---------------------------------------------------------------------

  /** Which blocks the snapshot shows, in the order the markup has them. */
  function SnapshotBlocks(d: ProductData): seq<Block> {
    [Image(ImageHref(d), d.coverImage, d.cardTitle)]
    + Opt(IsComic(d), Badge(d.subject))
    + [Title(TitleHref(d), d.cardTitle)]
    + Opt(IsBook(d) && Truthy(d.author), Author(d.author.GetOr("")))
    + Opt((IsProduct(d) || IsSimple(d)) && Truthy(d.brand), Brand(d.brand.GetOr("")))
    + Opt(!IsProduct(d) && !IsSimple(d), Publisher(d.publisher, PublisherLink(d)))
    + [Description(d.description)]
    + Opt(IsBook(d) && Truthy(d.whyRead), WhyRead(d.whyRead.GetOr("")))
    + Opt(IsComic(d) && |d.tags| > 0, Tags(d.tags))
    + Opt(IsProduct(d) && d.educationalObjectives.Some? && |d.educationalObjectives.value| > 0,
          Objectives(d.educationalObjectives.GetOr([])))
    + [Actions(ToButtons(LinksToRender(d)))]
  }

  /** The badge is shown for every comic, whether or not it has a subject. */
  lemma {:induction false} SnapshotBadge(d: ProductData)
    ensures forall s :: Badge(s) in SnapshotBlocks(d) <==> IsComic(d) && s == d.subject
  {
  }

  /** The author is shown only for a book with a non-empty author. */
  lemma {:induction false} SnapshotAuthor(d: ProductData)
    ensures forall a :: Author(a) in SnapshotBlocks(d) <==> IsBook(d) && Truthy(d.author) && a == d.author.value
  {
  }

  /** The brand is shown only for a product or simple card with a non-empty brand. */
  lemma {:induction false} SnapshotBrand(d: ProductData)
    ensures forall b :: Brand(b) in SnapshotBlocks(d) <==>
      (IsProduct(d) || IsSimple(d)) && Truthy(d.brand) && b == d.brand.value
  {
  }

  /** "Why read" is shown only for a book with a non-empty text. */
  lemma {:induction false} SnapshotWhyRead(d: ProductData)
    ensures forall w :: WhyRead(w) in SnapshotBlocks(d) <==> IsBook(d) && Truthy(d.whyRead) && w == d.whyRead.value
  {
  }

  /** The publisher block is shown for everything but product and simple, linked when it has a URL. */
  lemma {:induction false} SnapshotPublisher(d: ProductData)
    ensures forall n, l :: Publisher(n, l) in SnapshotBlocks(d) <==>
      !IsProduct(d) && !IsSimple(d) && n == d.publisher && l == PublisherLink(d)
  {
  }

  /** Tags are shown only for a comic with tags. */
  lemma {:induction false} SnapshotTags(d: ProductData)
    ensures forall t :: Tags(t) in SnapshotBlocks(d) <==> IsComic(d) && |d.tags| > 0 && t == d.tags
  {
    forall t | Tags(t) in SnapshotBlocks(d)
      ensures Tags(t) in Opt(IsComic(d) && |d.tags| > 0, Tags(d.tags))
    {
    }
  }

  /** Objectives are shown only for a product with a non-empty list of them. */
  lemma {:induction false} SnapshotObjectives(d: ProductData)
    ensures forall o :: Objectives(o) in SnapshotBlocks(d) <==>
      IsProduct(d) && d.educationalObjectives.Some? && |d.educationalObjectives.value| > 0
      && o == d.educationalObjectives.value
  {
  }

  /** The image is always there, linked to the image URL or the fallback. */
  lemma {:induction false} SnapshotImage(d: ProductData)
    ensures forall h, s, a :: Image(h, s, a) in SnapshotBlocks(d) <==>
      h == ImageHref(d) && s == d.coverImage && a == d.cardTitle
  {
  }

  /** The title is always there, linked to the title URL or the fallback. */
  lemma {:induction false} SnapshotTitle(d: ProductData)
    ensures forall h, t :: Title(h, t) in SnapshotBlocks(d) <==> h == TitleHref(d) && t == d.cardTitle
  {
  }

  /** The description is always there, as it is. */
  lemma {:induction false} SnapshotDescription(d: ProductData)
    ensures forall c :: Description(c) in SnapshotBlocks(d) <==> c == d.description
  {
  }

  /** The action row is always there, one button per rendered link. */
  lemma {:induction false} SnapshotActions(d: ProductData)
    ensures forall bs :: Actions(bs) in SnapshotBlocks(d) <==> bs == ToButtons(LinksToRender(d))
  {
  }

  // ---------------------------------------------------------------------
  // The snapshot as markup
  // ---------------------------------------------------------------------

  /** A link that opens in a new tab. */
  function Anchor(href: string, text: string): string {
    "<a href=\"" + href + "\" target=\"_blank\" rel=\"noopener\">" + text + "</a>"
  }

  /** The publisher: an anchor to `publisherUrl` when it is non-empty, the bare name otherwise. */
  function PublisherHtml(d: ProductData): string {
    if Truthy(d.publisherUrl) then Anchor(d.publisherUrl.value, d.publisher) else d.publisher
  }

  /** The publisher line: the label, then the publisher. */
  function PublisherLine(d: ProductData): string {
    "<strong>Editore:</strong> " + PublisherHtml(d)
  }

  /** `items.map(t => <span class="cls">t</span>).join('')`. */
  function Spans(items: seq<string>, cls: string): string {
    if items == [] then "" else SpanHtml(cls, items[0]) + Spans(items[1..], cls)
  }

  /** One item of a span list. */
  function SpanHtml(cls: string, item: string): string {
    "<span class=\"" + cls + "\">" + item + "</span>"
  }

  function BadgeHtml(d: ProductData): string {
    if IsComic(d) then "<span class=\"wp-comic-card__subject-badge\">" + d.subject + "</span>" else ""
  }

  function AuthorHtml(d: ProductData): string {
    if IsBook(d) && Truthy(d.author) then
      "<div class=\"wp-book-card__author\">" + d.author.value + "</div>"
    else ""
  }

  function BrandHtml(d: ProductData): string {
    if (IsProduct(d) || IsSimple(d)) && Truthy(d.brand) then
      "<div class=\"" + RootClass(d) + "__brand\">Produttore: " + d.brand.value + "</div>"
    else ""
  }

  function PublisherBlockHtml(d: ProductData): string {
    if !IsProduct(d) && !IsSimple(d) then
      "\n    <div class=\"" + RootClass(d) + "__publisher\">\n        " + PublisherLine(d) + "\n    </div>\n    "
    else ""
  }

  /** The description is inserted as it is, with no escaping. */
  function DescriptionHtml(d: ProductData): string {
    "<div class=\"" + RootClass(d) + "__description wp-description-content\">\n        "
    + d.description + "\n    </div>"
  }

  function WhyReadHtml(d: ProductData): string {
    if IsBook(d) && Truthy(d.whyRead) then
      "\n    <div class=\"wp-book-card__why-read\">\n      <span class=\"wp-book-card__why-read-title\">"
      + "Perch\U{221A}\U{00A9} leggere questo libro?</span>\n      <p>" + d.whyRead.value
      + "</p>\n    </div>\n    "
    else ""
  }

  function TagsHtml(d: ProductData): string {
    if IsComic(d) && |d.tags| > 0 then
      "\n    <div class=\"wp-comic-card__tags\">\n      <span class=\"wp-comic-card__tags-label\">Argomenti</span>"
      + "\n      <div class=\"wp-comic-card__tag-list\">\n        " + Spans(d.tags, "wp-comic-card__tag")
      + "\n      </div>\n    </div>\n  "
    else ""
  }

  function ObjectivesHtml(d: ProductData): string {
    if IsProduct(d) && d.educationalObjectives.Some? && |d.educationalObjectives.value| > 0 then
      "\n    <div class=\"wp-edu-card__objectives\">\n      <span class=\"wp-edu-card__objectives-label\">"
      + "Obiettivi Didattici</span>\n      <div class=\"wp-comic-card__tag-list\">\n        "
      + Spans(d.educationalObjectives.value, "wp-edu-card__objective-tag")
      + "\n      </div>\n    </div>\n  "
    else ""
  }

  /** One action button; its class says whether it is the primary one. */
  function ButtonHtml(b: Button): string {
    "\n      <a class=\"wp-card-btn " + (if b.primary then "wp-card-btn--primary" else "wp-card-btn--secondary")
    + "\" href=\"" + b.url + "\" target=\"_blank\" rel=\"noopener\">\n        " + b.caption
    + "\n      </a>\n      "
  }

  function ButtonsHtml(bs: seq<Button>): string {
    if bs == [] then "" else ButtonHtml(bs[0]) + ButtonsHtml(bs[1..])
  }

  /** The leading comment: variant label and internal title. */
  function CommentLine(d: ProductData): (c: string)
    ensures c != [] && c[0] == '<'
  {
    "<!-- WP Card: " + CommentLabel(d) + " - " + d.title + " -->"
  }

  /** The opening tag of the image's link, to the image href. */
  function ImageLinkOpen(d: ProductData): string {
    "<a href=\"" + ImageHref(d) + "\" class=\"" + RootClass(d) + "__image-link\" target=\"_blank\" rel=\"noopener\">"
  }

  /** The cover image, with the card title as its alternative text. */
  function ImageTag(d: ProductData): string {
    "<img src=\"" + d.coverImage + "\" alt=\"" + d.cardTitle + "\" class=\"" + RootClass(d) + "__image\" />"
  }

  function ImageColumn(d: ProductData): string {
    "  <!-- Immagine -->\n  <div class=\"" + RootClass(d) + "__image-col\">\n    " + ImageLinkOpen(d) + "\n      "
    + ImageTag(d) + "\n    </a>\n  </div>"
  }

  function ContentOpen(d: ProductData): string {
    "  <!-- Contenuto -->\n  <div class=\"" + RootClass(d) + "__content-col\">\n    "
  }

  function TitleHtml(d: ProductData): string {
    "\n    \n    <h3 class=\"" + RootClass(d) + "__title\">\n      " + Anchor(TitleHref(d), d.cardTitle)
    + "\n    </h3>\n\n    "
  }

  /** The content column up to the description. */
  function ContentHead(d: ProductData): string {
    ContentOpen(d) + BadgeHtml(d) + TitleHtml(d) + AuthorHtml(d) + "\n    " + BrandHtml(d) + "\n\n    "
    + PublisherBlockHtml(d) + "\n    \n    <!-- Description -->\n    "
  }

  /** The content column after the description. */
  function ContentTail(d: ProductData): string {
    "\n    \n    " + WhyReadHtml(d) + "\n\n    " + TagsHtml(d) + "\n    " + ObjectivesHtml(d)
    + "\n\n    <div class=\"wp-card-actions\">\n      " + ButtonsHtml(ToButtons(LinksToRender(d)))
    + "\n    </div>\n  </div>"
  }

  function ContentColumn(d: ProductData): string {
    ContentHead(d) + DescriptionHtml(d) + ContentTail(d)
  }

  /** The card's root element, up to its closing tag. */
  function CardInner(d: ProductData): string {
    "<div class=\"" + RootClass(d) + "\">\n" + ImageColumn(d) + "\n\n" + ContentColumn(d)
  }

  /** The markup between the template's outer line breaks. */
  function Body(d: ProductData): string {
    CommentLine(d) + "\n" + CardInner(d) + "\n</div>"
  }

  /** The template literal as written: it opens and closes with a line break. */
  function Template(d: ProductData): string {
    "\n" + Body(d) + "\n"
  }

  /** The stylesheet without its surrounding line breaks; only its header comment is reproduced. */
  const CssComment: string :=
    " \n * CSS per WP Product Card (v. 4.0 - Comic, Book, Edu, Simple)\n * Inserire in: Aspetto > Personalizza > CSS Aggiuntivo \n "

  const CssText: string := "/*" + CssComment + "*/"

  /** The stylesheet as the template literal writes it. */
  const Stylesheet: string := "\n" + CssText + "\n"

  datatype Snapshot = Snapshot(html: string, css: string)

  /** The markup as returned: the template, trimmed. */
  function Html(d: ProductData): string {
    Trim(Template(d))
  }

  /** The stylesheet as returned, trimmed; it does not depend on the record. */
  function Css(): string {
    Trim(Stylesheet)
  }

  /** `generateWordPressCode`: the trimmed markup and the trimmed stylesheet. */
  function GenerateWordPressCode(d: ProductData): Snapshot {
    Snapshot(Html(d), Css())
  }

  /** Trimming removes exactly the template's outer line breaks. */
  lemma {:induction false} HtmlIsBody(d: ProductData)
    ensures Html(d) == Body(d)
  {
    TrimFramed(CommentLine(d) + "\n", CardInner(d), "\n</div>");
  }

  /** The stylesheet is the same constant text for every record. */
  lemma {:induction false} CssIsConstant()
    ensures Css() == CssText
  {
    TrimFramed("/*", CssComment, "*/");
  }

  /** The markup starts with the card comment and ends with the root element's closing tag. */
  lemma {:induction false} BodyFrame(d: ProductData)
    ensures IsPrefix(CommentLine(d), Body(d))
    ensures EndsWith(Body(d), "\n</div>")
  {
    var c := CommentLine(d);
    AppendStarts(c, "\n");
    AppendStarts(c + "\n", CardInner(d));
    AppendStarts(c + "\n" + CardInner(d), "\n</div>");
    PrefixTrans(c, c + "\n", c + "\n" + CardInner(d));
    PrefixTrans(c, c + "\n" + CardInner(d), Body(d));
    AppendEnds(c + "\n" + CardInner(d), "\n</div>");
  }

  /** The description block appears in the markup, the description inserted verbatim. */
  lemma {:induction false} BodyHasDescription(d: ProductData)
    ensures Contains(Body(d), DescriptionHtml(d))
    ensures Contains(Body(d), d.description)
  {
    var outer := "<div class=\"" + RootClass(d) + "\">\n" + ImageColumn(d) + "\n\n";
    ContainsInfix(ContentHead(d), DescriptionHtml(d), ContentTail(d));
    ContainsEnd(outer, ContentColumn(d), DescriptionHtml(d));
    ContainsWithin(CommentLine(d) + "\n", CardInner(d), "\n</div>", DescriptionHtml(d));
    var dpre := "<div class=\"" + RootClass(d) + "__description wp-description-content\">\n        ";
    ContainsInfix(dpre, d.description, "\n    </div>");
    ContainsWithin(ContentHead(d), DescriptionHtml(d), ContentTail(d), d.description);
    ContainsEnd(outer, ContentColumn(d), d.description);
    ContainsWithin(CommentLine(d) + "\n", CardInner(d), "\n</div>", d.description);
  }

  /** Whatever the content column's head holds, the markup holds. */
  lemma {:induction false} HeadInBody(d: ProductData, sub: string)
    requires Contains(ContentHead(d), sub)
    ensures Contains(Body(d), sub)
  {
    var outer := "<div class=\"" + RootClass(d) + "\">\n" + ImageColumn(d) + "\n\n";
    ContainsStart(ContentHead(d), DescriptionHtml(d), sub);
    ContainsStart(ContentHead(d) + DescriptionHtml(d), ContentTail(d), sub);
    ContainsEnd(outer, ContentColumn(d), sub);
    ContainsWithin(CommentLine(d) + "\n", CardInner(d), "\n</div>", sub);
  }

  /** Whatever the content column's tail holds, the markup holds. */
  lemma {:induction false} TailInBody(d: ProductData, sub: string)
    requires Contains(ContentTail(d), sub)
    ensures Contains(Body(d), sub)
  {
    var outer := "<div class=\"" + RootClass(d) + "\">\n" + ImageColumn(d) + "\n\n";
    ContainsEnd(ContentHead(d) + DescriptionHtml(d), ContentTail(d), sub);
    ContainsEnd(outer, ContentColumn(d), sub);
    ContainsWithin(CommentLine(d) + "\n", CardInner(d), "\n</div>", sub);
  }

  /** The head's badge, title, author, brand and publisher blocks each stand in the head. */
  lemma {:induction false} HeadBlocks(d: ProductData)
    ensures Contains(ContentHead(d), BadgeHtml(d))
    ensures Contains(ContentHead(d), TitleHtml(d))
    ensures Contains(ContentHead(d), AuthorHtml(d))
    ensures Contains(ContentHead(d), BrandHtml(d))
    ensures Contains(ContentHead(d), PublisherBlockHtml(d))
  {
    var h1 := ContentOpen(d) + BadgeHtml(d);
    var h2 := h1 + TitleHtml(d);
    var h3 := h2 + AuthorHtml(d);
    var h4 := h3 + "\n    ";
    var h5 := h4 + BrandHtml(d);
    var h6 := h5 + "\n\n    ";
    var h7 := h6 + PublisherBlockHtml(d);
    var last := "\n    \n    <!-- Description -->\n    ";
    assert ContentHead(d) == h7 + last;
    ContainsLast(ContentOpen(d), BadgeHtml(d));
    ContainsStart(h1, TitleHtml(d), BadgeHtml(d));
    ContainsLast(h1, TitleHtml(d));
    ContainsStart(h2, AuthorHtml(d), BadgeHtml(d));
    ContainsStart(h2, AuthorHtml(d), TitleHtml(d));
    ContainsLast(h2, AuthorHtml(d));
    ContainsStart(h3, "\n    ", BadgeHtml(d));
    ContainsStart(h3, "\n    ", TitleHtml(d));
    ContainsStart(h3, "\n    ", AuthorHtml(d));
    ContainsStart(h4, BrandHtml(d), BadgeHtml(d));
    ContainsStart(h4, BrandHtml(d), TitleHtml(d));
    ContainsStart(h4, BrandHtml(d), AuthorHtml(d));
    ContainsLast(h4, BrandHtml(d));
    ContainsStart(h5, "\n\n    ", BadgeHtml(d));
    ContainsStart(h5, "\n\n    ", TitleHtml(d));
    ContainsStart(h5, "\n\n    ", AuthorHtml(d));
    ContainsStart(h5, "\n\n    ", BrandHtml(d));
    ContainsStart(h6, PublisherBlockHtml(d), BadgeHtml(d));
    ContainsStart(h6, PublisherBlockHtml(d), TitleHtml(d));
    ContainsStart(h6, PublisherBlockHtml(d), AuthorHtml(d));
    ContainsStart(h6, PublisherBlockHtml(d), BrandHtml(d));
    ContainsLast(h6, PublisherBlockHtml(d));
    ContainsStart(h7, last, BadgeHtml(d));
    ContainsStart(h7, last, TitleHtml(d));
    ContainsStart(h7, last, AuthorHtml(d));
    ContainsStart(h7, last, BrandHtml(d));
    ContainsStart(h7, last, PublisherBlockHtml(d));
  }

  /** A comic's markup carries its subject badge, even for an empty subject. */
  lemma {:induction false} BodyHasBadge(d: ProductData)
    requires IsComic(d)
    ensures Contains(Body(d), "<span class=\"wp-comic-card__subject-badge\">" + d.subject + "</span>")
  {
    HeadBlocks(d);
    HeadInBody(d, BadgeHtml(d));
  }

  /** A book's markup names its author when there is one. */
  lemma {:induction false} BodyHasAuthor(d: ProductData)
    requires IsBook(d) && Truthy(d.author)
    ensures Contains(Body(d), "<div class=\"wp-book-card__author\">" + d.author.value + "</div>")
  {
    HeadBlocks(d);
    HeadInBody(d, AuthorHtml(d));
  }

  /** An educational or simple product's markup names its brand when there is one. */
  lemma {:induction false} BodyHasBrand(d: ProductData)
    requires (IsProduct(d) || IsSimple(d)) && Truthy(d.brand)
    ensures Contains(Body(d), "<div class=\"" + RootClass(d) + "__brand\">Produttore: " + d.brand.value + "</div>")
  {
    HeadBlocks(d);
    HeadInBody(d, BrandHtml(d));
  }

  /** The tail's why-read, tags, objectives and action blocks each stand in the tail. */
  lemma {:induction false} TailBlocks(d: ProductData)
    ensures Contains(ContentTail(d), WhyReadHtml(d))
    ensures Contains(ContentTail(d), TagsHtml(d))
    ensures Contains(ContentTail(d), ObjectivesHtml(d))
    ensures Contains(ContentTail(d), ButtonsHtml(ToButtons(LinksToRender(d))))
  {
    var w, t, o, b := WhyReadHtml(d), TagsHtml(d), ObjectivesHtml(d), ButtonsHtml(ToButtons(LinksToRender(d)));
    var t1 := "\n    \n    " + w;
    var t2 := t1 + "\n\n    ";
    var t3 := t2 + t;
    var t4 := t3 + "\n    ";
    var t5 := t4 + o;
    var t6 := t5 + "\n\n    <div class=\"wp-card-actions\">\n      ";
    var t7 := t6 + b;
    var last := "\n    </div>\n  </div>";
    assert ContentTail(d) == t7 + last;
    ContainsLast("\n    \n    ", w);
    ContainsStart(t1, "\n\n    ", w);
    ContainsStart(t2, t, w);
    ContainsLast(t2, t);
    ContainsStart(t3, "\n    ", w);
    ContainsStart(t3, "\n    ", t);
    ContainsStart(t4, o, w);
    ContainsStart(t4, o, t);
    ContainsLast(t4, o);
    ContainsStart(t5, "\n\n    <div class=\"wp-card-actions\">\n      ", w);
    ContainsStart(t5, "\n\n    <div class=\"wp-card-actions\">\n      ", t);
    ContainsStart(t5, "\n\n    <div class=\"wp-card-actions\">\n      ", o);
    ContainsStart(t6, b, w);
    ContainsStart(t6, b, t);
    ContainsStart(t6, b, o);
    ContainsLast(t6, b);
    ContainsStart(t7, last, w);
    ContainsStart(t7, last, t);
    ContainsStart(t7, last, o);
    ContainsStart(t7, last, b);
  }

  /** A book's markup carries its why-read text when there is one. */
  lemma {:induction false} BodyHasWhyRead(d: ProductData)
    requires IsBook(d) && Truthy(d.whyRead)
    ensures Contains(Body(d), "<p>" + d.whyRead.value + "</p>")
  {
    var pre := "\n    <div class=\"wp-book-card__why-read\">\n      <span class=\"wp-book-card__why-read-title\">"
      + "Perch\U{221A}\U{00A9} leggere questo libro?</span>\n      ";
    var para := "<p>" + d.whyRead.value + "</p>";
    assert WhyReadHtml(d) == pre + para + "\n    </div>\n    ";
    ContainsInfix(pre, para, "\n    </div>\n    ");
    TailBlocks(d);
    ContainsTrans(ContentTail(d), WhyReadHtml(d), para);
    TailInBody(d, para);
  }

  /** Each item of a span list stands in the list's markup. */
  lemma {:induction false} SpanInSpans(items: seq<string>, cls: string, i: nat)
    requires i < |items|
    ensures Contains(Spans(items, cls), SpanHtml(cls, items[i]))
    decreases |items|
  {
    var first := SpanHtml(cls, items[0]);
    if i == 0 {
      AppendStarts(first, Spans(items[1..], cls));
    } else {
      SpanInSpans(items[1..], cls, i - 1);
      assert items[1..][i - 1] == items[i];
      ContainsEnd(first, Spans(items[1..], cls), SpanHtml(cls, items[i]));
    }
  }

  /** Each button stands in the action row's markup. */
  lemma {:induction false} ButtonInButtons(bs: seq<Button>, i: nat)
    requires i < |bs|
    ensures Contains(ButtonsHtml(bs), ButtonHtml(bs[i]))
    decreases |bs|
  {
    if i == 0 {
      AppendStarts(ButtonHtml(bs[0]), ButtonsHtml(bs[1..]));
    } else {
      ButtonInButtons(bs[1..], i - 1);
      assert bs[1..][i - 1] == bs[i];
      ContainsEnd(ButtonHtml(bs[0]), ButtonsHtml(bs[1..]), ButtonHtml(bs[i]));
    }
  }

  /** A comic's tag list holds each tag as a tag span. */
  lemma {:induction false} TagInTags(d: ProductData, i: nat)
    requires IsComic(d) && i < |d.tags|
    ensures Contains(TagsHtml(d), SpanHtml("wp-comic-card__tag", d.tags[i]))
  {
    var pre := "\n    <div class=\"wp-comic-card__tags\">\n      <span class=\"wp-comic-card__tags-label\">Argomenti</span>"
      + "\n      <div class=\"wp-comic-card__tag-list\">\n        ";
    SpanInSpans(d.tags, "wp-comic-card__tag", i);
    ContainsWithin(pre, Spans(d.tags, "wp-comic-card__tag"), "\n      </div>\n    </div>\n  ",
      SpanHtml("wp-comic-card__tag", d.tags[i]));
  }

  /** A comic's markup carries each of its tags as a tag span. */
  lemma {:induction false} BodyHasTag(d: ProductData, i: nat)
    requires IsComic(d) && i < |d.tags|
    ensures Contains(Body(d), SpanHtml("wp-comic-card__tag", d.tags[i]))
  {
    TagInTags(d, i);
    TailBlocks(d);
    ContainsTrans(ContentTail(d), TagsHtml(d), SpanHtml("wp-comic-card__tag", d.tags[i]));
    TailInBody(d, SpanHtml("wp-comic-card__tag", d.tags[i]));
  }

  /** An educational product's objective list holds each objective as an objective span. */
  lemma {:induction false} ObjectiveInObjectives(d: ProductData, i: nat)
    requires IsProduct(d) && d.educationalObjectives.Some? && i < |d.educationalObjectives.value|
    ensures Contains(ObjectivesHtml(d), SpanHtml("wp-edu-card__objective-tag", d.educationalObjectives.value[i]))
  {
    var os := d.educationalObjectives.value;
    var pre := "\n    <div class=\"wp-edu-card__objectives\">\n      <span class=\"wp-edu-card__objectives-label\">"
      + "Obiettivi Didattici</span>\n      <div class=\"wp-comic-card__tag-list\">\n        ";
    SpanInSpans(os, "wp-edu-card__objective-tag", i);
    ContainsWithin(pre, Spans(os, "wp-edu-card__objective-tag"), "\n      </div>\n    </div>\n  ",
      SpanHtml("wp-edu-card__objective-tag", os[i]));
  }

  /** An educational product's markup carries each learning objective as an objective span. */
  lemma {:induction false} BodyHasObjective(d: ProductData, i: nat)
    requires IsProduct(d) && d.educationalObjectives.Some? && i < |d.educationalObjectives.value|
    ensures Contains(Body(d), SpanHtml("wp-edu-card__objective-tag", d.educationalObjectives.value[i]))
  {
    var span := SpanHtml("wp-edu-card__objective-tag", d.educationalObjectives.value[i]);
    ObjectiveInObjectives(d, i);
    TailBlocks(d);
    ContainsTrans(ContentTail(d), ObjectivesHtml(d), span);
    TailInBody(d, span);
  }

  /** The markup carries one anchor per rendered link, with its URL and caption. */
  lemma {:induction false} BodyHasButton(d: ProductData, i: nat)
    requires i < |ToButtons(LinksToRender(d))|
    ensures Contains(Body(d), ButtonHtml(ToButtons(LinksToRender(d))[i]))
  {
    var bs := ToButtons(LinksToRender(d));
    ButtonInButtons(bs, i);
    TailBlocks(d);
    ContainsTrans(ContentTail(d), ButtonsHtml(bs), ButtonHtml(bs[i]));
    TailInBody(d, ButtonHtml(bs[i]));
  }

  /** The title is linked to the title href and shows the card title. */
  lemma {:induction false} BodyHasTitle(d: ProductData)
    ensures Contains(Body(d), Anchor(TitleHref(d), d.cardTitle))
  {
    var a := Anchor(TitleHref(d), d.cardTitle);
    ContainsInfix("\n    \n    <h3 class=\"" + RootClass(d) + "__title\">\n      ", a, "\n    </h3>\n\n    ");
    HeadBlocks(d);
    ContainsTrans(ContentHead(d), TitleHtml(d), a);
    HeadInBody(d, a);
  }

  /**
   * Comics and books name their publisher after the "Editore:" label, as a
   * link to `publisherUrl` when that is set and as bare text otherwise.
   */
  lemma {:induction false} BodyHasPublisher(d: ProductData)
    requires !IsProduct(d) && !IsSimple(d)
    ensures Truthy(d.publisherUrl) ==>
      Contains(Body(d), "<strong>Editore:</strong> " + Anchor(d.publisherUrl.value, d.publisher))
    ensures !Truthy(d.publisherUrl) ==> Contains(Body(d), "<strong>Editore:</strong> " + d.publisher)
  {
    var line := PublisherLine(d);
    ContainsInfix("\n    <div class=\"" + RootClass(d) + "__publisher\">\n        ", line, "\n    </div>\n    ");
    HeadBlocks(d);
    ContainsTrans(ContentHead(d), PublisherBlockHtml(d), line);
    HeadInBody(d, line);
  }

  /** The image links to the image href and shows the cover with the card title as alternative text. */
  lemma {:induction false} BodyHasImage(d: ProductData)
    ensures Contains(Body(d), ImageLinkOpen(d))
    ensures Contains(Body(d), ImageTag(d))
  {
    var i1 := "  <!-- Immagine -->\n  <div class=\"" + RootClass(d) + "__image-col\">\n    " + ImageLinkOpen(d);
    var i2 := i1 + "\n      ";
    ContainsLast("  <!-- Immagine -->\n  <div class=\"" + RootClass(d) + "__image-col\">\n    ", ImageLinkOpen(d));
    ContainsInfix(i2, ImageTag(d), "\n    </a>\n  </div>");
    ContainsStart(i1, "\n      ", ImageLinkOpen(d));
    ContainsWithin("", i2, ImageTag(d) + "\n    </a>\n  </div>", ImageLinkOpen(d));
    assert "" + i2 + (ImageTag(d) + "\n    </a>\n  </div>") == ImageColumn(d);
    ImageInBody(d, ImageLinkOpen(d));
    ImageInBody(d, ImageTag(d));
  }

  /** Whatever the image column holds, the markup holds. */
  lemma {:induction false} ImageInBody(d: ProductData, sub: string)
    requires Contains(ImageColumn(d), sub)
    ensures Contains(Body(d), sub)
  {
    var open := "<div class=\"" + RootClass(d) + "\">\n";
    ContainsEnd(open, ImageColumn(d), sub);
    ContainsStart(open + ImageColumn(d), "\n\n", sub);
    ContainsStart(open + ImageColumn(d) + "\n\n", ContentColumn(d), sub);
    ContainsWithin(CommentLine(d) + "\n", CardInner(d), "\n</div>", sub);
  }
}
