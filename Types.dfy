/**
 * The card record and its parts: the editor's `ProductData`, with separate
 * internal and display titles, the older record that the CSV importer
 * builds, which has no display title, links, variants and the saved-card
 * envelope that the local store and the WordPress endpoint both return.
 */
module Types {

  datatype Option<+T> = None | Some(value: T) {
    function GetOr(default: T): T {
      match this
      case Some(v) => v
      case None => default
    }
  }

  /** A JavaScript optional string used as a condition: present and non-empty. */
  predicate Truthy(o: Option<string>) {
    o.Some? && o.value != ""
  }

  /** JavaScript `o || fallback` on an optional string. */
  function OrElse(o: Option<string>, fallback: string): (r: string)
    ensures Truthy(o) ==> r == o.value
    ensures !Truthy(o) ==> r == fallback
  {
    if Truthy(o) then o.value else fallback
  }

  /** `a` is `b` with some elements left out, order kept. */
  predicate IsSubsequence<T(==)>(a: seq<T>, b: seq<T>)
    decreases |b|
  {
    if a == [] then true
    else if b == [] then false
    else (a[0] == b[0] && IsSubsequence(a[1..], b[1..])) || IsSubsequence(a, b[1..])
  }

  datatype Variant = Comic | Book | Product | Simple

  /** The string a variant is stored as. */
  function VariantName(v: Variant): string {
    match v
    case Comic => "comic"
    case Book => "book"
    case Product => "product"
    case Simple => "simple"
  }

  datatype LinkType = Primary | Secondary

  /** A call-to-action link (`label` and `type` in the source are `caption` and `kind`). */
  datatype Link = Link(url: string, caption: string, kind: LinkType)

  /** A card id: a WordPress post id (a number) or a local id. */
  datatype CardId = NumId(n: int) | StrId(s: string)

  /** JavaScript truthiness of an id: neither `0` nor `""`. */
  predicate IdTruthy(id: CardId) {
    match id
    case NumId(n) => n != 0
    case StrId(s) => s != ""
  }

  /** The editor's record: `title` is the internal name, `cardTitle` the title shown on the card. */
  datatype ProductData = ProductData(
    id: Option<CardId>,
    title: string,
    cardTitle: string,
    titleUrl: Option<string>,
    coverImage: string,
    imageClickUrl: Option<string>,
    description: string,
    subject: string,
    publisher: string,
    publisherUrl: Option<string>,
    tags: seq<string>,
    links: seq<Link>,
    author: Option<string>,
    whyRead: Option<string>,
    brand: Option<string>,
    educationalObjectives: Option<seq<string>>,
    cardVariant: Option<Variant>)

  /** The record the CSV importer builds: the older shape, with no id and no display title. */
  datatype CsvProduct = CsvProduct(
    title: string,
    titleUrl: Option<string>,
    coverImage: string,
    imageClickUrl: Option<string>,
    description: string,
    subject: string,
    publisher: string,
    publisherUrl: Option<string>,
    tags: seq<string>,
    links: seq<Link>,
    author: Option<string>,
    whyRead: Option<string>,
    brand: Option<string>,
    educationalObjectives: Option<seq<string>>,
    cardVariant: Option<Variant>)

  /** A stored card as listed; `data` is absent when the stored content does not decode. */
  datatype SavedCard = SavedCard(
    id: CardId,
    title: string,
    data: Option<ProductData>,
    shortcode: string,
    date: string)
}
