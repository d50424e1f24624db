/**
 * The dashboard's list of saved cards: the search filter and the label
 * shown for each card's variant.
 */
module Dashboard {
  import opened Types
  import opened Strings

  /**
   * Whether a card passes the search: a card whose record did not decode is
   * always listed (so that it can still be deleted); otherwise the term,
   * lowercased, must occur in the lowercased title or in the variant's name.
   */
  predicate Keeps(c: SavedCard, term: string) {
    c.data.None?
    || Contains(ToLower(c.title), ToLower(term))
    || (c.data.value.cardVariant.Some? && Contains(VariantName(c.data.value.cardVariant.value), ToLower(term)))
  }

  /** `cards.filter(...)`. */
  function FilterCards(cards: seq<SavedCard>, term: string): (r: seq<SavedCard>)
    ensures |r| <= |cards|
  {
    if cards == [] then []
    else (if Keeps(cards[0], term) then [cards[0]] else []) + FilterCards(cards[1..], term)
  }

  /** The filter keeps exactly the cards that pass the search, in their order. */
  lemma {:induction false} FilterCardsSpec(cards: seq<SavedCard>, term: string)
    ensures forall c :: c in FilterCards(cards, term) <==> c in cards && Keeps(c, term)
    ensures IsSubsequence(FilterCards(cards, term), cards)
    ensures forall c :: multiset(FilterCards(cards, term))[c] == if Keeps(c, term) then multiset(cards)[c] else 0
  {
    FilterCardsCounts(cards, term);
    if cards != [] {
      FilterCardsSpec(cards[1..], term);
      var rest := FilterCards(cards[1..], term);
      if Keeps(cards[0], term) {
        assert ([cards[0]] + rest)[1..] == rest;
      } else {
        assert [] + rest == rest;
      }
    }
  }

  /** Each card that passes is listed as many times as it occurs, and none that fails. */
  lemma {:induction false} FilterCardsCounts(cards: seq<SavedCard>, term: string)
    ensures forall c :: multiset(FilterCards(cards, term))[c] == if Keeps(c, term) then multiset(cards)[c] else 0
  {
    if cards != [] {
      FilterCardsCounts(cards[1..], term);
      assert cards == [cards[0]] + cards[1..];
    }
  }

  /** A card whose record did not decode is listed whatever the term. */
  lemma {:induction false} UndecodedAlwaysListed(cards: seq<SavedCard>, term: string, c: SavedCard)
    requires c in cards && c.data.None?
    ensures c in FilterCards(cards, term)
  {
    FilterCardsSpec(cards, term);
  }

  /** An empty search lists every card. */
  lemma {:induction false} EmptySearchKeepsAll(cards: seq<SavedCard>)
    ensures FilterCards(cards, "") == cards
  {
    if cards != [] {
      assert ToLower("") == "";
      ContainsEmpty(ToLower(cards[0].title));
      EmptySearchKeepsAll(cards[1..]);
    }
  }

  /** The search ignores the case of the term. */
  lemma {:induction false} SearchIgnoresCase(cards: seq<SavedCard>, term: string)
    ensures FilterCards(cards, ToLower(term)) == FilterCards(cards, term)
  {
    ToLowerIdempotent(term);
    if cards != [] {
      SearchIgnoresCase(cards[1..], term);
    }
  }

  /** Searching for a variant's name lists every card of that variant. */
  lemma {:induction false} SearchByVariant(cards: seq<SavedCard>, v: Variant, c: SavedCard)
    requires c in cards && c.data.Some? && c.data.value.cardVariant == Some(v)
    ensures c in FilterCards(cards, VariantName(v))
  {
    KeepsOwnVariant(c, v);
    FilterCardsSpec(cards, VariantName(v));
  }

  /** A card passes the search for its own variant's name. */
  lemma {:induction false} KeepsOwnVariant(c: SavedCard, v: Variant)
    requires c.data.Some? && c.data.value.cardVariant == Some(v)
    ensures Keeps(c, VariantName(v))
  {
    var n := VariantName(v);
    VariantNameLower(v);
    assert n[..|n|] == n;
  }

  /** The variant names are already lower case. */
  lemma {:induction false} VariantNameLower(v: Variant)
    ensures ToLower(VariantName(v)) == VariantName(v)
  {
    var n := VariantName(v);
    assert forall i :: 0 <= i < |n| ==> 'a' <= n[i] <= 'z';
  }

  /** The variant badge: a missing variant reads as "Semplice", like a simple card. */
  function VariantLabel(v: Option<Variant>): (name: string)
    ensures v == Some(Comic) <==> name == "Fumetto"
    ensures v == Some(Book) <==> name == "Libro"
    ensures v == Some(Product) <==> name == "Didattica"
    ensures v == None || v == Some(Simple) <==> name == "Semplice"
  {
    match v
    case Some(Comic) => "Fumetto"
    case Some(Book) => "Libro"
    case Some(Product) => "Didattica"
    case _ => "Semplice"
  }
}
