/**
 * The editor's card API. Outside WordPress it keeps the saved cards in the
 * browser's local storage, as one list; inside WordPress it calls the
 * plugin's endpoints. The clock (`Date.now()`, the ISO date) is a parameter.
 */
module Api {
  import opened Types
  import opened Generator
  import Plugin

  datatype Result<T> = Ok(value: T) | Failure(error: string)

  /** `cards.findIndex(c => c.id === id)`. */
  function FindIndex(cards: seq<SavedCard>, id: CardId): (k: int)
    ensures -1 <= k < |cards|
    ensures k >= 0 ==> cards[k].id == id && forall j :: 0 <= j < k ==> cards[j].id != id
    ensures k < 0 ==> forall j :: 0 <= j < |cards| ==> cards[j].id != id
  {
    if cards == [] then -1
    else if cards[0].id == id then 0
    else
      var k := FindIndex(cards[1..], id);
      if k < 0 then -1 else k + 1
  }

  /** An id given to `saveCard`: absent, or falsy (`0`, `""`), means "new card". */
  predicate NamesCard(existingId: Option<CardId>) {
    existingId.Some? && IdTruthy(existingId.value)
  }

  /** The card stored for a new record: its id is the clock value and its shortcode names it. */
  function NewCard(cardData: ProductData, newId: int, now: string): (c: SavedCard)
    ensures c.id == NumId(newId) && c.title == cardData.title
    ensures c.data == Some(cardData.(id := Some(NumId(newId))))
    ensures c.shortcode == Plugin.Shortcode(newId)
  {
    SavedCard(NumId(newId), cardData.title, Some(cardData.(id := Some(NumId(newId)))), Plugin.Shortcode(newId), now)
  }

  /** A stored card saved again: new title, record and date; id and shortcode are kept. */
  function UpdatedCard(old_: SavedCard, cardData: ProductData, id: CardId, now: string): (c: SavedCard)
    ensures c.id == old_.id && c.shortcode == old_.shortcode
    ensures c.title == cardData.title && c.data == Some(cardData.(id := Some(id))) && c.date == now
  {
    old_.(title := cardData.title, data := Some(cardData.(id := Some(id))), date := now)
  }

  /** The list after a local save, and the card returned, or the error thrown. */
  datatype LocalSave = LocalSave(cards: seq<SavedCard>, result: Result<SavedCard>)

  /** The local branch of `saveCard` as a function of the stored list. */
  function LocalSaveSpec(cards: seq<SavedCard>, cardData: ProductData, existingId: Option<CardId>,
                         newId: int, now: string): (o: LocalSave)
    ensures o.result.Failure? <==> NamesCard(existingId) && FindIndex(cards, existingId.value) < 0
    ensures o.result.Failure? ==> o == LocalSave(cards, Failure("Card not found"))
  {
    if NamesCard(existingId) then
      var k := FindIndex(cards, existingId.value);
      if k < 0 then LocalSave(cards, Failure("Card not found"))
      else
        var c := UpdatedCard(cards[k], cardData, existingId.value, now);
        LocalSave(cards[k := c], Ok(c))
    else
      var c := NewCard(cardData, newId, now);
      LocalSave(cards + [c], Ok(c))
  }

  /** Saving a known card replaces its entry and no other; the list keeps its length. */
  lemma {:induction false} LocalSaveUpdates(cards: seq<SavedCard>, cardData: ProductData, id: CardId,
                                            newId: int, now: string)
    requires IdTruthy(id) && FindIndex(cards, id) >= 0
    ensures var k := FindIndex(cards, id);
      var o := LocalSaveSpec(cards, cardData, Some(id), newId, now);
      |o.cards| == |cards|
      && o.cards[k].shortcode == cards[k].shortcode && o.cards[k].title == cardData.title
      && o.cards[k].data == Some(cardData.(id := Some(id)))
      && (forall j :: 0 <= j < |cards| && j != k ==> o.cards[j] == cards[j])
      && o.result == Ok(o.cards[k])
  {
  }

  /** Saving a new card appends exactly one entry, with the clock value as id. */
  lemma {:induction false} LocalSaveAppends(cards: seq<SavedCard>, cardData: ProductData, existingId: Option<CardId>,
                                            newId: int, now: string)
    requires !NamesCard(existingId)
    ensures var o := LocalSaveSpec(cards, cardData, existingId, newId, now);
      o.cards[..|cards|] == cards && |o.cards| == |cards| + 1
      && o.cards[|cards|] == NewCard(cardData, newId, now)
      && o.result == Ok(NewCard(cardData, newId, now))
  {
    var o := LocalSaveSpec(cards, cardData, existingId, newId, now);
    assert o.cards == cards + [NewCard(cardData, newId, now)];
  }

  /** `cards.filter(c => c.id !== id)`. */
  function WithoutId(cards: seq<SavedCard>, id: CardId): (r: seq<SavedCard>)
    ensures |r| <= |cards|
  {
    if cards == [] then []
    else (if cards[0].id != id then [cards[0]] else []) + WithoutId(cards[1..], id)
  }

  /** Deleting drops every card with the id and keeps the others, in order. */
  lemma {:induction false} WithoutIdSpec(cards: seq<SavedCard>, id: CardId)
    ensures forall c :: c in WithoutId(cards, id) <==> c in cards && c.id != id
    ensures IsSubsequence(WithoutId(cards, id), cards)
    ensures forall c :: multiset(WithoutId(cards, id))[c] == if c.id != id then multiset(cards)[c] else 0
  {
    WithoutIdCounts(cards, id);
    if cards != [] {
      WithoutIdSpec(cards[1..], id);
      var rest := WithoutId(cards[1..], id);
      if cards[0].id != id {
        assert ([cards[0]] + rest)[1..] == rest;
      } else {
        assert [] + rest == rest;
      }
    }
  }

  /** Each card without the id is kept as many times as it occurs, and none with it. */
  lemma {:induction false} WithoutIdCounts(cards: seq<SavedCard>, id: CardId)
    ensures forall c :: multiset(WithoutId(cards, id))[c] == if c.id != id then multiset(cards)[c] else 0
  {
    if cards != [] {
      WithoutIdCounts(cards[1..], id);
      assert cards == [cards[0]] + cards[1..];
    }
  }

  /** Deleting an id no card has leaves the list as it is. */
  lemma {:induction false} WithoutAbsentId(cards: seq<SavedCard>, id: CardId)
    requires forall j :: 0 <= j < |cards| ==> cards[j].id != id
    ensures WithoutId(cards, id) == cards
  {
    if cards != [] {
      WithoutAbsentId(cards[1..], id);
    }
  }

  /** A remote listing that failed reads as no cards. */
  function RemoteCards(response: Option<seq<SavedCard>>): (cards: seq<SavedCard>)
    ensures response.None? ==> cards == []
    ensures response.Some? ==> cards == response.value
  {
    response.GetOr([])
  }

  /** The body `saveCard` posts to WordPress: the record, its title and its generated markup. */
  datatype SaveRequest = SaveRequest(id: Option<CardId>, title: string, data: ProductData, htmlContent: string)

  function RemoteSaveRequest(cardData: ProductData, existingId: Option<CardId>): (r: SaveRequest)
    ensures r.htmlContent == Body(cardData)
  {
    HtmlIsBody(cardData);
    SaveRequest(existingId, cardData.title, cardData, Html(cardData))
  }

  /**
   * What `save_card` reads from that body: `intval` of the id, 0 when absent.
   * Only numeric ids reach WordPress; a local string id reads as 0 here.
   */
  function ToSaveParams(req: SaveRequest): (p: Plugin.SaveParams)
    ensures req.id.None? ==> p.id == 0
    ensures req.id.Some? && req.id.value.NumId? ==> p.id == req.id.value.n
    ensures req.id.Some? && req.id.value.StrId? ==> p.id == 0
    ensures p.title == req.title && p.data == Some(req.data) && p.html == req.htmlContent
  {
    var id := if req.id.Some? && req.id.value.NumId? then req.id.value.n else 0;
    Plugin.SaveParams(id, req.title, Some(req.data), req.htmlContent)
  }

  /**
   * A new card saved through WordPress reaches `save_card` as an insert of
   * its title, its record and its generated markup (which
   * `Plugin.NewCardShortcodeShowsSnapshot` follows to the shortcode).
   */
  lemma {:induction false} RemoteNewCardParams(d: ProductData)
    ensures ToSaveParams(RemoteSaveRequest(d, None)) == Plugin.SaveParams(0, d.title, Some(d), Html(d))
  {
  }

  /** The key's value in local storage: absent until the first write. */
  class LocalStore {
    var stored: Option<seq<SavedCard>>

    /** The stored list, read as `[]` while nothing is stored. */
    function Cards(): seq<SavedCard>
      reads this
    {
      stored.GetOr([])
    }

    constructor ()
      ensures stored == None
    {
      stored := None;
    }

    /** `getCards`. */
    method GetCards() returns (cards: seq<SavedCard>)
      ensures cards == Cards()
      ensures stored.None? ==> cards == []
    {
      cards := if stored.Some? then stored.value else [];
    }

    /**
     * The local branch of `saveCard`: an existing entry is replaced in place
     * or a new one is pushed, and the list is written back only when no error
     * was thrown. The markup it generates first is not used by this branch.
     */
    method SaveCard(cardData: ProductData, existingId: Option<CardId>, newId: int, now: string)
      returns (r: Result<SavedCard>)
      modifies this
      ensures r == LocalSaveSpec(old(Cards()), cardData, existingId, newId, now).result
      ensures r.Ok? ==> stored == Some(LocalSaveSpec(old(Cards()), cardData, existingId, newId, now).cards)
      ensures r.Failure? ==> stored == old(stored)
    {
      var cards := Cards();
      var newCard: SavedCard;
      if NamesCard(existingId) {
        var index := FindIndex(cards, existingId.value);
        if index > -1 {
          newCard := UpdatedCard(cards[index], cardData, existingId.value, now);
          cards := cards[index := newCard];
        } else {
          return Failure("Card not found");
        }
      } else {
        newCard := NewCard(cardData, newId, now);
        cards := cards + [newCard];
      }
      stored := Some(cards);
      r := Ok(newCard);
    }

    /** `deleteCard`: keep every card with another id. */
    method DeleteCard(id: CardId)
      modifies this
      ensures stored == Some(WithoutId(old(Cards()), id))
    {
      var cards := Cards();
      stored := Some(WithoutId(cards, id));
    }
  }
}
