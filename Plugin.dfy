/**
 * The WordPress side: the REST endpoints that list, save and delete cards,
 * and the `[card-designer id="..."]` shortcode that prints a card's stored
 * markup. Posts of the card type are a list in listing order, which is
 * `get_posts`' default order, newest post first: a new post goes to the
 * front, and an update keeps a post's date and so its place. The stored
 * markup of each post (its `_bsmart_card_html` meta value) is a map from
 * post id to text.
 */
module Plugin {
  import opened Types
  import opened Strings
  import opened Generator

  // ---------------------------------------------------------------------
  // Shortcode
  // ---------------------------------------------------------------------

  /** The shortcode that shows the card with post id `id`. */
  function Shortcode(id: int): string {
    "[card-designer id=\"" + IntToString(id) + "\"]"
  }

  /** Different cards get different shortcodes. */
  lemma {:induction false} ShortcodeInjective(a: int, b: int)
    ensures Shortcode(a) == Shortcode(b) ==> a == b
  {
    var pre := "[card-designer id=\"";
    if Shortcode(a) == Shortcode(b) {
      var s := Shortcode(a);
      var n := |IntToString(a)|;
      assert |IntToString(b)| == n;
      assert s[|pre|..|pre| + n] == IntToString(a);
      assert Shortcode(b)[|pre|..|pre| + n] == IntToString(b);
      IntToStringInjective(a, b);
    }
  }

  /** PHP truthiness of a string: neither "" nor "0". */
  predicate PhpFalsy(s: string) {
    s == "" || s == "0"
  }

  /** `absint`: the post id `get_post_meta` reads for a shortcode attribute. */
  function AbsInt(i: int): nat {
    if i < 0 then -i else i
  }

  /** What the shortcode prints for a card that has no stored markup. */
  function MissingCardComment(id: int): string {
    "<!-- bSmart Card Error: Card ID " + IntToString(id) + " not found or empty -->"
  }

  /**
   * `render_shortcode`: nothing for a missing or zero id, the stored markup
   * unchanged when there is some, a diagnostic comment otherwise. The markup
   * is looked up under the absolute value of the id, and a missing meta value
   * reads as "". The comment names the id as it was written.
   */
  function RenderShortcode(id: int, meta: map<int, string>): (out: string)
    ensures id == 0 <==> out == ""
    ensures id != 0 && AbsInt(id) in meta && !PhpFalsy(meta[AbsInt(id)]) ==> out == meta[AbsInt(id)]
    ensures id != 0 && (AbsInt(id) !in meta || PhpFalsy(meta[AbsInt(id)])) ==> out == MissingCardComment(id)
  {
    if id == 0 then ""
    else
      var key := AbsInt(id);
      var html := if key in meta then meta[key] else "";
      if PhpFalsy(html) then MissingCardComment(id) else html
  }

  // ---------------------------------------------------------------------
  // The post store, as values
  // ---------------------------------------------------------------------

  /** A card post: `content` is absent when the stored JSON does not decode. */
  datatype Post = Post(id: int, title: string, content: Option<ProductData>, date: string)

  /** The card posts, their stored markup, and the id the next new post receives. */
  datatype Store = Store(posts: seq<Post>, meta: map<int, string>, nextId: int)

  /** Post ids are positive, distinct and below the next id. */
  predicate StoreValid(s: Store) {
    s.nextId > 0
    && (forall k :: 0 <= k < |s.posts| ==> 0 < s.posts[k].id < s.nextId)
    && (forall j, k :: 0 <= j < k < |s.posts| ==> s.posts[j].id != s.posts[k].id)
  }

  /** The position of the post with this id, or -1. */
  function IndexOf(posts: seq<Post>, id: int): (k: int)
    ensures -1 <= k < |posts|
    ensures k >= 0 ==> posts[k].id == id
    ensures k < 0 ==> forall j :: 0 <= j < |posts| ==> posts[j].id != id
  {
    if posts == [] then -1
    else if posts[0].id == id then 0
    else
      var k := IndexOf(posts[1..], id);
      if k < 0 then -1 else k + 1
  }

  /** The JSON body `save_card` reads; `id` is already the integer `intval` gives (0 when absent). */
  datatype SaveParams = SaveParams(id: int, title: string, data: Option<ProductData>, html: string)

  /** An endpoint's answer. */
  datatype Response =
    | Saved(postId: int, message: string)
    | Deleted(message: string)
    | WpError(code: string, message: string, status: int)

  datatype Outcome = Outcome(store: Store, response: Response)

  const SavedMessage: string := "Salvato con successo"

  /**
   * `save_card`: refuse an empty title; with a positive id update that post
   * (an unknown id updates nothing and answers with post id 0); otherwise
   * insert a new post, which is listed first. The markup is stored under the
   * resulting post id.
   */
  function SaveCardSpec(s: Store, p: SaveParams, now: string): (o: Outcome)
    ensures PhpFalsy(p.title) <==> o.response.WpError?
    ensures o.response.WpError? ==> o == Outcome(s, WpError("missing_title", "Titolo mancante", 400))
  {
    if PhpFalsy(p.title) then Outcome(s, WpError("missing_title", "Titolo mancante", 400))
    else if p.id > 0 then
      var k := IndexOf(s.posts, p.id);
      if k < 0 then Outcome(s, Saved(0, SavedMessage))
      else
        var post := s.posts[k].(title := p.title, content := p.data);
        Outcome(s.(posts := s.posts[k := post], meta := s.meta[p.id := p.html]), Saved(p.id, SavedMessage))
    else
      Outcome(Store([Post(s.nextId, p.title, p.data, now)] + s.posts, s.meta[s.nextId := p.html], s.nextId + 1),
              Saved(s.nextId, SavedMessage))
  }

  /** Saving keeps the post ids positive and distinct. */
  lemma {:induction false} SaveKeepsValid(s: Store, p: SaveParams, now: string)
    requires StoreValid(s)
    ensures StoreValid(SaveCardSpec(s, p, now).store)
  {
    var o := SaveCardSpec(s, p, now);
    if !PhpFalsy(p.title) && p.id > 0 && IndexOf(s.posts, p.id) >= 0 {
      var k := IndexOf(s.posts, p.id);
      assert forall j :: 0 <= j < |s.posts| ==> o.store.posts[j].id == s.posts[j].id;
    } else if !PhpFalsy(p.title) && p.id <= 0 {
      var ps := o.store.posts;
      assert forall j :: 0 <= j < |s.posts| ==> ps[j + 1] == s.posts[j];
      assert ps[0].id == s.nextId;
    }
  }

  /**
   * An update gives the post with that id the new title and record, keeping
   * its id and date, and stores the sent markup under its id; no other post
   * or markup changes.
   */
  lemma {:induction false} SaveUpdates(s: Store, p: SaveParams, now: string)
    requires !PhpFalsy(p.title) && p.id > 0 && IndexOf(s.posts, p.id) >= 0
    ensures var o := SaveCardSpec(s, p, now); var k := IndexOf(s.posts, p.id);
      |o.store.posts| == |s.posts| && o.store.nextId == s.nextId
      && o.store.posts[k] == Post(p.id, p.title, p.data, s.posts[k].date)
      && p.id in o.store.meta && o.store.meta[p.id] == p.html
      && (forall j :: 0 <= j < |s.posts| && s.posts[j].id != p.id ==> o.store.posts[j] == s.posts[j])
      && (forall i :: i in s.meta && i != p.id ==> i in o.store.meta && o.store.meta[i] == s.meta[i])
      && o.response == Saved(p.id, SavedMessage)
  {
  }

  /**
   * An insert puts one post with the next id in front of the others, stores
   * the sent markup under that id and advances the next id; no other markup
   * changes.
   */
  lemma {:induction false} SaveInserts(s: Store, p: SaveParams, now: string)
    requires !PhpFalsy(p.title) && p.id <= 0
    ensures var o := SaveCardSpec(s, p, now);
      o.store.posts[1..] == s.posts && |o.store.posts| == |s.posts| + 1
      && o.store.posts[0] == Post(s.nextId, p.title, p.data, now)
      && s.nextId in o.store.meta && o.store.meta[s.nextId] == p.html
      && (forall i :: i in s.meta && i != s.nextId ==> i in o.store.meta && o.store.meta[i] == s.meta[i])
      && o.store.nextId == s.nextId + 1
      && o.response == Saved(s.nextId, SavedMessage)
  {
    var o := SaveCardSpec(s, p, now);
    assert o.store.posts == [Post(s.nextId, p.title, p.data, now)] + s.posts;
  }

  /**
   * After a save that names a post the shortcode of that post prints exactly
   * the markup sent with it, provided the markup is not a PHP-falsy string.
   */
  lemma {:induction false} SavedMarkupRenders(s: Store, p: SaveParams, now: string)
    requires StoreValid(s) && !PhpFalsy(p.title) && !PhpFalsy(p.html)
    ensures var o := SaveCardSpec(s, p, now);
      o.response.Saved?
      && (o.response.postId == 0 <==> p.id > 0 && IndexOf(s.posts, p.id) < 0)
      && (o.response.postId != 0 ==> RenderShortcode(o.response.postId, o.store.meta) == p.html)
  {
  }

  /** `delete_card`: remove the post and its meta, or answer `cant_delete` when there is no such post. */
  function DeleteCardSpec(s: Store, id: int): (o: Outcome)
    ensures o.response.WpError? <==> IndexOf(s.posts, id) < 0
    ensures o.response.WpError? ==> o == Outcome(s, WpError("cant_delete", "Errore cancellazione", 500))
  {
    var k := IndexOf(s.posts, id);
    if k < 0 then Outcome(s, WpError("cant_delete", "Errore cancellazione", 500))
    else Outcome(s.(posts := s.posts[..k] + s.posts[k + 1..], meta := s.meta - {id}), Deleted("Cancellato"))
  }

  /**
   * A deleted card is no longer listed and its shortcode reports it missing;
   * the other posts keep their order, the other markup and the next id stay,
   * and the ids stay valid.
   */
  lemma {:induction false} DeleteRemoves(s: Store, id: int)
    requires StoreValid(s) && IndexOf(s.posts, id) >= 0
    ensures var o := DeleteCardSpec(s, id); var k := IndexOf(s.posts, id);
      StoreValid(o.store)
      && IndexOf(o.store.posts, id) < 0
      && |o.store.posts| == |s.posts| - 1
      && (forall j :: 0 <= j < k ==> o.store.posts[j] == s.posts[j])
      && (forall j :: k <= j < |o.store.posts| ==> o.store.posts[j] == s.posts[j + 1])
      && id !in o.store.meta
      && (forall i :: i in s.meta && i != id ==> i in o.store.meta && o.store.meta[i] == s.meta[i])
      && o.store.nextId == s.nextId
      && o.response == Deleted("Cancellato")
      && RenderShortcode(id, o.store.meta) == MissingCardComment(id)
  {
    var k := IndexOf(s.posts, id);
    RemoveAt(s.posts, k);
    var ps := s.posts[..k] + s.posts[k + 1..];
    assert DeleteCardSpec(s, id).store.posts == ps;
    assert forall j :: 0 <= j < |ps| ==> ps[j].id != id by {
      forall j | 0 <= j < |ps| ensures ps[j].id != id {
        if j < k {
          assert ps[j] == s.posts[j];
        } else {
          assert ps[j] == s.posts[j + 1];
        }
      }
    }
  }

  /** Removing the post at `k` leaves the others in order. */
  lemma {:induction false} RemoveAt(posts: seq<Post>, k: nat)
    requires k < |posts|
    ensures var ps := posts[..k] + posts[k + 1..];
      |ps| == |posts| - 1
      && (forall j :: 0 <= j < k ==> ps[j] == posts[j])
      && (forall j :: k <= j < |ps| ==> ps[j] == posts[j + 1])
  {
  }

  /** One entry of `get_cards`. */
  function ListEntry(p: Post): (c: SavedCard)
    ensures c.id == NumId(p.id) && c.data == p.content && c.shortcode == Shortcode(p.id)
  {
    SavedCard(NumId(p.id), p.title, p.content, Shortcode(p.id), p.date)
  }

  /** `get_cards` as a function of the posts. */
  function Listing(posts: seq<Post>): (cs: seq<SavedCard>)
    ensures |cs| == |posts|
  {
    if posts == [] then [] else Listing(posts[..|posts| - 1]) + [ListEntry(posts[|posts| - 1])]
  }

  /** Each listed card is the entry of the post at the same position. */
  lemma {:induction false} ListingAt(posts: seq<Post>, k: nat)
    requires k < |posts|
    ensures Listing(posts)[k] == ListEntry(posts[k])
    decreases |posts|
  {
    if k < |posts| - 1 {
      var init := posts[..|posts| - 1];
      ListingAt(init, k);
      assert init[k] == posts[k];
    }
  }

  /** In a valid store the listed shortcodes are pairwise different. */
  lemma {:induction false} ListedShortcodesDistinct(s: Store, j: nat, k: nat)
    requires StoreValid(s) && j < k < |s.posts|
    ensures Listing(s.posts)[j].shortcode != Listing(s.posts)[k].shortcode
  {
    ListingAt(s.posts, j);
    ListingAt(s.posts, k);
    ShortcodeInjective(s.posts[j].id, s.posts[k].id);
  }

  /**
   * The whole path for a card made in the editor: its generated markup,
   * saved as a new post, is what that post's shortcode prints.
   */
  lemma {:induction false} NewCardShortcodeShowsSnapshot(s: Store, d: ProductData, now: string)
    requires StoreValid(s) && !PhpFalsy(d.title)
    ensures var o := SaveCardSpec(s, SaveParams(0, d.title, Some(d), Html(d)), now);
      o.response == Saved(s.nextId, SavedMessage)
      && RenderShortcode(s.nextId, o.store.meta) == Body(d)
  {
    HtmlIsBody(d);
    BodyFrame(d);
    MarkupNotFalsy(CommentLine(d), Body(d));
    SavedMarkupRenders(s, SaveParams(0, d.title, Some(d), Html(d)), now);
  }

  /** Markup that opens with a tag is never PHP-falsy. */
  lemma {:induction false} MarkupNotFalsy(c: string, html: string)
    requires c != [] && c[0] == '<' && IsPrefix(c, html)
    ensures !PhpFalsy(html)
  {
    assert html[0] == c[0];
  }

  // ---------------------------------------------------------------------
  // The post store, in place
  // ---------------------------------------------------------------------

  class CardPostStore {
    var posts: seq<Post>
    var meta: map<int, string>
    var nextId: int

    function State(): Store
      reads this
    {
      Store(posts, meta, nextId)
    }

    predicate Valid()
      reads this
    {
      StoreValid(State())
    }

    constructor ()
      ensures Valid() && posts == [] && meta == map[] && nextId == 1
    {
      posts, meta, nextId := [], map[], 1;
    }

    /** The `save_card` endpoint. */
    method SaveCard(p: SaveParams, now: string) returns (r: Response)
      requires Valid()
      modifies this
      ensures Valid()
      ensures State() == SaveCardSpec(old(State()), p, now).store
      ensures r == SaveCardSpec(old(State()), p, now).response
    {
      SaveKeepsValid(State(), p, now);
      if PhpFalsy(p.title) {
        return WpError("missing_title", "Titolo mancante", 400);
      }
      var postId: int;
      if p.id > 0 {
        var k := IndexOf(posts, p.id);
        if k < 0 {
          postId := 0;
        } else {
          posts := posts[k := posts[k].(title := p.title, content := p.data)];
          postId := p.id;
        }
      } else {
        postId := nextId;
        posts := [Post(postId, p.title, p.data, now)] + posts;
        nextId := nextId + 1;
      }
      if postId != 0 {
        meta := meta[postId := p.html];
      }
      r := Saved(postId, SavedMessage);
    }

    /** The `delete_card` endpoint. */
    method DeleteCard(id: int) returns (r: Response)
      requires Valid()
      modifies this
      ensures Valid()
      ensures State() == DeleteCardSpec(old(State()), id).store
      ensures r == DeleteCardSpec(old(State()), id).response
    {
      var k := IndexOf(posts, id);
      if k < 0 {
        return WpError("cant_delete", "Errore cancellazione", 500);
      }
      DeleteRemoves(State(), id);
      posts := posts[..k] + posts[k + 1..];
      meta := meta - {id};
      r := Deleted("Cancellato");
    }

    /** The `get_cards` endpoint: one entry per post, in listing order. */
    method GetCards() returns (data: seq<SavedCard>)
      ensures data == Listing(posts)
    {
      data := [];
      var i := 0;
      while i < |posts|
        invariant 0 <= i <= |posts|
        invariant data == Listing(posts[..i])
      {
        assert posts[..i + 1][..i] == posts[..i];
        data := data + [ListEntry(posts[i])];
        i := i + 1;
      }
      assert posts[..i] == posts;
    }

    /** The shortcode handler, reading the stored markup. */
    function Render(id: int): (out: string)
      reads this
      ensures id != 0 ==> out != ""
    {
      RenderShortcode(id, meta)
    }
  }
}
