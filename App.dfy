/**
 * The application shell: which view is shown (the dashboard or the editor),
 * the listed cards, the card being edited and the loading flag. Each API
 * call is one atomic step whose outcome (the list fetched, whether the save
 * succeeded, whether the user confirmed a deletion) is a parameter.
 */
module App {
  import opened Types

  datatype View = DashboardView | EditorView

  datatype AppState = AppState(view: View, cards: seq<SavedCard>, editing: Option<SavedCard>, loading: bool)

  /** What happens to the shell; outcomes of API calls and dialogs are part of the event. */
  datatype Event =
    | CardsLoaded(fetched: seq<SavedCard>)
    | CreateNew
    | EditCard(card: SavedCard)
    | Cancel
    | SaveCard(data: ProductData, succeeded: bool, fetched: seq<SavedCard>)
    | DeleteCard(id: CardId, confirmed: bool, fetched: seq<SavedCard>)

  const Initial: AppState := AppState(DashboardView, [], None, false)

  /**
   * One handler, run to completion. A save that fails leaves the view and
   * the list as they were; a successful save reloads the list and returns
   * to the dashboard, keeping the edited card. A deletion reloads the list
   * only when confirmed.
   */
  function Next(s: AppState, e: Event): (t: AppState)
    ensures !s.loading ==> !t.loading
    ensures e.SaveCard? || e.CardsLoaded? || (e.DeleteCard? && e.confirmed) ==> !t.loading
  {
    match e
    case CardsLoaded(fetched) => s.(cards := fetched, loading := false)
    case CreateNew => s.(editing := None, view := EditorView)
    case EditCard(card) => s.(editing := Some(card), view := EditorView)
    case Cancel => s.(view := DashboardView, editing := None)
    case SaveCard(_, succeeded, fetched) =>
      if succeeded then s.(cards := fetched, view := DashboardView, loading := false)
      else s.(loading := false)
    case DeleteCard(_, confirmed, fetched) =>
      if confirmed then s.(cards := fetched, loading := false) else s
  }

  /** `editingCard?.data`: the record the editor opens on; nothing for a new card. */
  function EditorInput(s: AppState): (d: Option<ProductData>)
    ensures s.editing.None? ==> d.None?
  {
    if s.editing.Some? then s.editing.value.data else None
  }

  /** `editingCard?.id`: the id the save is made under; nothing for a new card. */
  function SaveTarget(s: AppState): (id: Option<CardId>)
    ensures id.Some? <==> s.editing.Some?
  {
    if s.editing.Some? then Some(s.editing.value.id) else None
  }

  /** The list changes only when it is reloaded: after a load, a successful save or a confirmed deletion. */
  lemma {:induction false} ListChangesOnReload(s: AppState, e: Event)
    ensures Next(s, e).cards == (if e.CardsLoaded? || (e.SaveCard? && e.succeeded) || (e.DeleteCard? && e.confirmed)
                                 then e.fetched else s.cards)
  {
  }

  /** The shell only leaves the dashboard through create-new or edit, and only returns through cancel or a successful save. */
  lemma {:induction false} ViewChanges(s: AppState, e: Event)
    ensures Next(s, e).view == EditorView && s.view == DashboardView ==> e.CreateNew? || e.EditCard?
    ensures Next(s, e).view == DashboardView && s.view == EditorView ==> e.Cancel? || (e.SaveCard? && e.succeeded)
  {
  }

  /** Opening the editor for a card hands it that card's record and saves under its id. */
  lemma {:induction false} EditOpensCard(s: AppState, c: SavedCard)
    ensures Next(s, EditCard(c)).view == EditorView
    ensures EditorInput(Next(s, EditCard(c))) == c.data
    ensures SaveTarget(Next(s, EditCard(c))) == Some(c.id)
  {
  }

  /** Creating a new card opens an empty editor that saves without an id. */
  lemma {:induction false} CreateOpensEmpty(s: AppState)
    ensures Next(s, CreateNew).view == EditorView
    ensures EditorInput(Next(s, CreateNew)) == None && SaveTarget(Next(s, CreateNew)) == None
  {
  }

  /**
   * A card whose record did not decode opens the editor as if it were new,
   * yet saving it still goes to that card's id.
   */
  lemma {:induction false} UndecodedCardEditsInPlace(s: AppState, c: SavedCard)
    requires c.data.None?
    ensures EditorInput(Next(s, EditCard(c))) == None
    ensures SaveTarget(Next(s, EditCard(c))) == Some(c.id)
  {
  }

  /** Cancelling after opening the editor returns to the dashboard with the same list and no card in edit. */
  lemma {:induction false} CancelReturns(s: AppState, open: Event)
    requires open.CreateNew? || open.EditCard?
    ensures Next(Next(s, open), Cancel) == s.(view := DashboardView, editing := None)
  {
  }

  /**
   * A successful save reloads the list and returns to the dashboard with
   * loading off; the edited card is not cleared.
   */
  lemma {:induction false} SucceededSaveReturns(s: AppState, d: ProductData, fetched: seq<SavedCard>)
    ensures Next(s, SaveCard(d, true, fetched)) == s.(cards := fetched, view := DashboardView, loading := false)
    ensures SaveTarget(Next(s, SaveCard(d, true, fetched))) == SaveTarget(s)
  {
  }

  /** A failed save keeps the editor open on the same card. */
  lemma {:induction false} FailedSaveStays(s: AppState, d: ProductData, fetched: seq<SavedCard>)
    ensures Next(s, SaveCard(d, false, fetched)) == s.(loading := false)
    ensures SaveTarget(Next(s, SaveCard(d, false, fetched))) == SaveTarget(s)
  {
  }

  class Shell {
    var view: View
    var cards: seq<SavedCard>
    var editingCard: Option<SavedCard>
    var loading: bool

    function State(): AppState
      reads this
    {
      AppState(view, cards, editingCard, loading)
    }

    constructor ()
      ensures State() == Initial
    {
      view, cards, editingCard, loading := DashboardView, [], None, false;
    }

    /** `loadCards`, with the list `getCards` returned. */
    method LoadCards(fetched: seq<SavedCard>)
      modifies this
      ensures State() == Next(old(State()), CardsLoaded(fetched))
    {
      loading := true;
      cards := fetched;
      loading := false;
    }

    method HandleCreateNew()
      modifies this
      ensures State() == Next(old(State()), CreateNew)
    {
      editingCard := None;
      view := EditorView;
    }

    method HandleEdit(card: SavedCard)
      modifies this
      ensures State() == Next(old(State()), EditCard(card))
    {
      editingCard := Some(card);
      view := EditorView;
    }

    /** `handleDelete`: the API is called, and the list reloaded, only when the user confirms. */
    method HandleDelete(id: CardId, confirmed: bool, fetched: seq<SavedCard>) returns (called: bool)
      modifies this
      ensures called == confirmed
      ensures State() == Next(old(State()), DeleteCard(id, confirmed, fetched))
    {
      called := false;
      if confirmed {
        called := true;
        LoadCards(fetched);
      }
    }

    /** `handleSave`: the save goes out under the edited card's id, if any. */
    method HandleSave(data: ProductData, succeeded: bool, fetched: seq<SavedCard>) returns (target: Option<CardId>)
      modifies this
      ensures target == SaveTarget(old(State()))
      ensures State() == Next(old(State()), SaveCard(data, succeeded, fetched))
    {
      loading := true;
      target := if editingCard.Some? then Some(editingCard.value.id) else None;
      if succeeded {
        LoadCards(fetched);
        view := DashboardView;
      }
      loading := false;
    }

    method HandleCancel()
      modifies this
      ensures State() == Next(old(State()), Cancel)
    {
      view := DashboardView;
      editingCard := None;
    }
  }
}
