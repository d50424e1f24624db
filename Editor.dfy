/**
 * The card editor's state: the record being edited plus the helper fields
 * the form edits directly (variant, raw tag and objective text, the two
 * link URLs, the internal title). The two effects of the editor run after
 * every change of the helper fields they watch; here each setter runs them
 * before it returns, so that after every step the record agrees with the
 * helper fields (`Synced`).
 */
module Editor {
  import opened Types
  import opened Strings

  /** The empty record a new card starts from. */
  const EmptyData: ProductData := ProductData(
    None, "", "", Some(""), "", Some(""), "", "", "", Some(""),
    [], [], Some(""), Some(""), Some(""), Some([]), None)

  /** `links.find(l => l.type === kind)?.url || ""`. */
  function FirstUrl(links: seq<Link>, kind: LinkType): string {
    if links == [] then ""
    else if links[0].kind == kind then links[0].url
    else FirstUrl(links[1..], kind)
  }

  /** The URL of the first link of a kind is found whatever precedes it. */
  lemma {:induction false} FirstUrlIsFirst(links: seq<Link>, kind: LinkType, k: nat)
    requires k < |links| && links[k].kind == kind
    requires forall j :: 0 <= j < k ==> links[j].kind != kind
    ensures FirstUrl(links, kind) == links[k].url
  {
    if k > 0 {
      FirstUrlIsFirst(links[1..], kind, k - 1);
    }
  }

  /** Without a link of that kind the URL is empty. */
  lemma {:induction false} FirstUrlNone(links: seq<Link>, kind: LinkType)
    requires forall j :: 0 <= j < |links| ==> links[j].kind != kind
    ensures FirstUrl(links, kind) == ""
  {
    if links != [] {
      FirstUrlNone(links[1..], kind);
    }
  }

  /** The buy link, as a primary "Acquista" link. */
  function BuyButton(url: string): Link {
    Link(url, "Acquista", Primary)
  }

  /** The preview link, as a secondary "Sfoglia l'anteprima" link. */
  function PreviewButton(url: string): Link {
    Link(url, "Sfoglia l'anteprima", Secondary)
  }

  /**
   * The links the sync effect derives: the buy link when it is set, then the
   * preview link when the card is a comic and it is set.
   */
  function DerivedLinks(buyLink: string, previewLink: string, variant: Variant): (ls: seq<Link>)
    ensures |ls| <= 2
    ensures buyLink != "" <==> |ls| > 0 && ls[0] == BuyButton(buyLink)
    ensures variant == Comic && previewLink != "" <==> |ls| > 0 && ls[|ls| - 1] == PreviewButton(previewLink)
    ensures forall k :: 0 <= k < |ls| ==> ls[k].url != ""
  {
    (if buyLink != "" then [BuyButton(buyLink)] else [])
    + (if variant == Comic && previewLink != "" then [PreviewButton(previewLink)] else [])
  }

  /**
   * Only a comic gets the preview link, and the other variants all get the
   * same links: switching away from comic and back gives the link back.
   */
  lemma {:induction false} DerivedLinksByVariant(buyLink: string, previewLink: string, v: Variant)
    ensures v != Comic ==> DerivedLinks(buyLink, previewLink, v) == DerivedLinks(buyLink, previewLink, Book)
    ensures forall l :: l in DerivedLinks(buyLink, previewLink, Book) ==> l.kind == Primary
    ensures DerivedLinks(buyLink, previewLink, Comic)
      == DerivedLinks(buyLink, previewLink, Book) + (if previewLink != "" then [PreviewButton(previewLink)] else [])
  {
    if buyLink == "" {
      assert DerivedLinks(buyLink, previewLink, Book) == [];
    }
  }

  /** The fields `handleChange` is called with, each with its new value. */
  datatype Edit =
    | EditCardTitle(s: string)
    | EditSubject(s: string)
    | EditAuthor(s: string)
    | EditBrand(s: string)
    | EditPublisher(s: string)
    | EditPublisherUrl(s: string)
    | EditCoverImage(s: string)
    | EditImageClickUrl(s: string)
    | EditTitleUrl(s: string)
    | EditDescription(s: string)
    | EditWhyRead(s: string)

  /** `{ ...prev, [field]: value }`: the record with one field replaced. */
  function ApplyEdit(f: ProductData, e: Edit): (g: ProductData)
    ensures g.id == f.id && g.title == f.title && g.cardVariant == f.cardVariant
    ensures g.links == f.links && g.tags == f.tags && g.educationalObjectives == f.educationalObjectives
  {
    match e
    case EditCardTitle(s) => f.(cardTitle := s)
    case EditSubject(s) => f.(subject := s)
    case EditAuthor(s) => f.(author := Some(s))
    case EditBrand(s) => f.(brand := Some(s))
    case EditPublisher(s) => f.(publisher := s)
    case EditPublisherUrl(s) => f.(publisherUrl := Some(s))
    case EditCoverImage(s) => f.(coverImage := s)
    case EditImageClickUrl(s) => f.(imageClickUrl := Some(s))
    case EditTitleUrl(s) => f.(titleUrl := Some(s))
    case EditDescription(s) => f.(description := s)
    case EditWhyRead(s) => f.(whyRead := Some(s))
  }

  /** Which field an edit writes. */
  function EditedField(e: Edit): nat {
    match e
    case EditCardTitle(_) => 0
    case EditSubject(_) => 1
    case EditAuthor(_) => 2
    case EditBrand(_) => 3
    case EditPublisher(_) => 4
    case EditPublisherUrl(_) => 5
    case EditCoverImage(_) => 6
    case EditImageClickUrl(_) => 7
    case EditTitleUrl(_) => 8
    case EditDescription(_) => 9
    case EditWhyRead(_) => 10
  }

  /** Each edit changes its own field only: edits of different fields commute. */
  lemma {:induction false} EditsCommute(f: ProductData, e1: Edit, e2: Edit)
    requires EditedField(e1) != EditedField(e2)
    ensures ApplyEdit(ApplyEdit(f, e1), e2) == ApplyEdit(ApplyEdit(f, e2), e1)
  {
    match e1
    case EditCardTitle(_) =>
    case EditSubject(_) =>
    case EditAuthor(_) =>
    case EditBrand(_) =>
    case EditPublisher(_) =>
    case EditPublisherUrl(_) =>
    case EditCoverImage(_) =>
    case EditImageClickUrl(_) =>
    case EditTitleUrl(_) =>
    case EditDescription(_) =>
    case EditWhyRead(_) =>
  }

  /** A later edit of the same field wins. */
  lemma {:induction false} EditOverwrites(f: ProductData, e1: Edit, e2: Edit)
    requires EditedField(e1) == EditedField(e2)
    ensures ApplyEdit(ApplyEdit(f, e1), e2) == ApplyEdit(f, e2)
  {
    match e1
    case EditCardTitle(_) =>
    case EditSubject(_) =>
    case EditAuthor(_) =>
    case EditBrand(_) =>
    case EditPublisher(_) =>
    case EditPublisherUrl(_) =>
    case EditCoverImage(_) =>
    case EditImageClickUrl(_) =>
    case EditTitleUrl(_) =>
    case EditDescription(_) =>
    case EditWhyRead(_) =>
  }

  /** Why `handleSubmit` refuses to save. */
  datatype Refusal = MissingName | MissingCardTitle

  datatype Submission = Refused(why: Refusal) | Saved(data: ProductData)

  /** `handleSubmit`'s checks, the internal name first, then the display title. */
  function SubmitOutcome(internalTitle: string, form: ProductData): (r: Submission)
    ensures r == Refused(MissingName) <==> Trim(internalTitle) == ""
    ensures r == Refused(MissingCardTitle) <==> Trim(internalTitle) != "" && Trim(form.cardTitle) == ""
    ensures r.Saved? <==> Trim(internalTitle) != "" && Trim(form.cardTitle) != ""
    ensures r.Saved? ==> r.data == form
  {
    if Trim(internalTitle) == "" then Refused(MissingName)
    else if Trim(form.cardTitle) == "" then Refused(MissingCardTitle)
    else Saved(form)
  }

  /** A title of blanks only is refused like an empty one. */
  lemma {:induction false} BlankNameRefused(internalTitle: string, form: ProductData)
    requires forall j :: 0 <= j < |internalTitle| ==> IsSpace(internalTitle[j])
    ensures SubmitOutcome(internalTitle, form) == Refused(MissingName)
  {
    BlankTrimsToEmpty(internalTitle);
  }

  lemma {:induction false} BlankTrimsToEmpty(s: string)
    requires forall j :: 0 <= j < |s| ==> IsSpace(s[j])
    ensures Trim(s) == ""
    decreases |s|
  {
    if s != [] {
      BlankTrimsToEmpty(s[1..]);
      assert TrimStart(s) == TrimStart(s[1..]);
    }
  }

  /** The record the form starts from, before the effects run. */
  function StartForm(initial: Option<ProductData>): ProductData {
    if initial.Some? then initial.value else EmptyData.(cardVariant := Some(Comic))
  }

  /** `initialData?.cardVariant || 'comic'`. */
  function StartVariant(initial: Option<ProductData>): (v: Variant)
    ensures initial.Some? && initial.value.cardVariant.Some? ==> v == initial.value.cardVariant.value
    ensures initial.None? || initial.value.cardVariant.None? ==> v == Comic
  {
    if initial.Some? && initial.value.cardVariant.Some? then initial.value.cardVariant.value else Comic
  }

  class CardEditor {
    var formData: ProductData
    var variant: Variant
    var rawTags: string
    var rawObjectives: string
    var buyLink: string
    var previewLink: string
    var internalTitle: string

    /** The record agrees with the helper fields, as it does once the effects have run. */
    predicate Synced()
      reads this
    {
      formData.cardVariant == Some(variant)
      && formData.title == internalTitle
      && formData.links == DerivedLinks(buyLink, previewLink, variant)
      && formData.tags == CommaList(rawTags)
      && formData.educationalObjectives == Some(CommaList(rawObjectives))
    }

    /** The editor opened on a record, or on a new card, after its effects have run once. */
    constructor (initial: Option<ProductData>)
      ensures Synced()
      ensures variant == StartVariant(initial)
      ensures rawTags == (if initial.Some? then Join(initial.value.tags, ", ") else "")
      ensures rawObjectives ==
        (if initial.Some? && initial.value.educationalObjectives.Some?
         then Join(initial.value.educationalObjectives.value, ", ") else "")
      ensures buyLink == (if initial.Some? then FirstUrl(initial.value.links, Primary) else "")
      ensures previewLink == (if initial.Some? then FirstUrl(initial.value.links, Secondary) else "")
      ensures internalTitle == (if initial.Some? then initial.value.title else "")
      ensures formData == StartForm(initial).(
        cardVariant := Some(variant), title := internalTitle,
        links := DerivedLinks(buyLink, previewLink, variant),
        tags := CommaList(rawTags), educationalObjectives := Some(CommaList(rawObjectives)))
    {
      formData := StartForm(initial);
      variant := StartVariant(initial);
      if initial.Some? {
        var d := initial.value;
        rawTags := Join(d.tags, ", ");
        rawObjectives := if d.educationalObjectives.Some? then Join(d.educationalObjectives.value, ", ") else "";
        buyLink := FirstUrl(d.links, Primary);
        previewLink := FirstUrl(d.links, Secondary);
        internalTitle := d.title;
      } else {
        rawTags, rawObjectives, buyLink, previewLink, internalTitle := "", "", "", "", "";
      }
      new;
      ApplyVariant();
      Sync();
    }

    /** The variant effect: the record takes the selected variant. */
    method ApplyVariant()
      modifies this
      ensures formData == old(formData).(cardVariant := Some(variant))
      ensures variant == old(variant) && rawTags == old(rawTags) && rawObjectives == old(rawObjectives)
      ensures buyLink == old(buyLink) && previewLink == old(previewLink) && internalTitle == old(internalTitle)
    {
      formData := formData.(cardVariant := Some(variant));
    }

    /** The sync effect: rebuild the links, the tags, the objectives and the title from the helper fields. */
    method Sync()
      modifies this
      ensures formData == old(formData).(
        title := internalTitle, links := DerivedLinks(buyLink, previewLink, variant),
        tags := CommaList(rawTags), educationalObjectives := Some(CommaList(rawObjectives)))
      ensures variant == old(variant) && rawTags == old(rawTags) && rawObjectives == old(rawObjectives)
      ensures buyLink == old(buyLink) && previewLink == old(previewLink) && internalTitle == old(internalTitle)
    {
      var newLinks: seq<Link> := [];
      if buyLink != "" {
        newLinks := newLinks + [BuyButton(buyLink)];
      }
      if variant == Comic && previewLink != "" {
        newLinks := newLinks + [PreviewButton(previewLink)];
      }
      var newTags := CommaList(rawTags);
      var newObjectives := CommaList(rawObjectives);
      formData := formData.(title := internalTitle, links := newLinks, tags := newTags,
                            educationalObjectives := Some(newObjectives));
    }

    /** Selecting a variant: only the variant and the links it decides change. */
    method SetVariant(v: Variant)
      requires Synced()
      modifies this
      ensures Synced()
      ensures variant == v
      ensures formData == old(formData).(cardVariant := Some(v), links := DerivedLinks(buyLink, previewLink, v))
      ensures rawTags == old(rawTags) && rawObjectives == old(rawObjectives)
      ensures buyLink == old(buyLink) && previewLink == old(previewLink) && internalTitle == old(internalTitle)
    {
      variant := v;
      ApplyVariant();
      Sync();
    }

    /** Typing a card name: only the record's internal title follows. */
    method SetInternalTitle(t: string)
      requires Synced()
      modifies this
      ensures Synced()
      ensures internalTitle == t
      ensures formData == old(formData).(title := t)
      ensures variant == old(variant) && rawTags == old(rawTags) && rawObjectives == old(rawObjectives)
      ensures buyLink == old(buyLink) && previewLink == old(previewLink)
    {
      internalTitle := t;
      Sync();
    }

    /** Typing the tag list: the record's tags are derived from the text. */
    method SetRawTags(raw: string)
      requires Synced()
      modifies this
      ensures Synced()
      ensures rawTags == raw
      ensures formData == old(formData).(tags := CommaList(raw))
      ensures variant == old(variant) && rawObjectives == old(rawObjectives) && internalTitle == old(internalTitle)
      ensures buyLink == old(buyLink) && previewLink == old(previewLink)
    {
      rawTags := raw;
      Sync();
    }

    /** Typing the objectives: the record's objectives are derived from the text. */
    method SetRawObjectives(raw: string)
      requires Synced()
      modifies this
      ensures Synced()
      ensures rawObjectives == raw
      ensures formData == old(formData).(educationalObjectives := Some(CommaList(raw)))
      ensures variant == old(variant) && rawTags == old(rawTags) && internalTitle == old(internalTitle)
      ensures buyLink == old(buyLink) && previewLink == old(previewLink)
    {
      rawObjectives := raw;
      Sync();
    }

    /** Typing the buy URL: the links are derived again. */
    method SetBuyLink(url: string)
      requires Synced()
      modifies this
      ensures Synced()
      ensures buyLink == url
      ensures formData == old(formData).(links := DerivedLinks(url, previewLink, variant))
      ensures variant == old(variant) && rawTags == old(rawTags) && rawObjectives == old(rawObjectives)
      ensures previewLink == old(previewLink) && internalTitle == old(internalTitle)
    {
      buyLink := url;
      Sync();
    }

    /** Typing the preview URL: the links are derived again; the URL is kept even when it is not shown. */
    method SetPreviewLink(url: string)
      requires Synced()
      modifies this
      ensures Synced()
      ensures previewLink == url
      ensures formData == old(formData).(links := DerivedLinks(buyLink, url, variant))
      ensures variant == old(variant) && rawTags == old(rawTags) && rawObjectives == old(rawObjectives)
      ensures buyLink == old(buyLink) && internalTitle == old(internalTitle)
    {
      previewLink := url;
      Sync();
    }

    /** `handleChange`: one field of the record changes; the effects do not run. */
    method HandleChange(e: Edit)
      requires Synced()
      modifies this
      ensures Synced()
      ensures formData == ApplyEdit(old(formData), e)
      ensures variant == old(variant) && rawTags == old(rawTags) && rawObjectives == old(rawObjectives)
      ensures buyLink == old(buyLink) && previewLink == old(previewLink) && internalTitle == old(internalTitle)
    {
      formData := ApplyEdit(formData, e);
    }

    /** `handleSubmit`: what is handed to the save callback, if anything. */
    function Submit(): (r: Submission)
      reads this
      ensures r.Saved? ==> r.data == formData && Trim(formData.cardTitle) != ""
      ensures r.Saved? <==> Trim(internalTitle) != "" && Trim(formData.cardTitle) != ""
    {
      SubmitOutcome(internalTitle, formData)
    }
  }

  /**
   * Switching to another variant and back leaves the record as it was: the
   * preview URL is kept while it is hidden, so a comic gets its preview link
   * back, and the fields of the other variants are never cleared.
   */
  method SwitchVariantAndBack(e: CardEditor, v: Variant)
    requires e.Synced()
    modifies e
    ensures e.Synced()
    ensures e.formData == old(e.formData) && e.variant == old(e.variant)
  {
    var w := e.variant;
    e.SetVariant(v);
    e.SetVariant(w);
  }
}
