# bSmart Card Designer, modelled in Dafny

bSmart Card Designer is a WordPress plugin with a React editor for product
"cards" (comic, book, educational product, simple product). An author fills
in a card in the editor and sees a live preview. On save, the editor
generates a static HTML snapshot of the card. The plugin stores the card's
record as a post and keeps the snapshot in that post's meta data. The
shortcode `[card-designer id="N"]` prints the stored snapshot. Cards can also
be imported in bulk from a CSV file. Outside WordPress, the editor keeps its
cards in the browser's local storage.

The model covers the following parts, one module each:

- `Types`: the card record (`ProductData`), its links, its variant and the
  saved-card entry.
- `Strings`: the string operations the program relies on. These are
  JavaScript's `trim`, `split`, `join`, `toLowerCase` and `includes`, the
  line split and number printing.
- `CsvParser`: the CSV importer. The line splitter is the original loop.
  It is proved equal to a character-by-character recursion, and that
  recursion is proved to cut the line at exactly the delimiters outside
  quotes: each field is the text between two neighbouring cuts, with its
  quotes dropped.
  The row loop is proved equal to a filter-and-map over the lines.
- `Generator`: the snapshot generator. It covers the variant flags, the root
  class, the link fallbacks and which blocks appear. The markup is built
  literally and trimmed; only the stylesheet's header comment is kept.
- `Blocks`: the blocks and buttons a card is made of, shared by the snapshot
  and the preview.
- `Preview`: the blocks of the live preview (`ModernCard`).
- `Agreement`: the theorems that relate the preview to the snapshot.
- `Editor`: the editor's state (`CardEditor`) as a class.
  - Each setter also runs the effects that derive the record's links, tags,
    objectives and title.
  - The module also covers the default record, field edits and the submit
    checks.
- `Dashboard`: the search filter and the variant label.
- `Api`: the local-storage store as a class, and the request sent to
  WordPress.
- `App`: the shell's view state machine as a transition function, and as a
  class whose handlers follow that function.
- `Plugin`: the PHP plugin's `get_cards`, `save_card` and `delete_card`
  endpoints, specified on values and implemented by a class. It also covers
  the shortcode renderer.

Three things are parameters of the model rather than computed by it:

- the outcome of each asynchronous call (the fetched list, whether a save
  succeeded, whether a deletion was confirmed);
- the clock (`Date.now()`, and the dates);
- the ids WordPress assigns, which the model gives in order from `nextId`.

## Model

| member | source | states |
|---|---|---|
| Types.OrElse | src/utils/generateWordPressCode.ts:340-341 | JavaScript's `or` on an optional string: the value when it is a non-empty string, the fallback otherwise |
| Strings.TrimStart | src/utils/generateWordPressCode.ts:424 | the result is no longer than the input and does not start with whitespace |
| Strings.TrimStartSuffix | src/utils/generateWordPressCode.ts:424 | exactly the leading whitespace is dropped |
| Strings.TrimEnd | src/utils/generateWordPressCode.ts:424 | the result is no longer than the input and does not end with whitespace |
| Strings.TrimEndPrefix | src/utils/generateWordPressCode.ts:424 | exactly the trailing whitespace is dropped |
| Strings.TrimEnds | src/utils/generateWordPressCode.ts:424 | a trimmed string is empty or starts and ends with non-whitespace |
| Strings.TrimOfTrimmed | src/utils/generateWordPressCode.ts:424 | trimming leaves a string with non-whitespace ends unchanged |
| Strings.TrimIdempotent | utils/csvParser.ts:4 | trimming twice is trimming once |
| Strings.TrimPadded | src/utils/generateWordPressCode.ts:424 | trimming a text padded with whitespace gives back the text |
| Strings.StartOfPadded | src/utils/generateWordPressCode.ts:424 | trimming the start of padding plus text gives the text |
| Strings.EndOfPadded | src/utils/generateWordPressCode.ts:424 | trimming the end of text plus padding gives the text |
| Strings.ContainsEmpty | src/components/CardDashboard.tsx:19 | every string includes the empty string |
| Strings.ContainsInfix | src/components/CardDashboard.tsx:19 | a string includes any piece it is built around |
| Strings.AppendStarts | src/utils/generateWordPressCode.ts:370-371 | a string is a prefix of itself followed by anything |
| Strings.PrefixTrans | src/utils/generateWordPressCode.ts:370-371 | being a prefix is transitive |
| Strings.AppendEnds | src/utils/generateWordPressCode.ts:419-421 | a concatenation ends with its last part |
| Strings.TrimFramed | src/utils/generateWordPressCode.ts:15-19 | trimming a newline-framed text whose ends are not whitespace gives the text |
| Strings.ContainsEnd | src/utils/generateWordPressCode.ts:397-400 | inclusion survives a prefix being added |
| Strings.ContainsStart | src/utils/generateWordPressCode.ts:370-421 | inclusion survives text being appended |
| Strings.ContainsLast | src/utils/generateWordPressCode.ts:370-421 | a text includes its own last part |
| Strings.ContainsTrans | src/utils/generateWordPressCode.ts:370-421 | inclusion is transitive |
| Strings.ContainsWithin | src/utils/generateWordPressCode.ts:397-400 | inclusion survives text being added on both sides |
| Strings.SplitOn | utils/csvParser.ts:8 | `split` on a character class always yields at least one piece |
| Strings.AddChar | utils/csvParser.ts:8 | one character more either extends the last piece or starts a new piece |
| Strings.AddCharCons | utils/csvParser.ts:8 | extending the piece list commutes with putting a piece in front |
| Strings.AddCharPrefix | utils/csvParser.ts:8 | extending a piece list keeps every piece but the last, and extends or adds after it |
| Strings.SplitOnSnoc | utils/csvParser.ts:8 | splitting a string with one more character is one extension step of splitting the string |
| Strings.SplitOnPieces | utils/csvParser.ts:8 | there is one piece more than there are separators, and no piece holds a separator |
| Strings.SplitOnNone | utils/csvParser.ts:8 | a string without separators splits into itself |
| Strings.SplitOnFirst | utils/csvParser.ts:8 | a string splits at its first separator into that first piece and the split of the rest |
| Strings.NonEmptyTrimmed | utils/csvParser.ts:82-83 | `map(trim).filter(t => t)` keeps at most as many items as it is given |
| Strings.CommaListItemsClean | src/components/CardEditor.tsx:69-70 | every item of a comma list is trimmed, non-empty and comma-free |
| Strings.NonEmptyTrimmedClean | utils/csvParser.ts:82-83 | trimming and dropping empty comma-free pieces leaves clean items |
| Strings.TrimKeepsAbsent | utils/csvParser.ts:82-83 | trimming adds no character that is not there |
| Strings.CommaListJoin | src/components/CardEditor.tsx:43-44 | `join(", ")` then `split(",").map(trim).filter(nonempty)` gives back any list of clean items |
| Strings.JoinedPieces | src/components/CardEditor.tsx:43-44 | the same round trip with leading blanks before the joined text |
| Strings.JoinedNone | src/components/CardEditor.tsx:43-44 | the round trip of the empty list |
| Strings.JoinedSingle | src/components/CardEditor.tsx:43-44 | the round trip of a single item |
| Strings.JoinedPiecesStep | src/components/CardEditor.tsx:43-44 | the round trip of two items or more |
| Strings.LeadingBlanks | src/components/CardEditor.tsx:69-70 | blanks before a clean item trim away, and comma-free text stays comma-free |
| Strings.JoinStep | src/components/CardEditor.tsx:43 | regrouping a joined text at its first separator |
| Strings.NonEmptyTrimmedCons | src/components/CardEditor.tsx:69-70 | the filter of a list with one more piece in front |
| Strings.SplitLines | utils/csvParser.ts:4 | splitting on line breaks always yields at least one line |
| Strings.SplitLinesNoBreak | utils/csvParser.ts:4 | no line holds a newline |
| Strings.RemoveQuotes | utils/csvParser.ts:8 | `replace(/"/g, '')` leaves no quote and never lengthens the text |
| Strings.RemoveQuotesNone | utils/csvParser.ts:8 | a text without quotes is unchanged |
| Strings.RemoveQuotesAppend | utils/csvParser.ts:8 | removing quotes distributes over concatenation |
| Strings.RemoveQuotesKeepsLower | utils/csvParser.ts:8 | dropping quotes from a lower-case text leaves it lower case |
| Strings.NatToString | bsmart-card-designer.php:174 | a number prints as a non-empty string of decimal digits |
| Strings.NatToStringValue | bsmart-card-designer.php:174 | the printed digits read back as the number |
| Strings.LeadingChar | bsmart-card-designer.php:174 | a number prints with a leading minus exactly when it is negative |
| Strings.NatToStringInjective | bsmart-card-designer.php:174 | different numbers print differently |
| Strings.IntToStringInjective | bsmart-card-designer.php:174 | different integers print differently |
| Blocks.ToButton | src/utils/generateWordPressCode.ts:413-417 | a button keeps its link's url and caption, and is primary exactly when the link is |
| Blocks.ToButtons | src/utils/generateWordPressCode.ts:413-417 | one button per link, in order |
| Blocks.PrimaryOnlyIsFilter | src/utils/generateWordPressCode.ts:344-346 | `links.filter(l => l.type === 'primary')` keeps exactly the primary links, in order, each as often as it occurs |
| Blocks.PrimaryOnlyCounts | src/utils/generateWordPressCode.ts:345 | each primary link is kept as often as it occurs, every other link never |
| Blocks.PrimaryOnlyOfPrimaries | src/utils/generateWordPressCode.ts:344-346 | filtering a list of primary links changes nothing |
| CsvParser.OpenIsOddQuotes | utils/csvParser.ts:42-43 | the scanner is inside quotes exactly after an odd number of quote characters |
| CsvParser.Delims | utils/csvParser.ts:44 | the cut positions lie within the line and increase |
| CsvParser.DelimsAreUnquotedDelimiters | utils/csvParser.ts:44 | a position is a cut exactly when it holds a comma or semicolon outside quotes |
| CsvParser.Pieces | utils/csvParser.ts:36-52 | a line always yields at least one raw field |
| CsvParser.FinishAll | utils/csvParser.ts:45 | finishing the raw fields keeps their number |
| CsvParser.FinishAllAt | utils/csvParser.ts:45 | each finished field is the finished raw field at the same position |
| CsvParser.FinishAllSnoc | utils/csvParser.ts:45 | finishing one field more appends its finished form |
| CsvParser.Fields | utils/csvParser.ts:36-52 | a line has as many fields as raw fields |
| CsvParser.PiecesStep | utils/csvParser.ts:40-50 | one more character flips quote parity on a quote, cuts on an unquoted delimiter, and is otherwise appended to the current field |
| CsvParser.PiecesCount | utils/csvParser.ts:44-51 | there is one field more than there are unquoted delimiters |
| CsvParser.DelimsSnoc | utils/csvParser.ts:40-50 | one more character adds a cut exactly when it is a delimiter outside quotes |
| CsvParser.PieceAt | utils/csvParser.ts:40-51 | field k is the text from just after cut k-1 (or the start) to cut k (or the end), with its quotes dropped |
| CsvParser.LastPieceStep | utils/csvParser.ts:42-49 | after one more character the last field is still the text since the last cut, without quotes |
| CsvParser.LastPieceGrows | utils/csvParser.ts:42-49 | a quote leaves the last field as it is; any other character that does not cut is appended to it |
| CsvParser.PiecesAreSegments | utils/csvParser.ts:36-53 | every field is the quote-free text between the cuts around it, and there is one field per cut plus one |
| CsvParser.PiecesQuoteFree | utils/csvParser.ts:42-48 | no raw field holds a quote character, because quotes are never appended |
| CsvParser.OpenNone | utils/csvParser.ts:42-43 | a quote-free text never opens a quote |
| CsvParser.PiecesWithoutQuotes | utils/csvParser.ts:36-52 | a quote-free line splits exactly as a split on commas and semicolons would |
| CsvParser.CollapseDoubledNoQuotes | utils/csvParser.ts:45 | the quote replacements change nothing in a quote-free field |
| CsvParser.FinishQuoteFree | utils/csvParser.ts:45 | a quote-free field is finished by trimming it |
| CsvParser.FieldsShape | utils/csvParser.ts:36-52 | fields are the trimmed raw fields; they hold no quotes and are already trimmed |
| CsvParser.FieldsWithoutQuotes | utils/csvParser.ts:36-53 | a quote-free line gives the trimmed pieces of a plain delimiter split |
| CsvParser.StepQuote | utils/csvParser.ts:42-43 | the loop invariant survives a quote |
| CsvParser.StepCut | utils/csvParser.ts:44-46 | the loop invariant survives an unquoted delimiter |
| CsvParser.StepChar | utils/csvParser.ts:47-48 | the loop invariant survives an ordinary character |
| CsvParser.ScanDone | utils/csvParser.ts:51-52 | at the end of the line, the fields plus the finished last field are the line's fields |
| CsvParser.SplitLine | utils/csvParser.ts:36-53 | the character loop returns exactly the line's fields |
| CsvParser.HeaderCells | utils/csvParser.ts:8 | one header per delimiter-separated header cell; no header holds a quote, and every header is already lower case |
| CsvParser.GetIndex | utils/csvParser.ts:11 | the first header that includes any pattern, or -1 when none does |
| CsvParser.AcceptedRows | utils/csvParser.ts:55-62 | the kept rows are no more than the rows |
| CsvParser.FieldsOf | utils/csvParser.ts:59 | one field list per row |
| CsvParser.Records | utils/csvParser.ts:64-104 | one record per field list |
| CsvParser.RowRecords | utils/csvParser.ts:55-105 | no more records than rows |
| CsvParser.AcceptedRowsAppend | utils/csvParser.ts:57-62 | one row more adds itself exactly when it is not blank and has at least 3 fields |
| CsvParser.FieldsOfSnoc | utils/csvParser.ts:59 | one row more adds its fields |
| CsvParser.RecordsSnoc | utils/csvParser.ts:89-104 | one field list more adds its record |
| CsvParser.RowRecordsStep | utils/csvParser.ts:55-105 | one iteration adds the row's record exactly when the row is kept |
| CsvParser.ParseCSV | utils/csvParser.ts:3-108 | the import returns exactly the records of the kept rows after the header |
| CsvParser.ReadRows | utils/csvParser.ts:55-105 | the row loop returns the records of the kept rows |
| CsvParser.ParseNeedsTwoLines | utils/csvParser.ts:5 | content with fewer than two lines imports nothing |
| CsvParser.AcceptedRowsIsFilter | utils/csvParser.ts:57-62 | the kept rows are exactly the non-blank rows with at least 3 fields, in order |
| CsvParser.FieldsOfAt | utils/csvParser.ts:59 | the field list at a position splits the row at that position |
| CsvParser.RecordsAt | utils/csvParser.ts:89-104 | the record at a position is built from the fields at that position |
| CsvParser.RowRecordAt | utils/csvParser.ts:55-105 | the k-th record is built from the k-th kept row |
| CsvParser.ParseBound | utils/csvParser.ts:55-105 | no more records than lines after the header |
| CsvParser.ImportedLinksShape | utils/csvParser.ts:85-87 | an imported card has the buy button first when there is a buy url, a secondary link exactly when there is a preview url, and no empty url |
| CsvParser.BuildRecordShape | utils/csvParser.ts:64-104 | a missing title column gives "Titolo mancante"; every other missing column gives its empty fallback: "" for the image, description, subject and publisher, an empty optional text for the URLs, author, why-read and brand, no tags, an empty objective list, and no links when both link columns are missing; the record has no variant; its links come from the buy and preview cells; its tags and objectives are clean comma lists |
| CsvParser.EmptyCommaList | utils/csvParser.ts:82-83 | an empty cell splits into no items |
| Generator.ExactlyOneVariant | src/utils/generateWordPressCode.ts:5-8 | exactly one variant flag holds, and a missing variant counts as comic |
| Generator.RootClass | src/utils/generateWordPressCode.ts:10-13 | the root CSS class of each variant |
| Generator.PrimaryUrl | src/utils/generateWordPressCode.ts:339 | the first link's url if it is non-empty, `#` otherwise; never empty |
| Generator.TitleHref | src/utils/generateWordPressCode.ts:340 | the title url when set, else the primary url; never empty |
| Generator.ImageHref | src/utils/generateWordPressCode.ts:341 | the image click url when set, else the primary url; never empty |
| Generator.RenderedLinks | src/utils/generateWordPressCode.ts:344-346 | a comic renders all its links; other variants render exactly the primary ones, in order |
| Generator.SubsequenceRefl | src/utils/generateWordPressCode.ts:346 | a list is a subsequence of itself |
| Generator.PublisherLink | src/utils/generateWordPressCode.ts:335-337 | the publisher is a link exactly when its url is set, and it points there |
| Generator.SnapshotBadge | src/utils/generateWordPressCode.ts:382 | the subject badge appears exactly for comics, even when the subject is empty |
| Generator.SnapshotAuthor | src/utils/generateWordPressCode.ts:388 | the author appears exactly for books with an author |
| Generator.SnapshotBrand | src/utils/generateWordPressCode.ts:389 | the brand appears exactly for product and simple cards with a brand |
| Generator.SnapshotWhyRead | src/utils/generateWordPressCode.ts:402-407 | "why read" appears exactly for books that have it |
| Generator.SnapshotPublisher | src/utils/generateWordPressCode.ts:391-395 | the publisher appears exactly for comics and books, with its link when set |
| Generator.SnapshotTags | src/utils/generateWordPressCode.ts:349-356 | the tag list appears exactly for comics with tags |
| Generator.SnapshotObjectives | src/utils/generateWordPressCode.ts:358-365 | the objectives appear exactly for product cards with objectives |
| Generator.SnapshotImage | src/utils/generateWordPressCode.ts:374-378 | the image links to the image href and shows the cover with the card title as alt text |
| Generator.SnapshotTitle | src/utils/generateWordPressCode.ts:384-386 | the title shows the card title and links to the title href |
| Generator.SnapshotDescription | src/utils/generateWordPressCode.ts:397-400 | the description always appears, unchanged |
| Generator.SnapshotActions | src/utils/generateWordPressCode.ts:412-418 | the action buttons are exactly the rendered links |
| Generator.CommentLine | src/utils/generateWordPressCode.ts:371 | the snapshot's leading comment starts with `<` |
| Generator.HtmlIsBody | src/utils/generateWordPressCode.ts:370-424 | the trimmed template is the card markup from its comment to its closing `</div>` |
| Generator.CssIsConstant | src/utils/generateWordPressCode.ts:15-19 | the trimmed stylesheet is exactly its header comment, delimiters included |
| Generator.BodyFrame | src/utils/generateWordPressCode.ts:370-421 | the markup starts with the variant comment and ends with the closing `</div>` |
| Generator.BodyHasDescription | src/utils/generateWordPressCode.ts:397-400 | the markup includes the description verbatim |
| Generator.HeadBlocks | src/utils/generateWordPressCode.ts:380-396 | the badge, title, author, brand and publisher blocks stand in the content column before the description |
| Generator.BodyHasTitle | src/utils/generateWordPressCode.ts:384-386 | the markup holds the title as a link to the title href showing the card title |
| Generator.BodyHasPublisher | src/utils/generateWordPressCode.ts:335-337 | a comic or book names its publisher after "Editore:", as a link to `publisherUrl` when that is set and as bare text otherwise |
| Generator.ImageInBody | src/utils/generateWordPressCode.ts:372-378 | whatever the image column holds, the markup holds |
| Generator.BodyHasImage | src/utils/generateWordPressCode.ts:374-378 | the markup holds the link to the image href and the cover image with the card title as alternative text |
| Generator.TailBlocks | src/utils/generateWordPressCode.ts:401-419 | the why-read, tag, objective and action blocks stand in the content column after the description |
| Generator.BodyHasBadge | src/utils/generateWordPressCode.ts:382 | a comic's markup carries the subject badge with its subject, even an empty one |
| Generator.BodyHasAuthor | src/utils/generateWordPressCode.ts:388 | a book with an author names that author in its markup |
| Generator.BodyHasBrand | src/utils/generateWordPressCode.ts:389 | an educational or simple product with a brand names that brand after "Produttore: " |
| Generator.BodyHasWhyRead | src/utils/generateWordPressCode.ts:402-407 | a book with a why-read text carries it as a paragraph |
| Generator.SpanInSpans | src/utils/generateWordPressCode.ts:353 | each item of a mapped-and-joined span list appears as its own span |
| Generator.TagInTags | src/utils/generateWordPressCode.ts:349-356 | a comic's tag block holds a span for every tag |
| Generator.BodyHasTag | src/utils/generateWordPressCode.ts:349-356 | a comic's markup holds a tag span for every tag |
| Generator.ObjectiveInObjectives | src/utils/generateWordPressCode.ts:358-365 | an educational product's objective block holds a span for every objective |
| Generator.BodyHasObjective | src/utils/generateWordPressCode.ts:358-365 | an educational product's markup holds an objective span for every objective |
| Generator.ButtonInButtons | src/utils/generateWordPressCode.ts:413-417 | each button appears in the joined action row |
| Generator.BodyHasButton | src/utils/generateWordPressCode.ts:412-418 | the markup holds one anchor per rendered link, with its class, URL and caption |
| Preview.PreviewFlags | src/components/ModernCard.tsx:15-18 | the preview treats a card as comic only when its variant is `comic`; with no variant, no flag holds |
| Preview.PreviewBadge | src/components/ModernCard.tsx:50-56 | the preview shows the badge exactly for comics with a non-empty subject |
| Preview.PreviewTags | src/components/ModernCard.tsx:127-140 | the preview shows tags exactly for comics with tags |
| Preview.PreviewPublisher | src/components/ModernCard.tsx:80-91 | the preview shows the publisher for every card that is not a product or simple card |
| Preview.PreviewObjectives | src/components/ModernCard.tsx:111-124 | the preview shows objectives exactly for product cards with objectives |
| Preview.PreviewActions | src/components/ModernCard.tsx:20-23 | the preview's buttons are the same rendered links as the snapshot's |
| Agreement.SwapExclusive | src/components/ModernCard.tsx:110-140 | two blocks that never appear together may swap places |
| Agreement.SnapshotMatchesPreview | src/components/ModernCard.tsx:50-140 | the preview shows the same blocks as the snapshot exactly when the variant is set and a comic has a subject |
| Agreement.MissingVariantSnapshotsAsComic | src/utils/generateWordPressCode.ts:8 | a card with no variant snapshots exactly like a comic |
| Agreement.MissingVariantPreview | src/components/ModernCard.tsx:18 | a card with no variant previews like a comic with no subject and no tags |
| Editor.FirstUrlIsFirst | src/components/CardEditor.tsx:45-46 | `links.find(type)` gives the url of the first link of that type |
| Editor.FirstUrlNone | src/components/CardEditor.tsx:45-46 | with no link of that type, the field starts empty |
| Editor.DerivedLinks | src/components/CardEditor.tsx:62-67 | at most two links; the buy button comes first exactly when there is a buy url; the preview button comes last exactly for a comic with a preview url; no empty url |
| Editor.DerivedLinksByVariant | src/components/CardEditor.tsx:64-67 | only the comic variant changes the links, and the others carry primary links only |
| Editor.ApplyEdit | src/components/CardEditor.tsx:57-59 | a form edit never touches the fields the effects derive |
| Editor.EditsCommute | src/components/CardEditor.tsx:57-59 | edits of different fields commute |
| Editor.EditOverwrites | src/components/CardEditor.tsx:57-59 | a second edit of a field overwrites the first |
| Editor.SubmitOutcome | src/components/CardEditor.tsx:82-92 | refuse a blank name, then a blank card title; otherwise pass the form on unchanged |
| Editor.BlankNameRefused | src/components/CardEditor.tsx:83-86 | a name of only whitespace is refused |
| Editor.BlankTrimsToEmpty | src/components/CardEditor.tsx:83 | a text of only whitespace trims to empty |
| Editor.StartVariant | src/components/CardEditor.tsx:40 | the editor starts on the record's variant, or comic when there is none |
| Editor.CardEditor.constructor | src/components/CardEditor.tsx:34-54 | the initial state, after the effects have run once |
| Editor.CardEditor.ApplyVariant | src/components/CardEditor.tsx:52-54 | the variant effect copies the variant selection into the record |
| Editor.CardEditor.Sync | src/components/CardEditor.tsx:62-79 | the sync effect derives the title, links, tags and objectives |
| Editor.CardEditor.SetVariant | src/components/CardEditor.tsx:40-79 | choosing a variant sets the record's variant and re-derives its links; nothing else changes |
| Editor.CardEditor.SetInternalTitle | src/components/CardEditor.tsx:49-79 | the internal name becomes the record's title |
| Editor.CardEditor.SetRawTags | src/components/CardEditor.tsx:43-79 | the tag text becomes the record's clean tag list |
| Editor.CardEditor.SetRawObjectives | src/components/CardEditor.tsx:44-79 | the objectives text becomes the record's clean objective list |
| Editor.CardEditor.SetBuyLink | src/components/CardEditor.tsx:45-79 | the buy url re-derives the links |
| Editor.CardEditor.SetPreviewLink | src/components/CardEditor.tsx:46-79 | the preview url re-derives the links |
| Editor.CardEditor.HandleChange | src/components/CardEditor.tsx:57-59 | a field edit changes that field of the record only |
| Editor.CardEditor.Submit | src/components/CardEditor.tsx:82-92 | the record is saved only when both the name and the card title are non-blank |
| Editor.SwitchVariantAndBack | src/components/CardEditor.tsx:62-79 | switching the variant away and back restores the record, including a comic's preview link |
| Dashboard.FilterCards | src/components/CardDashboard.tsx:16-21 | the filter never adds cards |
| Dashboard.FilterCardsSpec | src/components/CardDashboard.tsx:16-21 | exactly the cards that pass the search are listed, in order, each as often as it occurs |
| Dashboard.FilterCardsCounts | src/components/CardDashboard.tsx:16-21 | a card that passes is listed as often as it occurs, one that fails never |
| Dashboard.UndecodedAlwaysListed | src/components/CardDashboard.tsx:18 | a card without a decoded record is always listed |
| Dashboard.EmptySearchKeepsAll | src/components/CardDashboard.tsx:16-21 | an empty search lists every card |
| Strings.ToLowerIdempotent | src/components/CardDashboard.tsx:19 | lowercasing twice is lowercasing once |
| Dashboard.SearchIgnoresCase | src/components/CardDashboard.tsx:19-20 | the search does not depend on the case of the term |
| Dashboard.SearchByVariant | src/components/CardDashboard.tsx:20 | searching for a variant's name lists every card of that variant |
| Dashboard.KeepsOwnVariant | src/components/CardDashboard.tsx:20 | a decoded card passes the search for its own variant's name |
| Dashboard.VariantNameLower | src/components/CardDashboard.tsx:20 | the variant names are lower case already |
| Dashboard.VariantLabel | src/components/CardDashboard.tsx:136-138 | the label of each variant; a missing variant reads as "Semplice" |
| Api.FindIndex | src/utils/api.ts:48 | the position of the first card with the id, or -1 when there is none |
| Api.NewCard | src/utils/api.ts:54-55 | a new card takes the clock value as its id, in the record too, and its shortcode names it |
| Api.UpdatedCard | src/utils/api.ts:50 | an updated card keeps its id and shortcode, and takes the new title, record and date |
| Api.LocalSaveSpec | src/utils/api.ts:42-59 | the save fails with "Card not found" exactly when an id is given that no card has, and then nothing changes |
| Api.LocalSaveUpdates | src/utils/api.ts:47-51 | a save under a known id replaces that one entry and keeps the others |
| Api.LocalSaveAppends | src/utils/api.ts:53-56 | a save without an id appends one new card |
| Api.WithoutId | src/utils/api.ts:87 | the filter never adds cards |
| Api.WithoutIdSpec | src/utils/api.ts:87 | deletion keeps exactly the cards with another id, in order, each as often as it occurs |
| Api.WithoutIdCounts | src/utils/api.ts:87 | a card with another id is kept as often as it occurs, one with the id never |
| Api.WithoutAbsentId | src/utils/api.ts:87 | deleting an id that no card has changes nothing |
| Api.RemoteCards | src/utils/api.ts:26-35 | a failed listing reads as no cards |
| Api.RemoteSaveRequest | src/utils/api.ts:38-74 | the request carries the generated card markup |
| Api.ToSaveParams | bsmart-card-designer.php:183-188 | the endpoint reads the request's title, record and markup; a numeric id n arrives as n, and no id as 0 |
| Api.RemoteNewCardParams | src/utils/api.ts:63-74 | a new card reaches `save_card` as an insert of its title, record and markup |
| Api.LocalStore.constructor | src/utils/api.ts:22-23 | nothing is stored at first |
| Api.LocalStore.GetCards | src/utils/api.ts:21-24 | the stored list, or none when nothing is stored |
| Api.LocalStore.SaveCard | src/utils/api.ts:38-60 | the local save follows the save specification and writes the list back only on success |
| Api.LocalStore.DeleteCard | src/utils/api.ts:84-90 | the list without the cards that have the id is written back |
| App.Next | src/App.tsx:13-59 | no handler leaves a shell that was not loading in the loading state, and loading is off after every load, save and confirmed deletion |
| App.EditorInput | src/App.tsx:90 | a new card opens the editor with no record |
| App.SaveTarget | src/App.tsx:45 | a save names an id exactly when a card is being edited |
| App.ListChangesOnReload | src/App.tsx:13-54 | the list changes only on a load, a successful save or a confirmed deletion |
| App.ViewChanges | src/App.tsx:25-59 | the editor opens only through create or edit, and closes only through cancel or a successful save |
| App.EditOpensCard | src/App.tsx:30-90 | editing a card opens its record and saves under its id |
| App.CreateOpensEmpty | src/App.tsx:25-90 | a new card opens an empty editor and saves without an id |
| App.UndecodedCardEditsInPlace | src/App.tsx:30-90 | a card without a decoded record opens as new yet saves under its own id |
| App.CancelReturns | src/App.tsx:25-59 | cancel after opening returns to the dashboard with the list unchanged |
| App.FailedSaveStays | src/App.tsx:42-54 | a failed save keeps the editor on the same card |
| App.SucceededSaveReturns | src/App.tsx:42-54 | a successful save takes the reloaded list, returns to the dashboard with loading off, and keeps the edited card |
| App.Shell.constructor | src/App.tsx:8-11 | the shell starts on the dashboard with no cards, nothing in edit and not loading |
| App.Shell.LoadCards | src/App.tsx:13-18 | loading replaces the list with the fetched one |
| App.Shell.HandleCreateNew | src/App.tsx:25-28 | the create handler follows the transition function |
| App.Shell.HandleEdit | src/App.tsx:30-33 | the edit handler follows the transition function |
| App.Shell.HandleDelete | src/App.tsx:35-40 | the API is called only on confirmation, and the handler follows the transition function |
| App.Shell.HandleSave | src/App.tsx:42-54 | the save goes out under the edited card's id, and the handler follows the transition function |
| App.Shell.HandleCancel | src/App.tsx:56-59 | the cancel handler follows the transition function |
| Plugin.ShortcodeInjective | bsmart-card-designer.php:174 | different posts get different shortcodes |
| Plugin.RenderShortcode | bsmart-card-designer.php:236-260 | nothing for id 0; otherwise the markup stored under the absolute value of the id when it is truthy, and the "not found" comment when it is missing or falsy |
| Plugin.IndexOf | bsmart-card-designer.php:203-205 | the position of the post with the id, or -1 when there is none |
| Plugin.SaveCardSpec | bsmart-card-designer.php:182-221 | an empty or "0" title is refused with `missing_title`, status 400, and nothing changes |
| Plugin.SaveKeepsValid | bsmart-card-designer.php:196-215 | saving keeps post ids positive, distinct and below the next id |
| Plugin.SaveUpdates | bsmart-card-designer.php:203-220 | an update gives the post with the id the new title and record, keeps its id, date and place, stores the new markup under that id, changes no other post or markup and no counter, and answers with the id |
| Plugin.SaveInserts | bsmart-card-designer.php:206-220 | an insert puts one new post, dated now, under the next id at the head of the listing (newest first), keeps the other posts, stores the markup under the new id and changes no other markup, advances the counter by one and answers with the new id |
| Plugin.SavedMarkupRenders | bsmart-card-designer.php:203-259 | after a save the post's shortcode prints the saved markup; an unknown update id answers with post id 0 |
| Plugin.DeleteCardSpec | bsmart-card-designer.php:224-231 | deleting an unknown post answers `cant_delete`, status 500, and changes nothing |
| Plugin.DeleteRemoves | bsmart-card-designer.php:226-249 | a deleted post is no longer listed and its shortcode reports it missing; the other posts keep their order, its markup is removed and every other markup stays, the next id stays, the answer is "Cancellato", and the ids stay valid |
| Plugin.RemoveAt | bsmart-card-designer.php:226 | removing a post keeps the others in order |
| Plugin.ListEntry | bsmart-card-designer.php:170-176 | an entry carries the post id, its decoded record and its shortcode |
| Plugin.Listing | bsmart-card-designer.php:167-178 | one entry per post |
| Plugin.ListingAt | bsmart-card-designer.php:168-176 | the entry at a position is the entry of the post at that position |
| Plugin.ListedShortcodesDistinct | bsmart-card-designer.php:174 | no two listed cards share a shortcode |
| Plugin.NewCardShortcodeShowsSnapshot | bsmart-card-designer.php:206-259 | a card saved as new is answered with the next id, and that id's shortcode prints the card's generated markup |
| Plugin.MarkupNotFalsy | bsmart-card-designer.php:246 | markup that starts with `<` is never PHP-falsy |
| Plugin.CardPostStore.constructor | bsmart-card-designer.php:160-179 | an empty store |
| Plugin.CardPostStore.SaveCard | bsmart-card-designer.php:182-221 | the endpoint follows the save specification and keeps the ids valid |
| Plugin.CardPostStore.DeleteCard | bsmart-card-designer.php:224-231 | the endpoint follows the delete specification and keeps the ids valid |
| Plugin.CardPostStore.GetCards | bsmart-card-designer.php:160-179 | the loop lists every post in order |
| Plugin.CardPostStore.Render | bsmart-card-designer.php:236-260 | any non-zero id prints something |

## Left out

- The CSS rules of the stylesheet are left out, because they are a fixed text that no operation reads. Only the header comment is kept, which is enough to state that the trimmed stylesheet is that fixed text.
- The CSV importer cannot index out of range. A column index past the end of a row reads as "". The JavaScript code would read `undefined` there, and for tags and objectives it would then throw.
- Quotes in CSV cells: the code drops every quote character but the documentation describes collapsing doubled quotes. The model follows the code. CSV cells are quote-free, and the replacements that follow are no-ops.
- I/O is not modelled: local storage, `fetch`, JSON encoding and decoding, `alert`, `confirm`, the clipboard and the clock. Their results are parameters. A record that does not decode is `None`.
- Asynchrony is not modelled. Each handler runs to completion as one step, with the outcome as a parameter.
- React's effect scheduling is not modelled. The editor's two effects run synchronously at the end of each setter. The "Synced" predicate is what they re-establish.
- `sanitize_text_field` is not modelled. Titles reach `save_card` as given.
- Api.ToSaveParams: `intval` of a string id is not modelled; a string id reads as 0, not as the number its digits spell.
- The failure branch of `wp_insert_post` and `wp_update_post` is not modelled. Only the unknown update id, which answers with post id 0, is.
- The WordPress permission callbacks, the enqueued frontend stylesheet and the admin page registration are not modelled. They have no effect on the data.
- Dashboard.SearchIgnoresCase: lowercasing covers ASCII and Latin-1 letters only, not the full Unicode case mapping of `toLowerCase`.
- CsvParser.HeaderCells: the headers are lowercased with the same ASCII and Latin-1 mapping, so a header with other upper-case letters is not matched as `toLowerCase` would match it.
- Agreement.SnapshotMatchesPreview: the blocks are compared by their contents, not by how the text is rendered. The snapshot inserts every text unescaped, including the description, which is the editor's rich-text HTML. The preview shows the same texts escaped. For a text holding `<` or `&` the two therefore look different, although their blocks agree.
- Plugin.RenderShortcode: the attribute is taken as an integer, and `absint` as its absolute value. Parsing the attribute's text (a non-numeric value reads as 0) is not modelled.
- Plugin: the store holds card posts only. An id of another kind of post, such as a page, behaves as an unknown id. In WordPress, `wp_update_post` would turn such a post into a card and answer with its id, and `wp_delete_post` would delete it.
- Plugin: the listing order of `get_posts` (newest date first) is modelled by putting each new post at the head. This assumes the clock does not go backwards between saves; the order among posts with equal dates is not modelled.
- Generator: the blocks are proved present in the markup text, but not absent from it. Absence holds only on the block list (the Snapshot lemmas): the description is inserted unescaped, so the text of a card can hold the markup of any block it leaves out.
- Api.LocalStore.SaveCard: the markup generated at the start of `saveCard` is not computed in the local branch, because that branch never uses it.
- Agreement.MissingVariantSnapshotsAsComic: the statement is about the blocks and the root class, not the whole HTML text. The comment line and the markup are built from those same flags.
- The preview's JSX structure and class names are not modelled. The preview is modelled as the sequence of blocks it shows, with their contents.
