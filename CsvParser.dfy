/**
 * Bulk import of cards from delimiter-separated text (utils/csvParser.ts).
 *
 * The header row is split on `,` or `;` without regard to quotes; each data
 * row is split by a loop that toggles an "inside quotes" flag on every `"`
 * and cuts at `,` or `;` only outside quotes. Quote characters are never
 * kept, so the later clean-up of a field (strip one surrounding `"`,
 * collapse `""`) has nothing left to act on.
 */
module CsvParser {
  import opened Types
  import opened Strings

  predicate IsDelim(c: char) {
    c == ',' || c == ';'
  }

  /** The number of `"` characters in `s`, counted from the end so that it grows with a prefix. */
  function Quotes(s: string): nat {
    if s == [] then 0 else Quotes(s[..|s| - 1]) + (if s[|s| - 1] == '"' then 1 else 0)
  }

  /** Whether the scan is inside quotes after reading `s`: each `"` flips it. */
  predicate Open(s: string) {
    if s == [] then false else Open(s[..|s| - 1]) != (s[|s| - 1] == '"')
  }

  /** Inside quotes exactly after an odd number of `"`. */
  lemma {:induction false} OpenIsOddQuotes(s: string)
    ensures Open(s) <==> Quotes(s) % 2 == 1
  {
    if s != [] {
      OpenIsOddQuotes(s[..|s| - 1]);
    }
  }

  /** The positions of the delimiters of `s` that stand outside quotes, in increasing order. */
  function Delims(s: string): (ds: seq<nat>)
    ensures forall k :: 0 <= k < |ds| ==> ds[k] < |s|
    ensures forall k, m :: 0 <= k < m < |ds| ==> ds[k] < ds[m]
  {
    if s == [] then []
    else
      var p := s[..|s| - 1];
      Delims(p) + (if IsDelim(s[|s| - 1]) && !Open(p) then [|s| - 1] else [])
  }

  /** A position is a cut exactly when it holds a delimiter preceded by an even number of quotes. */
  lemma {:induction false} DelimsAreUnquotedDelimiters(s: string, i: int)
    ensures i in Delims(s) <==> 0 <= i < |s| && IsDelim(s[i]) && !Open(s[..i])
  {
    if s != [] {
      var p := s[..|s| - 1];
      DelimsAreUnquotedDelimiters(p, i);
      if 0 <= i < |p| {
        assert p[i] == s[i] && p[..i] == s[..i];
      }
    }
  }

  /**
   * The text of each field of `s` with its quotes dropped, built one character
   * at a time: a `"` is dropped, a delimiter after an even number of quotes
   * opens a new field, any other character extends the last field.
   */
  function Pieces(s: string): (ps: seq<string>)
    ensures |ps| >= 1
  {
    if s == [] then [""]
    else
      var p, c := s[..|s| - 1], s[|s| - 1];
      var ps := Pieces(p);
      if c == '"' then ps else AddChar(ps, c, IsDelim(c) && !Open(p))
  }

  /** `.replace(/^"|"$/g, '')`: drop one leading and one trailing `"`. */
  function StripOuterQuote(s: string): string {
    var t := if s != [] && s[0] == '"' then s[1..] else s;
    if t != [] && t[|t| - 1] == '"' then t[..|t| - 1] else t
  }

  /** `.replace(/""/g, '"')`, scanning left to right. */
  function CollapseDoubled(s: string): string {
    if |s| >= 2 && s[0] == '"' && s[1] == '"' then "\"" + CollapseDoubled(s[2..])
    else if s == [] then ""
    else [s[0]] + CollapseDoubled(s[1..])
  }

  /** What `splitLine` pushes for the text accumulated since the last cut. */
  function Finish(current: string): string {
    CollapseDoubled(StripOuterQuote(Trim(current)))
  }

  /** `Finish` applied to each of `ps`. */
  function FinishAll(ps: seq<string>): (fs: seq<string>)
    ensures |fs| == |ps|
  {
    if ps == [] then [] else [Finish(ps[0])] + FinishAll(ps[1..])
  }

  lemma {:induction false} FinishAllAt(ps: seq<string>)
    ensures forall k :: 0 <= k < |ps| ==> FinishAll(ps)[k] == Finish(ps[k])
  {
    if ps != [] {
      FinishAllAt(ps[1..]);
    }
  }

  lemma {:induction false} FinishAllSnoc(ps: seq<string>, p: string)
    ensures FinishAll(ps + [p]) == FinishAll(ps) + [Finish(p)]
  {
    if ps == [] {
      assert [] + [p] == [p];
    } else {
      assert (ps + [p])[1..] == ps[1..] + [p];
      FinishAllSnoc(ps[1..], p);
    }
  }

  /** The fields of a data row as `splitLine` produces them. */
  function Fields(line: string): (fs: seq<string>)
    ensures |fs| == |Pieces(line)|
  {
    FinishAll(Pieces(line))
  }

  /** One more character, as the scan sees it. */
  lemma {:induction false} PiecesStep(line: string, i: nat)
    requires i < |line|
    ensures Open(line[..i + 1]) <==> Open(line[..i]) != (line[i] == '"')
    ensures var ps, c := Pieces(line[..i]), line[i];
      Pieces(line[..i + 1]) ==
        if c == '"' then ps else AddChar(ps, c, IsDelim(c) && !Open(line[..i]))
  {
    var p := line[..i + 1];
    assert p[..|p| - 1] == line[..i];
  }

  /** There is one field more than there are delimiters outside quotes. */
  lemma {:induction false} PiecesCount(s: string)
    ensures |Pieces(s)| == |Delims(s)| + 1
  {
    if s != [] {
      PiecesCount(s[..|s| - 1]);
    }
  }

  /** Where field `k` of `s` starts: at 0, or just after the `k`-th cut. */
  function FieldLo(s: string, k: nat): nat
    requires k <= |Delims(s)|
  {
    if k == 0 then 0 else Delims(s)[k - 1] + 1
  }

  /** Where field `k` of `s` ends: at the next cut, or at the end of the line. */
  function FieldHi(s: string, k: nat): (hi: nat)
    requires k <= |Delims(s)|
    ensures FieldLo(s, k) <= hi <= |s|
  {
    if k == |Delims(s)| then |s| else Delims(s)[k]
  }

  /** The cuts of a line and of the line with one more character. */
  lemma {:induction false} DelimsSnoc(s: string)
    requires s != []
    ensures var p := s[..|s| - 1];
      Delims(s) == Delims(p) + (if IsDelim(s[|s| - 1]) && !Open(p) then [|p|] else [])
  {
  }

  /** Field `k` is the text between the cuts around it, with its quotes dropped. */
  lemma {:induction false} PieceAt(s: string, k: nat)
    requires k <= |Delims(s)|
    ensures |Pieces(s)| == |Delims(s)| + 1
    ensures Pieces(s)[k] == RemoveQuotes(s[FieldLo(s, k)..FieldHi(s, k)])
  {
    PiecesCount(s);
    if s != [] {
      var p, c := s[..|s| - 1], s[|s| - 1];
      var n := |Delims(p)|;
      var cut := IsDelim(c) && !Open(p);
      DelimsSnoc(s);
      PiecesCount(p);
      if k < n {
        PieceAt(p, k);
        assert FieldLo(s, k) == FieldLo(p, k) && FieldHi(s, k) == FieldHi(p, k);
        assert s[FieldLo(s, k)..FieldHi(s, k)] == p[FieldLo(p, k)..FieldHi(p, k)];
        assert Pieces(s)[k] == Pieces(p)[k];
      } else if k == n {
        PieceAt(p, k);
        LastPieceStep(s, p, c, cut);
      } else {
        assert FieldLo(s, k) == |s| && FieldHi(s, k) == |s|;
        assert Pieces(s) == Pieces(p) + [""];
      }
    }
  }

  /** The last field of `p` after one more character `c`, which may cut or extend it. */
  lemma {:induction false} LastPieceStep(s: string, p: string, c: char, cut: bool)
    requires s != [] && p == s[..|s| - 1] && c == s[|s| - 1] && cut == (IsDelim(c) && !Open(p))
    requires Delims(s) == Delims(p) + (if cut then [|p|] else [])
    requires |Pieces(p)| == |Delims(p)| + 1 && |Pieces(s)| == |Delims(s)| + 1
    requires Pieces(p)[|Delims(p)|] == RemoveQuotes(p[FieldLo(p, |Delims(p)|)..|p|])
    ensures Pieces(s)[|Delims(p)|] == RemoveQuotes(s[FieldLo(s, |Delims(p)|)..FieldHi(s, |Delims(p)|)])
  {
    var n := |Delims(p)|;
    var lo := FieldLo(p, n);
    assert FieldLo(s, n) == lo;
    if cut {
      assert FieldHi(s, n) == |p|;
      assert s[lo..|p|] == p[lo..|p|];
      assert Pieces(s) == Pieces(p) + [""];
    } else {
      assert FieldHi(s, n) == |s|;
      SliceLast(s, lo);
      LastPieceGrows(s, p, c, lo);
    }
  }

  /** A character that does not cut adds itself to the last field's text, and to the field unless it is a quote. */
  lemma {:induction false} LastPieceGrows(s: string, p: string, c: char, lo: nat)
    requires s != [] && p == s[..|s| - 1] && c == s[|s| - 1] && !(IsDelim(c) && !Open(p))
    requires |Pieces(p)| == |Delims(p)| + 1 && lo <= |p|
    requires s[lo..|s|] == p[lo..|p|] + [c]
    requires Pieces(p)[|Delims(p)|] == RemoveQuotes(p[lo..|p|])
    ensures |Pieces(s)| == |Pieces(p)|
    ensures Pieces(s)[|Delims(p)|] == RemoveQuotes(s[lo..|s|])
  {
    var n := |Delims(p)|;
    var x := p[lo..|p|];
    RemoveQuotesAppend(x, [c]);
    if c == '"' {
      assert Pieces(s) == Pieces(p);
      assert RemoveQuotes([c]) == "";
      assert RemoveQuotes(x) + "" == RemoveQuotes(x);
    } else {
      assert Pieces(s) == Pieces(p)[..n] + [Pieces(p)[n] + [c]];
      assert RemoveQuotes([c]) == [c];
    }
  }

  /** A tail slice is the same slice of the line without its last character, then that character. */
  lemma {:induction false} SliceLast(s: string, lo: nat)
    requires lo < |s|
    ensures s[lo..|s|] == s[..|s| - 1][lo..|s| - 1] + [s[|s| - 1]]
  {
  }

  /**
   * Every field is the text between the cuts around it, with its quotes
   * dropped: the line is cut at exactly the delimiters outside quotes.
   */
  lemma {:induction false} PiecesAreSegments(s: string)
    ensures |Pieces(s)| == |Delims(s)| + 1
    ensures forall k :: 0 <= k <= |Delims(s)| ==> Pieces(s)[k] == RemoveQuotes(s[FieldLo(s, k)..FieldHi(s, k)])
  {
    PiecesCount(s);
    forall k | 0 <= k <= |Delims(s)|
      ensures Pieces(s)[k] == RemoveQuotes(s[FieldLo(s, k)..FieldHi(s, k)])
    {
      PieceAt(s, k);
    }
  }

  /** No field keeps a quote character. */
  lemma {:induction false} PiecesQuoteFree(s: string)
    ensures forall k, j :: 0 <= k < |Pieces(s)| && 0 <= j < |Pieces(s)[k]| ==> Pieces(s)[k][j] != '"'
  {
    if s != [] {
      var p := s[..|s| - 1];
      PiecesQuoteFree(p);
      var ps := Pieces(p);
      if s[|s| - 1] != '"' && !(IsDelim(s[|s| - 1]) && !Open(p)) {
        var ps' := Pieces(s);
        forall k, j | 0 <= k < |ps'| && 0 <= j < |ps'[k]|
          ensures ps'[k][j] != '"'
        {
          if k < |ps| - 1 {
            assert ps'[k] == ps[k];
          } else {
            assert ps'[k] == ps[|ps| - 1] + [s[|s| - 1]];
          }
        }
      }
    }
  }

  lemma {:induction false} OpenNone(s: string)
    requires forall j :: 0 <= j < |s| ==> s[j] != '"'
    ensures !Open(s)
  {
    if s != [] {
      OpenNone(s[..|s| - 1]);
    }
  }

  /** Without quotes, a row is cut at every `,` and `;`, exactly as the header is. */
  lemma {:induction false} PiecesWithoutQuotes(s: string)
    requires forall j :: 0 <= j < |s| ==> s[j] != '"'
    ensures Pieces(s) == SplitOn(s, {',', ';'})
  {
    if s != [] {
      var p, c := s[..|s| - 1], s[|s| - 1];
      PiecesWithoutQuotes(p);
      OpenNone(p);
      SplitOnSnoc(p, c, {',', ';'});
      assert p + [c] == s;
      assert Pieces(s) == AddChar(Pieces(p), c, c in {',', ';'});
    }
  }

  lemma {:induction false} CollapseDoubledNoQuotes(s: string)
    requires forall j :: 0 <= j < |s| ==> s[j] != '"'
    ensures CollapseDoubled(s) == s
  {
    if s != [] {
      CollapseDoubledNoQuotes(s[1..]);
      assert [s[0]] + s[1..] == s;
    }
  }

  /** On quote-free text the two clean-up replacements change nothing: a field is its trimmed text. */
  lemma {:induction false} FinishQuoteFree(current: string)
    requires forall j :: 0 <= j < |current| ==> current[j] != '"'
    ensures Finish(current) == Trim(current)
  {
    TrimKeepsAbsent(current, '"');
    CollapseDoubledNoQuotes(Trim(current));
  }

  /**
   * The fields of a row: one more than the delimiters outside quotes, each the
   * trimmed text of its stretch with every `"` removed, so no field holds a
   * quote (a doubled `""` does not become a literal `"`) and none has white
   * space at its ends.
   */
  lemma {:induction false} FieldsShape(line: string)
    ensures |Fields(line)| == |Delims(line)| + 1
    ensures forall k :: 0 <= k < |Fields(line)| ==> Fields(line)[k] == Trim(Pieces(line)[k])
    ensures forall k, j :: 0 <= k < |Fields(line)| && 0 <= j < |Fields(line)[k]| ==> Fields(line)[k][j] != '"'
    ensures forall k :: 0 <= k < |Fields(line)| ==> Trim(Fields(line)[k]) == Fields(line)[k]
  {
    PiecesCount(line);
    PiecesQuoteFree(line);
    FinishAllAt(Pieces(line));
    forall k | 0 <= k < |Fields(line)|
      ensures Fields(line)[k] == Trim(Pieces(line)[k])
      ensures forall j :: 0 <= j < |Fields(line)[k]| ==> Fields(line)[k][j] != '"'
      ensures Trim(Fields(line)[k]) == Fields(line)[k]
    {
      var raw := Pieces(line)[k];
      FinishQuoteFree(raw);
      TrimKeepsAbsent(raw, '"');
      TrimIdempotent(raw);
    }
  }

  /** A row without quotes gives the trimmed pieces of a plain split on `,` and `;`. */
  lemma {:induction false} FieldsWithoutQuotes(line: string)
    requires forall j :: 0 <= j < |line| ==> line[j] != '"'
    ensures |Fields(line)| == |SplitOn(line, {',', ';'})|
    ensures forall k :: 0 <= k < |Fields(line)| ==> Fields(line)[k] == Trim(SplitOn(line, {',', ';'})[k])
  {
    PiecesWithoutQuotes(line);
    PiecesQuoteFree(line);
    FinishAllAt(Pieces(line));
    forall k | 0 <= k < |Pieces(line)|
      ensures Finish(Pieces(line)[k]) == Trim(Pieces(line)[k])
    {
      FinishQuoteFree(Pieces(line)[k]);
    }
  }

  /**
   * The state of `splitLine` after reading `line[..i]`: the quote flag is the
   * parity of the quotes read, `matches` holds the finished fields and
   * `current` the text of the field being read.
   */
  predicate ScanState(line: string, i: nat, inQuote: bool, matches: seq<string>, current: string) {
    && i <= |line|
    && (inQuote <==> Open(line[..i]))
    && |matches| + 1 == |Pieces(line[..i])|
    && matches == FinishAll(Pieces(line[..i])[..|matches|])
    && current == Pieces(line[..i])[|matches|]
  }

  lemma {:induction false} StepQuote(line: string, i: nat, inQuote: bool, matches: seq<string>, current: string)
    requires ScanState(line, i, inQuote, matches, current) && i < |line| && line[i] == '"'
    ensures ScanState(line, i + 1, !inQuote, matches, current)
  {
    PiecesStep(line, i);
    assert Pieces(line[..i + 1]) == Pieces(line[..i]);
  }

  lemma {:induction false} StepCut(line: string, i: nat, inQuote: bool, matches: seq<string>, current: string)
    requires ScanState(line, i, inQuote, matches, current) && i < |line|
    requires IsDelim(line[i]) && !inQuote
    ensures ScanState(line, i + 1, inQuote, matches + [Finish(current)], "")
  {
    PiecesStep(line, i);
    var ps := Pieces(line[..i]);
    FinishAllSnoc(ps[..|matches|], current);
    assert ps[..|matches|] + [current] == ps == (ps + [""])[..|matches| + 1];
  }

  lemma {:induction false} StepChar(line: string, i: nat, inQuote: bool, matches: seq<string>, current: string)
    requires ScanState(line, i, inQuote, matches, current) && i < |line|
    requires line[i] != '"' && !(IsDelim(line[i]) && !inQuote)
    ensures ScanState(line, i + 1, inQuote, matches, current + [line[i]])
  {
    PiecesStep(line, i);
    var ps := Pieces(line[..i]);
    assert (ps[..|matches|] + [current + [line[i]]])[..|matches|] == ps[..|matches|];
  }

  lemma {:induction false} ScanDone(line: string, inQuote: bool, matches: seq<string>, current: string)
    requires ScanState(line, |line|, inQuote, matches, current)
    ensures matches + [Finish(current)] == Fields(line)
  {
    assert line[..|line|] == line;
    var ps := Pieces(line);
    FinishAllSnoc(ps[..|matches|], current);
    assert ps[..|matches|] + [current] == ps;
  }

  /** `splitLine`: scan the row once, toggling the quote flag and cutting at unquoted delimiters. */
  method SplitLine(line: string) returns (matches: seq<string>)
    ensures matches == Fields(line)
  {
    matches := [];
    var inQuote := false;
    var current := "";
    var i := 0;
    assert line[..0] == [];
    while i < |line|
      invariant ScanState(line, i, inQuote, matches, current)
    {
      var c := line[i];
      if c == '"' {
        StepQuote(line, i, inQuote, matches, current);
        inQuote := !inQuote;
      } else if IsDelim(c) && !inQuote {
        StepCut(line, i, inQuote, matches, current);
        matches := matches + [Finish(current)];
        current := "";
      } else {
        StepChar(line, i, inQuote, matches, current);
        current := current + [c];
      }
      i := i + 1;
    }
    ScanDone(line, inQuote, matches, current);
    matches := matches + [Finish(current)];
  }

  /** Header cells: split on `,` or `;` (quotes not honoured), then trimmed, lower-cased, quotes removed. */
  function HeaderCells(headerLine: string): (hs: seq<string>)
    ensures |hs| == |SplitOn(headerLine, {',', ';'})|
    ensures forall k :: 0 <= k < |hs| ==> '"' !in hs[k] && ToLower(hs[k]) == hs[k]
  {
    var cells := SplitOn(headerLine, {',', ';'});
    var hs := seq(|cells|, k requires 0 <= k < |cells| => RemoveQuotes(ToLower(Trim(cells[k]))));
    assert forall k :: 0 <= k < |hs| ==> ToLower(hs[k]) == hs[k] by {
      forall k | 0 <= k < |hs| ensures ToLower(hs[k]) == hs[k] {
        ToLowerIdempotent(Trim(cells[k]));
        RemoveQuotesKeepsLower(ToLower(Trim(cells[k])));
      }
    }
    hs
  }

  /** `patterns.some(p => h.includes(p))`. */
  predicate MatchesAny(h: string, patterns: seq<string>) {
    exists k :: 0 <= k < |patterns| && Contains(h, patterns[k])
  }

  /** `getIndex`: the first header containing one of the patterns, or -1 when none does. */
  function GetIndex(headers: seq<string>, patterns: seq<string>): (r: int)
    ensures -1 <= r < |headers|
    ensures r >= 0 ==> MatchesAny(headers[r], patterns)
    ensures forall k :: 0 <= k < |headers| && (r == -1 || k < r) ==> !MatchesAny(headers[k], patterns)
  {
    if headers == [] then -1
    else if MatchesAny(headers[0], patterns) then 0
    else
      var r := GetIndex(headers[1..], patterns);
      if r == -1 then -1 else r + 1
  }

  const TitlePatterns: seq<string> := ["titolo", "title"]
  const TitleLinkPatterns: seq<string> := ["link titolo", "title link", "url titolo"]
  const PublisherPatterns: seq<string> := ["editore", "publisher"]
  const PublisherUrlPatterns: seq<string> := ["link editore", "publisher link", "url editore"]
  const ImagePatterns: seq<string> := ["url immagine", "image url", "cover", "src"]
  const ImageClickPatterns: seq<string> := ["link immagine", "image link", "href immagine"]
  const SubjectPatterns: seq<string> := ["materia", "subject", "argomento"]
  const TagsPatterns: seq<string> := ["tag", "tags", "keywords"]
  const DescriptionPatterns: seq<string> := ["descrizione", "description", "sinossi"]
  const BuyPatterns: seq<string> := ["link acquista", "buy link", "purchase"]
  const PreviewPatterns: seq<string> := ["link anteprima", "preview link"]
  const AuthorPatterns: seq<string> := ["autore", "author"]
  const WhyReadPatterns: seq<string> := ["perch\U{E9} leggere", "why read", "motivi"]
  const BrandPatterns: seq<string> := ["marca", "brand", "produttore"]
  const ObjectivesPatterns: seq<string> := ["obiettivi", "objectives"]

  /** The column each record field is read from; -1 when no header matched. */
  datatype Columns = Columns(
    title: int, titleLink: int, publisher: int, publisherUrl: int, image: int,
    imageClick: int, subject: int, tags: int, description: int, buy: int,
    preview: int, author: int, whyRead: int, brand: int, objectives: int)

  function ResolveColumns(headers: seq<string>): Columns {
    Columns(
      GetIndex(headers, TitlePatterns), GetIndex(headers, TitleLinkPatterns),
      GetIndex(headers, PublisherPatterns), GetIndex(headers, PublisherUrlPatterns),
      GetIndex(headers, ImagePatterns), GetIndex(headers, ImageClickPatterns),
      GetIndex(headers, SubjectPatterns), GetIndex(headers, TagsPatterns),
      GetIndex(headers, DescriptionPatterns), GetIndex(headers, BuyPatterns),
      GetIndex(headers, PreviewPatterns), GetIndex(headers, AuthorPatterns),
      GetIndex(headers, WhyReadPatterns), GetIndex(headers, BrandPatterns),
      GetIndex(headers, ObjectivesPatterns))
  }

  /**
   * `idx > -1 ? cols[idx] : fallback`. A column past the end of a short row
   * is read here as the empty string; the source reads `undefined` there.
   */
  function Cell(cols: seq<string>, idx: int, fallback: string): string {
    if idx > -1 then (if idx < |cols| then cols[idx] else "") else fallback
  }

  const MissingTitle: string := "Titolo mancante"
  const BuyLabel: string := "Acquista"
  const PreviewLabel: string := "Sfoglia l'anteprima"

  /** The links of an imported record: "Acquista" for a buy URL, then the preview link. */
  function ImportedLinks(buyUrl: string, previewUrl: string): seq<Link> {
    (if buyUrl != "" then [Link(buyUrl, BuyLabel, Primary)] else [])
      + (if previewUrl != "" then [Link(previewUrl, PreviewLabel, Secondary)] else [])
  }

  /** The record built from the fields of one accepted row. */
  function BuildRecord(cols: seq<string>, c: Columns): CsvProduct {
    CsvProduct(
      title := Cell(cols, c.title, MissingTitle),
      titleUrl := Some(Cell(cols, c.titleLink, "")),
      coverImage := Cell(cols, c.image, ""),
      imageClickUrl := Some(Cell(cols, c.imageClick, "")),
      description := Cell(cols, c.description, ""),
      subject := Cell(cols, c.subject, ""),
      publisher := Cell(cols, c.publisher, ""),
      publisherUrl := Some(Cell(cols, c.publisherUrl, "")),
      tags := CommaList(Cell(cols, c.tags, "")),
      links := ImportedLinks(Cell(cols, c.buy, ""), Cell(cols, c.preview, "")),
      author := Some(Cell(cols, c.author, "")),
      whyRead := Some(Cell(cols, c.whyRead, "")),
      brand := Some(Cell(cols, c.brand, "")),
      educationalObjectives := Some(CommaList(Cell(cols, c.objectives, ""))),
      cardVariant := None)
  }

  /**
   * A data row that is processed: not blank and splitting into at least three
   * fields (a row has as many fields as pieces).
   */
  predicate Accepted(line: string) {
    Trim(line) != "" && |Pieces(line)| >= 3
  }

  /** `lines.filter` of the rows that pass the blank-row and three-field checks. */
  function AcceptedRows(rows: seq<string>): (acc: seq<string>)
    ensures |acc| <= |rows|
  {
    if rows == [] then []
    else (if Accepted(rows[0]) then [rows[0]] else []) + AcceptedRows(rows[1..])
  }

  /** The fields of each of `rows`. */
  function FieldsOf(rows: seq<string>): (fss: seq<seq<string>>)
    ensures |fss| == |rows|
  {
    if rows == [] then [] else [Fields(rows[0])] + FieldsOf(rows[1..])
  }

  /** One record per field list, in order. */
  function Records(fss: seq<seq<string>>, c: Columns): (rs: seq<CsvProduct>)
    ensures |rs| == |fss|
  {
    if fss == [] then [] else [BuildRecord(fss[0], c)] + Records(fss[1..], c)
  }

  /** The records of the data rows: one for each accepted row, in order. */
  function RowRecords(rows: seq<string>, c: Columns): (rs: seq<CsvProduct>)
    ensures |rs| <= |rows|
  {
    Records(FieldsOf(AcceptedRows(rows)), c)
  }

  /** `parseCSV` as a function of its input. */
  function ParseSpec(content: string): seq<CsvProduct> {
    var lines := SplitLines(Trim(content));
    if |lines| < 2 then [] else RowRecords(lines[1..], ResolveColumns(HeaderCells(lines[0])))
  }

  /** One more data row is kept exactly when it is accepted. */
  lemma {:induction false} AcceptedRowsAppend(rows: seq<string>, line: string)
    ensures AcceptedRows(rows + [line]) == AcceptedRows(rows) + (if Accepted(line) then [line] else [])
  {
    var t := if Accepted(line) then [line] else [];
    if rows == [] {
      assert [] + [line] == [line];
      assert AcceptedRows([line]) == t + [];
    } else {
      var h := if Accepted(rows[0]) then [rows[0]] else [];
      assert (rows + [line])[0] == rows[0];
      assert (rows + [line])[1..] == rows[1..] + [line];
      AcceptedRowsAppend(rows[1..], line);
      assert AcceptedRows(rows + [line]) == h + (AcceptedRows(rows[1..]) + t);
      assert h + (AcceptedRows(rows[1..]) + t) == (h + AcceptedRows(rows[1..])) + t;
    }
  }

  lemma {:induction false} FieldsOfSnoc(rows: seq<string>, line: string)
    ensures FieldsOf(rows + [line]) == FieldsOf(rows) + [Fields(line)]
  {
    if rows == [] {
      assert [] + [line] == [line];
    } else {
      assert (rows + [line])[1..] == rows[1..] + [line];
      FieldsOfSnoc(rows[1..], line);
    }
  }

  lemma {:induction false} RecordsSnoc(fss: seq<seq<string>>, fs: seq<string>, c: Columns)
    ensures Records(fss + [fs], c) == Records(fss, c) + [BuildRecord(fs, c)]
  {
    if fss == [] {
      assert [] + [fs] == [fs];
    } else {
      assert (fss + [fs])[1..] == fss[1..] + [fs];
      RecordsSnoc(fss[1..], fs, c);
    }
  }

  /** The scan over the data rows, one row further. */
  lemma {:induction false} RowRecordsStep(lines: seq<string>, i: nat, c: Columns)
    requires 1 <= i < |lines|
    ensures Accepted(lines[i]) ==>
      RowRecords(lines[1..i + 1], c) == RowRecords(lines[1..i], c) + [BuildRecord(Fields(lines[i]), c)]
    ensures !Accepted(lines[i]) ==> RowRecords(lines[1..i + 1], c) == RowRecords(lines[1..i], c)
  {
    var rows, line := lines[1..i], lines[i];
    assert lines[1..i + 1] == rows + [line];
    AcceptedRowsAppend(rows, line);
    if Accepted(line) {
      FieldsOfSnoc(AcceptedRows(rows), line);
      RecordsSnoc(FieldsOf(AcceptedRows(rows)), Fields(line), c);
    } else {
      assert AcceptedRows(rows) + [] == AcceptedRows(rows);
    }
  }

  /** `parseCSV`: resolve the columns from the header row, then read the data rows. */
  method ParseCSV(content: string) returns (result: seq<CsvProduct>)
    ensures result == ParseSpec(content)
  {
    var lines := SplitLines(Trim(content));
    if |lines| < 2 {
      return [];
    }
    var columns := ResolveColumns(HeaderCells(lines[0]));
    result := ReadRows(lines, columns);
  }

  /** The loop of `parseCSV` over the data rows: push a record for each accepted row, in order. */
  method ReadRows(lines: seq<string>, columns: Columns) returns (result: seq<CsvProduct>)
    requires |lines| >= 1
    ensures result == RowRecords(lines[1..], columns)
  {
    result := [];
    var i := 1;
    while i < |lines|
      invariant 1 <= i <= |lines|
      invariant result == RowRecords(lines[1..i], columns)
    {
      var line := lines[i];
      RowRecordsStep(lines, i, columns);
      if Trim(line) != "" {
        var cols := SplitLine(line);
        if |cols| >= 3 {
          result := result + [BuildRecord(cols, columns)];
        }
      }
      i := i + 1;
    }
    assert lines[1..i] == lines[1..];
  }

  /** Fewer than two lines after trimming (no data row) give no records. */
  lemma {:induction false} ParseNeedsTwoLines(content: string)
    requires |SplitLines(Trim(content))| < 2
    ensures ParseSpec(content) == []
  {
  }

  /** The accepted rows are exactly the rows that pass the checks, taken in input order. */
  lemma {:induction false} AcceptedRowsIsFilter(rows: seq<string>)
    ensures IsSubsequence(AcceptedRows(rows), rows)
    ensures forall l :: l in AcceptedRows(rows) <==> l in rows && Accepted(l)
  {
    if rows != [] {
      AcceptedRowsIsFilter(rows[1..]);
      var rest := AcceptedRows(rows[1..]);
      assert rows == [rows[0]] + rows[1..];
      if Accepted(rows[0]) {
        assert ([rows[0]] + rest)[1..] == rest;
      } else {
        assert [] + rest == rest;
      }
    }
  }

  lemma {:induction false} FieldsOfAt(rows: seq<string>, k: nat)
    requires k < |rows|
    ensures FieldsOf(rows)[k] == Fields(rows[k])
  {
    if k > 0 {
      FieldsOfAt(rows[1..], k - 1);
    }
  }

  lemma {:induction false} RecordsAt(fss: seq<seq<string>>, c: Columns, k: nat)
    requires k < |fss|
    ensures Records(fss, c)[k] == BuildRecord(fss[k], c)
  {
    if k > 0 {
      RecordsAt(fss[1..], c, k - 1);
    }
  }

  /** The `k`-th record is built from the fields of the `k`-th accepted row alone. */
  lemma {:induction false} RowRecordAt(rows: seq<string>, c: Columns, k: nat)
    requires k < |AcceptedRows(rows)|
    ensures |RowRecords(rows, c)| == |AcceptedRows(rows)|
    ensures RowRecords(rows, c)[k] == BuildRecord(Fields(AcceptedRows(rows)[k]), c)
  {
    FieldsOfAt(AcceptedRows(rows), k);
    RecordsAt(FieldsOf(AcceptedRows(rows)), c, k);
  }

  /** There are never more records than data lines. */
  lemma {:induction false} ParseBound(content: string)
    ensures ParseSpec(content) == [] || |ParseSpec(content)| <= |SplitLines(Trim(content))| - 1
  {
  }

  /**
   * The imported links: "Acquista" (primary) exactly for a non-empty buy URL,
   * "Sfoglia l'anteprima" (secondary) exactly for a non-empty preview URL, buy first.
   */
  lemma {:induction false} ImportedLinksShape(buyUrl: string, previewUrl: string)
    ensures var ls := ImportedLinks(buyUrl, previewUrl);
      && |ls| <= 2
      && (Link(buyUrl, BuyLabel, Primary) in ls <==> buyUrl != "")
      && ((exists l :: l in ls && l.kind == Secondary) <==> previewUrl != "")
      && (forall l :: l in ls ==> l.url != "")
      && (buyUrl != "" ==> ls[0] == Link(buyUrl, BuyLabel, Primary))
  {
    var ls := ImportedLinks(buyUrl, previewUrl);
    if previewUrl != "" {
      assert ls[|ls| - 1] == Link(previewUrl, PreviewLabel, Secondary);
    }
  }

  /**
   * An imported record: title "Titolo mancante" without a title column and
   * every other field empty without its column, clean comma-split tags and
   * objectives, the links of the buy and preview cells, no variant.
   */
  lemma {:induction false} BuildRecordShape(cols: seq<string>, c: Columns)
    ensures var r := BuildRecord(cols, c);
      && (c.title == -1 ==> r.title == MissingTitle)
      && (c.titleLink == -1 ==> r.titleUrl == Some(""))
      && (c.image == -1 ==> r.coverImage == "")
      && (c.imageClick == -1 ==> r.imageClickUrl == Some(""))
      && (c.description == -1 ==> r.description == "")
      && (c.subject == -1 ==> r.subject == "")
      && (c.publisher == -1 ==> r.publisher == "")
      && (c.publisherUrl == -1 ==> r.publisherUrl == Some(""))
      && (c.author == -1 ==> r.author == Some(""))
      && (c.whyRead == -1 ==> r.whyRead == Some(""))
      && (c.brand == -1 ==> r.brand == Some(""))
      && (c.tags == -1 ==> r.tags == [])
      && (c.objectives == -1 ==> r.educationalObjectives == Some([]))
      && (c.buy == -1 && c.preview == -1 ==> r.links == [])
    ensures BuildRecord(cols, c).cardVariant == None
    ensures BuildRecord(cols, c).links == ImportedLinks(Cell(cols, c.buy, ""), Cell(cols, c.preview, ""))
    ensures forall k :: 0 <= k < |BuildRecord(cols, c).tags| ==> IsCleanItem(BuildRecord(cols, c).tags[k])
    ensures var os := BuildRecord(cols, c).educationalObjectives;
      os.Some? && forall k :: 0 <= k < |os.value| ==> IsCleanItem(os.value[k])
  {
    CommaListItemsClean(Cell(cols, c.tags, ""));
    CommaListItemsClean(Cell(cols, c.objectives, ""));
    EmptyCommaList();
  }

  /** An empty cell splits into no items. */
  lemma {:induction false} EmptyCommaList()
    ensures CommaList("") == []
  {
    assert SplitOn("", {','}) == [""];
    assert Trim("") == "";
  }
}
