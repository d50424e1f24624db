/**
 * The few JavaScript string operations the card designer relies on, written
 * out over `seq<char>`: `trim`, `toLowerCase`, `includes`, `split` on single
 * characters and on line breaks, `join`, removing every `"`, and the decimal
 * rendering of an integer in a template string.
 */
module Strings {

  /** The characters `String.prototype.trim` removes: white space and line terminators. */
  predicate IsSpace(c: char) {
    || c == '\t' || c == '\n' || c == '\U{B}' || c == '\U{C}' || c == '\r' || c == ' '
    || c == '\U{A0}' || c == '\U{1680}' || ('\U{2000}' <= c <= '\U{200A}')
    || c == '\U{2028}' || c == '\U{2029}' || c == '\U{202F}' || c == '\U{205F}'
    || c == '\U{3000}' || c == '\U{FEFF}'
  }

  /** `s.trimStart()`: drops the leading white space and nothing else. */
  function TrimStart(s: string): (r: string)
    ensures |r| <= |s|
    ensures r == [] || !IsSpace(r[0])
  {
    if s != [] && IsSpace(s[0]) then TrimStart(s[1..]) else s
  }

  /** What `trimStart` drops is white space, and what it keeps is the rest of the text unchanged. */
  lemma {:induction false} TrimStartSuffix(s: string)
    ensures TrimStart(s) == s[|s| - |TrimStart(s)|..]
    ensures forall i :: 0 <= i < |s| - |TrimStart(s)| ==> IsSpace(s[i])
  {
    if s != [] && IsSpace(s[0]) {
      var t := s[1..];
      TrimStartSuffix(t);
      var n := |s| - |TrimStart(t)|;
      assert t[n - 1..] == s[n..];
      forall i | 0 <= i < n
        ensures IsSpace(s[i])
      {
        if i > 0 {
          assert t[i - 1] == s[i];
        }
      }
    }
  }

  /** `s.trimEnd()`: drops the trailing white space and nothing else. */
  function TrimEnd(s: string): (r: string)
    ensures |r| <= |s|
    ensures r == [] || !IsSpace(r[|r| - 1])
  {
    if s != [] && IsSpace(s[|s| - 1]) then TrimEnd(s[..|s| - 1]) else s
  }

  /** What `trimEnd` drops is white space, and what it keeps is the start of the text unchanged. */
  lemma {:induction false} TrimEndPrefix(s: string)
    ensures TrimEnd(s) == s[..|TrimEnd(s)|]
    ensures forall i :: |TrimEnd(s)| <= i < |s| ==> IsSpace(s[i])
  {
    if s != [] && IsSpace(s[|s| - 1]) {
      var t := s[..|s| - 1];
      TrimEndPrefix(t);
      var n := |TrimEnd(t)|;
      assert t[..n] == s[..n];
      forall i | n <= i < |s|
        ensures IsSpace(s[i])
      {
        if i < |t| {
          assert t[i] == s[i];
        }
      }
    }
  }

  /** `s.trim()`. */
  function Trim(s: string): string {
    TrimEnd(TrimStart(s))
  }

  /** A trimmed string neither starts nor ends with white space. */
  lemma {:induction false} TrimEnds(s: string)
    ensures Trim(s) == [] || (!IsSpace(Trim(s)[0]) && !IsSpace(Trim(s)[|Trim(s)| - 1]))
  {
    TrimEndPrefix(TrimStart(s));
  }

  /** A string that neither starts nor ends with white space is its own trim. */
  lemma {:induction false} TrimOfTrimmed(s: string)
    requires s == [] || (!IsSpace(s[0]) && !IsSpace(s[|s| - 1]))
    ensures Trim(s) == s
  {
  }

  /** Trimming is idempotent. */
  lemma {:induction false} TrimIdempotent(s: string)
    ensures Trim(Trim(s)) == Trim(s)
  {
    TrimEnds(s);
    TrimOfTrimmed(Trim(s));
  }

  /** Leading and trailing white space around a trimmed string is exactly what `trim` removes. */
  lemma {:induction false} TrimPadded(pre: string, t: string, post: string)
    requires forall i :: 0 <= i < |pre| ==> IsSpace(pre[i])
    requires forall i :: 0 <= i < |post| ==> IsSpace(post[i])
    requires t != [] && !IsSpace(t[0]) && !IsSpace(t[|t| - 1])
    ensures Trim(pre + t + post) == t
  {
    var s := pre + t + post;
    StartOfPadded(pre, t + post);
    assert pre + t + post == pre + (t + post);
    EndOfPadded(t, post);
  }

  lemma {:induction false} StartOfPadded(pre: string, u: string)
    requires forall i :: 0 <= i < |pre| ==> IsSpace(pre[i])
    requires u != [] && !IsSpace(u[0])
    ensures TrimStart(pre + u) == u
  {
    if pre != [] {
      assert (pre + u)[1..] == pre[1..] + u;
      StartOfPadded(pre[1..], u);
    }
  }

  lemma {:induction false} EndOfPadded(t: string, post: string)
    requires forall i :: 0 <= i < |post| ==> IsSpace(post[i])
    requires t != [] && !IsSpace(t[|t| - 1])
    ensures TrimEnd(t + post) == t
  {
    if post != [] {
      var p := post[..|post| - 1];
      assert (t + post)[..|t + post| - 1] == t + p;
      EndOfPadded(t, p);
    }
  }

  /** `toLowerCase` on one character: ASCII and Latin-1 capitals (the rest of Unicode is left alone). */
  function LowerChar(c: char): char {
    if 'A' <= c <= 'Z' || ('\U{C0}' <= c <= '\U{DE}' && c != '\U{D7}') then
      (c as int + 32) as char
    else c
  }

  /** `s.toLowerCase()`, character by character. */
  function ToLower(s: string): string {
    seq(|s|, i requires 0 <= i < |s| => LowerChar(s[i]))
  }

  predicate IsPrefix(p: string, s: string) {
    |p| <= |s| && s[..|p|] == p
  }

  /** `s.includes(sub)`: `sub` occurs somewhere in `s`. */
  predicate Contains(s: string, sub: string)
    decreases |s|
  {
    IsPrefix(sub, s) || (s != [] && Contains(s[1..], sub))
  }

  /** Every string includes the empty string. */
  lemma {:induction false} ContainsEmpty(s: string)
    ensures Contains(s, "")
  {
  }

  /** `includes` finds `sub` wherever it stands in the string. */
  lemma {:induction false} ContainsInfix(a: string, sub: string, b: string)
    ensures Contains(a + sub + b, sub)
  {
    if a == [] {
      assert a + sub + b == sub + b;
      assert (sub + b)[..|sub|] == sub;
    } else {
      assert (a + sub + b)[1..] == a[1..] + sub + b;
      ContainsInfix(a[1..], sub, b);
    }
  }

  /** `s.endsWith(q)`. */
  predicate EndsWith(s: string, q: string) {
    |q| <= |s| && s[|s| - |q|..] == q
  }

  lemma {:induction false} AppendStarts(a: string, b: string)
    ensures IsPrefix(a, a + b)
  {
    assert (a + b)[..|a|] == a;
  }

  lemma {:induction false} PrefixTrans(a: string, b: string, c: string)
    requires IsPrefix(a, b) && IsPrefix(b, c)
    ensures IsPrefix(a, c)
  {
    assert c[..|a|] == c[..|b|][..|a|];
  }

  lemma {:induction false} AppendEnds(a: string, b: string)
    ensures EndsWith(a + b, b)
  {
    assert (a + b)[|a|..] == b;
  }

  /**
   * Trimming a text wrapped in one line break on each side gives the text
   * back when it starts and ends with a visible character.
   */
  lemma {:induction false} TrimFramed(p: string, m: string, q: string)
    requires p != [] && !IsSpace(p[0])
    requires q != [] && !IsSpace(q[|q| - 1])
    ensures Trim("\n" + (p + m + q) + "\n") == p + m + q
  {
    var t := p + m + q;
    assert t[0] == p[0];
    assert t[|t| - 1] == q[|q| - 1];
    TrimPadded("\n", t, "\n");
  }

  /** A string includes whatever its last part includes. */
  lemma {:induction false} ContainsEnd(a: string, m: string, sub: string)
    requires Contains(m, sub)
    ensures Contains(a + m, sub)
  {
    ContainsWithin(a, m, "", sub);
    assert a + m + "" == a + m;
  }

  /** A string includes whatever its first part includes. */
  lemma {:induction false} ContainsStart(m: string, b: string, sub: string)
    requires Contains(m, sub)
    ensures Contains(m + b, sub)
  {
    ContainsWithin("", m, b, sub);
    assert "" + m + b == m + b;
  }

  /** A string includes its own last part. */
  lemma {:induction false} ContainsLast(a: string, sub: string)
    ensures Contains(a + sub, sub)
  {
    ContainsInfix(a, sub, "");
    assert a + sub + "" == a + sub;
  }

  /** `includes` is transitive. */
  lemma {:induction false} ContainsTrans(s: string, m: string, sub: string)
    requires Contains(s, m) && Contains(m, sub)
    ensures Contains(s, sub)
    decreases |s|
  {
    if IsPrefix(m, s) {
      assert s == "" + m + s[|m|..];
      ContainsWithin("", m, s[|m|..], sub);
    } else {
      ContainsTrans(s[1..], m, sub);
    }
  }

  /** What a string includes, any string that holds it includes too. */
  lemma {:induction false} ContainsWithin(a: string, m: string, b: string, sub: string)
    requires Contains(m, sub)
    ensures Contains(a + m + b, sub)
    decreases |m|
  {
    if IsPrefix(sub, m) {
      assert a + m + b == a + sub + (m[|sub|..] + b);
      ContainsInfix(a, sub, m[|sub|..] + b);
    } else {
      assert a + m + b == (a + [m[0]]) + m[1..] + b;
      ContainsWithin(a + [m[0]], m[1..], b, sub);
    }
  }

  /** `s.split(sep)` where the separator is any one character of `seps` (a one-character-class regex). */
  function SplitOn(s: string, seps: set<char>): (r: seq<string>)
    ensures |r| >= 1
    decreases |s|
  {
    if s == [] then [""]
    else
      var rest := SplitOn(s[1..], seps);
      if s[0] in seps then [""] + rest else [[s[0]] + rest[0]] + rest[1..]
  }
  /** The pieces after reading one more character: a cut opens a new piece, anything else extends the last. */
  function AddChar(r: seq<string>, c: char, cut: bool): (r': seq<string>)
    requires |r| >= 1
    ensures |r'| >= 1
  {
    if cut then r + [""] else r[..|r| - 1] + [r[|r| - 1] + [c]]
  }

  /** Reading a character and then putting a piece in front is putting it in front first. */
  lemma {:induction false} AddCharCons(x: string, r: seq<string>, c: char, cut: bool)
    requires |r| >= 1
    ensures [x] + AddChar(r, c, cut) == AddChar([x] + r, c, cut)
  {
    if !cut {
      assert ([x] + r)[..|r|] == [x] + r[..|r| - 1];
    }
  }

  /** Reading a character and then prefixing the first piece is prefixing it first. */
  lemma {:induction false} AddCharPrefix(a: char, r: seq<string>, c: char, cut: bool)
    requires |r| >= 1
    ensures var r' := AddChar(r, c, cut);
      [[a] + r'[0]] + r'[1..] == AddChar([[a] + r[0]] + r[1..], c, cut)
  {
    var r' := AddChar(r, c, cut);
    if cut {
      assert r'[0] == r[0] && r'[1..] == r[1..] + [""];
    } else if |r| == 1 {
      assert r' == [r[0] + [c]];
      assert [a] + (r[0] + [c]) == ([a] + r[0]) + [c];
    } else {
      assert r'[0] == r[0] && r'[1..] == r[1..|r| - 1] + [r[|r| - 1] + [c]];
      assert ([[a] + r[0]] + r[1..])[..|r| - 1] == [[a] + r[0]] + r[1..|r| - 1];
    }
  }

  /** Splitting a string extended by one character: a separator opens a new piece, anything else extends the last. */
  lemma {:induction false} SplitOnSnoc(p: string, c: char, seps: set<char>)
    ensures SplitOn(p + [c], seps) == AddChar(SplitOn(p, seps), c, c in seps)
    decreases |p|
  {
    if p == [] {
      assert [] + [c] == [c];
      if c !in seps {
        assert [c] + "" == "" + [c];
      }
    } else {
      assert (p + [c])[1..] == p[1..] + [c];
      SplitOnSnoc(p[1..], c, seps);
      if p[0] in seps {
        AddCharCons("", SplitOn(p[1..], seps), c, c in seps);
      } else {
        AddCharPrefix(p[0], SplitOn(p[1..], seps), c, c in seps);
      }
    }
  }

  /** How many characters of `s` are in `cs`. */
  function CountIn(s: string, cs: set<char>): nat {
    if s == [] then 0 else (if s[0] in cs then 1 else 0) + CountIn(s[1..], cs)
  }

  /** Splitting yields one more piece than there are separators, and no piece holds a separator. */
  lemma {:induction false} SplitOnPieces(s: string, seps: set<char>)
    ensures |SplitOn(s, seps)| == CountIn(s, seps) + 1
    ensures forall k, j :: 0 <= k < |SplitOn(s, seps)| && 0 <= j < |SplitOn(s, seps)[k]| ==>
      SplitOn(s, seps)[k][j] !in seps
  {
    if s != [] {
      SplitOnPieces(s[1..], seps);
    }
  }

  /** A string free of separators splits into itself alone. */
  lemma {:induction false} SplitOnNone(s: string, seps: set<char>)
    requires forall j :: 0 <= j < |s| ==> s[j] !in seps
    ensures SplitOn(s, seps) == [s]
  {
    if s != [] {
      SplitOnNone(s[1..], seps);
      assert [s[0]] + s[1..] == s;
    }
  }

  /** Splitting at the first separator: what comes before it is the first piece. */
  lemma {:induction false} SplitOnFirst(a: string, c: char, b: string, seps: set<char>)
    requires forall j :: 0 <= j < |a| ==> a[j] !in seps
    requires c in seps
    ensures SplitOn(a + [c] + b, seps) == [a] + SplitOn(b, seps)
  {
    if a == [] {
      assert a + [c] + b == [c] + b;
      assert ([c] + b)[1..] == b;
    } else {
      var s := a + [c] + b;
      assert s[1..] == a[1..] + [c] + b;
      SplitOnFirst(a[1..], c, b, seps);
      assert [a[0]] + a[1..] == a;
    }
  }

  /** `xs.join(sep)`. */
  function Join(xs: seq<string>, sep: string): string {
    if xs == [] then ""
    else if |xs| == 1 then xs[0]
    else xs[0] + sep + Join(xs[1..], sep)
  }

  /**
   * The list derivation used for tags and objectives:
   * `raw.split(',').map(t => t.trim()).filter(t => t)`.
   */
  function CommaList(raw: string): seq<string> {
    NonEmptyTrimmed(SplitOn(raw, {','}))
  }

  /** `pieces.map(t => t.trim()).filter(t => t !== "")`. */
  function NonEmptyTrimmed(pieces: seq<string>): (r: seq<string>)
    ensures |r| <= |pieces|
  {
    if pieces == [] then []
    else
      var t := Trim(pieces[0]);
      (if t == "" then [] else [t]) + NonEmptyTrimmed(pieces[1..])
  }

  /** A list item that survives its own derivation unchanged. */
  predicate IsCleanItem(x: string) {
    x != [] && !IsSpace(x[0]) && !IsSpace(x[|x| - 1]) && forall j :: 0 <= j < |x| ==> x[j] != ','
  }

  /** Every derived item is non-empty, has no white space at either end and holds no comma. */
  lemma {:induction false} CommaListItemsClean(raw: string)
    ensures forall k :: 0 <= k < |CommaList(raw)| ==> IsCleanItem(CommaList(raw)[k])
  {
    SplitOnPieces(raw, {','});
    NonEmptyTrimmedClean(SplitOn(raw, {','}));
  }

  lemma {:induction false} NonEmptyTrimmedClean(pieces: seq<string>)
    requires forall k, j :: 0 <= k < |pieces| && 0 <= j < |pieces[k]| ==> pieces[k][j] != ','
    ensures forall k :: 0 <= k < |NonEmptyTrimmed(pieces)| ==> IsCleanItem(NonEmptyTrimmed(pieces)[k])
  {
    if pieces != [] {
      NonEmptyTrimmedClean(pieces[1..]);
      TrimKeepsAbsent(pieces[0], ',');
      TrimEnds(pieces[0]);
    }
  }

  /** Trimming never introduces a character. */
  lemma {:induction false} TrimKeepsAbsent(p: string, c: char)
    requires forall j :: 0 <= j < |p| ==> p[j] != c
    ensures forall j :: 0 <= j < |Trim(p)| ==> Trim(p)[j] != c
  {
    var t := TrimStart(p);
    TrimStartSuffix(p);
    TrimEndPrefix(t);
  }

  /**
   * Joining clean items with ", " and deriving the list again gives the items back:
   * the editor's text field round-trips a saved list.
   */
  lemma {:induction false} CommaListJoin(xs: seq<string>)
    requires forall k :: 0 <= k < |xs| ==> IsCleanItem(xs[k])
    ensures CommaList(Join(xs, ", ")) == xs
  {
    JoinedPieces(xs, "");
    assert "" + Join(xs, ", ") == Join(xs, ", ");
  }

  /** The pieces of a ", "-joined list, the first one prefixed by `lead` (blanks only). */
  lemma {:induction false} JoinedPieces(xs: seq<string>, lead: string)
    requires forall k :: 0 <= k < |xs| ==> IsCleanItem(xs[k])
    requires forall j :: 0 <= j < |lead| ==> lead[j] == ' '
    requires xs == [] ==> lead == ""
    ensures NonEmptyTrimmed(SplitOn(lead + Join(xs, ", "), {','})) == xs
    decreases |xs|, 1
  {
    if xs == [] {
      JoinedNone(lead);
    } else if |xs| == 1 {
      JoinedSingle(xs[0], lead);
      assert Join(xs, ", ") == xs[0];
    } else {
      JoinedPiecesStep(xs, lead);
    }
  }

  lemma {:induction false} JoinedNone(lead: string)
    requires lead == ""
    ensures NonEmptyTrimmed(SplitOn(lead + Join([], ", "), {','})) == []
  {
    assert lead + Join([], ", ") == "";
    assert SplitOn("", {','}) == [""];
    assert Trim("") == "";
    NonEmptyTrimmedCons("", []);
  }

  lemma {:induction false} JoinedSingle(x: string, lead: string)
    requires IsCleanItem(x)
    requires forall j :: 0 <= j < |lead| ==> lead[j] == ' '
    ensures NonEmptyTrimmed(SplitOn(lead + x, {','})) == [x]
  {
    LeadingBlanks(lead, x);
    SplitOnNone(lead + x, {','});
    NonEmptyTrimmedCons(lead + x, []);
  }

  lemma {:induction false} JoinedPiecesStep(xs: seq<string>, lead: string)
    requires |xs| >= 2
    requires forall k :: 0 <= k < |xs| ==> IsCleanItem(xs[k])
    requires forall j :: 0 <= j < |lead| ==> lead[j] == ' '
    ensures NonEmptyTrimmed(SplitOn(lead + Join(xs, ", "), {','})) == xs
    decreases |xs|, 0
  {
    var x, tail := xs[0], xs[1..];
    var rest := Join(tail, ", ");
    assert IsCleanItem(x);
    LeadingBlanks(lead, x);
    assert Join(xs, ", ") == x + ", " + rest;
    JoinStep(lead, x, rest);
    SplitOnFirst(lead + x, ',', " " + rest, {','});
    var tailPieces := SplitOn(" " + rest, {','});
    assert SplitOn(lead + Join(xs, ", "), {','}) == [lead + x] + tailPieces;
    NonEmptyTrimmedCons(lead + x, tailPieces);
    assert forall j :: 0 <= j < |" "| ==> " "[j] == ' ';
    JoinedPieces(tail, " ");
    assert [x] + tail == xs;
  }

  lemma {:induction false} LeadingBlanks(lead: string, x: string)
    requires IsCleanItem(x)
    requires forall j :: 0 <= j < |lead| ==> lead[j] == ' '
    ensures Trim(lead + x) == x
    ensures forall j :: 0 <= j < |lead + x| ==> (lead + x)[j] != ','
  {
    TrimPadded(lead, x, "");
    assert lead + x + "" == lead + x;
    assert forall j :: 0 <= j < |lead| ==> (lead + x)[j] == lead[j];
    assert forall j :: |lead| <= j < |lead + x| ==> (lead + x)[j] == x[j - |lead|];
  }

  lemma {:induction false} JoinStep(lead: string, x: string, rest: string)
    ensures lead + (x + ", " + rest) == (lead + x) + [','] + (" " + rest)
  {
    assert ", " == [','] + " ";
  }

  lemma {:induction false} NonEmptyTrimmedCons(p: string, ps: seq<string>)
    ensures NonEmptyTrimmed([p] + ps) == (if Trim(p) == "" then [] else [Trim(p)]) + NonEmptyTrimmed(ps)
  {
    assert ([p] + ps)[1..] == ps;
  }

  /** `s.split(/\r\n|\n/)`: a lone `\r` is not a line break. */
  function SplitLines(s: string): (r: seq<string>)
    ensures |r| >= 1
    decreases |s|
  {
    if s == [] then [""]
    else if |s| >= 2 && s[0] == '\r' && s[1] == '\n' then [""] + SplitLines(s[2..])
    else if s[0] == '\n' then [""] + SplitLines(s[1..])
    else
      var rest := SplitLines(s[1..]);
      [[s[0]] + rest[0]] + rest[1..]
  }

  /** No line holds a `\n`. */
  lemma {:induction false} SplitLinesNoBreak(s: string)
    ensures forall k, j :: 0 <= k < |SplitLines(s)| && 0 <= j < |SplitLines(s)[k]| ==> SplitLines(s)[k][j] != '\n'
  {
    if s == [] {
    } else if |s| >= 2 && s[0] == '\r' && s[1] == '\n' {
      SplitLinesNoBreak(s[2..]);
    } else {
      SplitLinesNoBreak(s[1..]);
    }
  }

  /** `s.replace(/"/g, '')`. */
  function RemoveQuotes(s: string): (r: string)
    ensures |r| <= |s|
    ensures forall j :: 0 <= j < |r| ==> r[j] != '"'
  {
    if s == [] then "" else (if s[0] == '"' then "" else [s[0]]) + RemoveQuotes(s[1..])
  }

  /** A string without quotes is unchanged by removing them. */
  lemma {:induction false} RemoveQuotesNone(s: string)
    requires forall j :: 0 <= j < |s| ==> s[j] != '"'
    ensures RemoveQuotes(s) == s
  {
    if s != [] {
      RemoveQuotesNone(s[1..]);
      assert [s[0]] + s[1..] == s;
    }
  }

  /** Removing quotes from a lower-case text leaves it lower-case. */
  lemma {:induction false} RemoveQuotesKeepsLower(s: string)
    requires ToLower(s) == s
    ensures ToLower(RemoveQuotes(s)) == RemoveQuotes(s)
  {
    if s != [] {
      assert ToLower(s[1..]) == s[1..] by {
        forall j | 0 <= j < |s| - 1 ensures ToLower(s[1..])[j] == s[1..][j] {
          assert ToLower(s)[j + 1] == s[j + 1];
        }
      }
      RemoveQuotesKeepsLower(s[1..]);
      var h := if s[0] == '"' then "" else [s[0]];
      var t := RemoveQuotes(s[1..]);
      assert LowerChar(s[0]) == s[0] by { assert ToLower(s)[0] == s[0]; }
      assert ToLower(h + t) == h + t by {
        forall j | 0 <= j < |h + t| ensures ToLower(h + t)[j] == (h + t)[j] {
          if j < |h| {
            assert (h + t)[j] == s[0];
          } else {
            assert (h + t)[j] == t[j - |h|] && ToLower(t)[j - |h|] == t[j - |h|];
          }
        }
      }
    }
  }

  /** A lower-cased text is its own lower case. */
  lemma {:induction false} ToLowerIdempotent(s: string)
    ensures ToLower(ToLower(s)) == ToLower(s)
  {
    assert forall i :: 0 <= i < |s| ==> LowerChar(LowerChar(s[i])) == LowerChar(s[i]);
  }

  /** Removing quotes distributes over concatenation. */
  lemma {:induction false} RemoveQuotesAppend(a: string, b: string)
    ensures RemoveQuotes(a + b) == RemoveQuotes(a) + RemoveQuotes(b)
  {
    if a != [] {
      assert (a + b)[1..] == a[1..] + b;
      RemoveQuotesAppend(a[1..], b);
    } else {
      assert a + b == b;
    }
  }

  function DigitChar(d: nat): char
    requires d < 10
  {
    "0123456789"[d]
  }

  /** The decimal digits of a natural number, most significant first. */
  function NatToString(n: nat): (r: string)
    ensures r != []
    ensures forall j :: 0 <= j < |r| ==> '0' <= r[j] <= '9'
  {
    if n < 10 then [DigitChar(n)] else NatToString(n / 10) + [DigitChar(n % 10)]
  }

  /** An integer in a JavaScript template string or a PHP string concatenation. */
  function IntToString(i: int): string {
    if i < 0 then "-" + NatToString(-i) else NatToString(i)
  }

  /** The value of a string of decimal digits. */
  function DigitsValue(s: string): nat
    requires forall j :: 0 <= j < |s| ==> '0' <= s[j] <= '9'
  {
    if s == [] then 0 else DigitsValue(s[..|s| - 1]) * 10 + (s[|s| - 1] as int - '0' as int)
  }

  /** Reading the digits back gives the number: the rendering is injective. */
  lemma {:induction false} NatToStringValue(n: nat)
    ensures DigitsValue(NatToString(n)) == n
  {
    if n >= 10 {
      var s := NatToString(n);
      assert s[..|s| - 1] == NatToString(n / 10);
      NatToStringValue(n / 10);
    }
  }

  lemma {:induction false} LeadingChar(i: int)
    ensures IntToString(i) != [] && (IntToString(i)[0] == '-' <==> i < 0)
  {
    if i >= 0 {
      assert '0' <= NatToString(i)[0] <= '9';
    }
  }

  lemma {:induction false} NatToStringInjective(a: nat, b: nat)
    requires NatToString(a) == NatToString(b)
    ensures a == b
  {
    NatToStringValue(a);
    NatToStringValue(b);
  }

  /** Distinct integers render differently. */
  lemma {:induction false} IntToStringInjective(a: int, b: int)
    requires IntToString(a) == IntToString(b)
    ensures a == b
  {
    LeadingChar(a);
    LeadingChar(b);
    if a < 0 {
      assert IntToString(a)[1..] == NatToString(-a);
      assert IntToString(b)[1..] == NatToString(-b);
      NatToStringInjective(-a, -b);
    } else {
      NatToStringInjective(a, b);
    }
  }
}
