/**
 * `repairJson`: three attempts at reading the model's text as JSON, each on a
 * more aggressively rewritten text, and a partial record when all three fail.
 * Each global regular-expression replacement of the source is written out as a
 * left-to-right scan that tries the pattern at each position.
 */
module Repair {
  import opened Wrappers
  import opened JsText
  import opened Json

  predicate IsCloser(c: char) { c == '}' || c == ']' }

  /** `.replace(/,\s*([}\]])/g, "$1")`: a comma, white space and a closing bracket become the bracket. */
  function DropTrailingCommas(s: string): string
    decreases |s|
  {
    if s == [] then []
    else if s[0] == ',' && SkipSpaces(s, 1) < |s| && IsCloser(s[SkipSpaces(s, 1)]) then
      var e := SkipSpaces(s, 1);
      [s[e]] + DropTrailingCommas(s[e + 1..])
    else [s[0]] + DropTrailingCommas(s[1..])
  }

  predicate IsWordChar(c: char) { 'a' <= c <= 'z' || 'A' <= c <= 'Z' || '0' <= c <= '9' || c == '_' }
  predicate IsQuote(c: char) { c == '\'' || c == '"' }

  /** Where a match of `(['"])?([a-zA-Z0-9_]+)(['"])?:` starting at the front of `s` puts the word and the colon. */
  datatype KeyMatch = KeyMatch(wordStart: nat, wordEnd: nat, colon: nat)

  /**
   * The pattern matches at the front of `s` with the word in `s[j..e]` and the
   * colon at `k`: an optional quote, a run of word characters, an optional quote, a colon.
   */
  predicate KeyPatternAt(s: string, j: nat, e: nat, k: nat) {
    j <= 1 && j < e <= k <= e + 1 && k < |s| &&
    (j == 1 ==> IsQuote(s[0])) &&
    (forall i :: j <= i < e ==> IsWordChar(s[i])) &&
    (k == e + 1 ==> IsQuote(s[e])) &&
    s[k] == ':'
  }

  /** Where the pattern matches at the front of `s`, if it matches; no pattern has two ways of matching there. */
  function KeyAt(s: string): (r: Option<KeyMatch>)
    ensures r.Some? ==> r.value.wordStart < r.value.wordEnd <= r.value.colon < |s|
    ensures r.Some? ==> r.value.wordStart <= 1 && r.value.colon <= r.value.wordEnd + 1
    ensures r.Some? ==> forall i :: 0 <= i < r.value.wordStart ==> IsQuote(s[i])
    ensures r.Some? ==> forall i :: r.value.wordStart <= i < r.value.wordEnd ==> IsWordChar(s[i])
    ensures r.Some? ==> forall i :: r.value.wordEnd <= i < r.value.colon ==> IsQuote(s[i])
    ensures r.Some? ==> s[r.value.colon] == ':'
  {
    var j := if s != [] && IsQuote(s[0]) then 1 else 0;
    var e := RunEnd(s, j, IsWordChar);
    var k := if e < |s| && IsQuote(s[e]) then e + 1 else e;
    if j < e && k < |s| && s[k] == ':' then Some(KeyMatch(j, e, k)) else None
  }

  /** Wherever the pattern matches at the front of `s`, that match is the one `KeyAt` reports. */
  lemma {:induction false} KeyAtComplete(s: string, j: nat, e: nat, k: nat)
    requires KeyPatternAt(s, j, e, k)
    ensures KeyAt(s) == Some(KeyMatch(j, e, k))
  {
    KeyMatchIsUnique(s, j, e, k);
  }

  lemma {:induction false} KeyMatchIsUnique(s: string, j: nat, e: nat, k: nat)
    requires KeyPatternAt(s, j, e, k)
    ensures j == (if IsQuote(s[0]) then 1 else 0)
    ensures e == RunEnd(s, j, IsWordChar)
    ensures k == (if IsQuote(s[e]) then e + 1 else e)
  {
    if j == 0 {
      assert IsWordChar(s[0]);
    }
    assert !IsWordChar(s[e]);
    RunEndIs(s, j, e, IsWordChar);
  }

  /** What a matched key becomes: the word in double quotes, then the colon. */
  function QuotedKey(w: string): string { ['"'] + w + ['"', ':'] }

  /** `.replace(/(['"])?([a-zA-Z0-9_]+)(['"])?:/g, '"$2":')`: every word before a colon gets double quotes. */
  function QuoteKeys(s: string): string
    decreases |s|
  {
    if s == [] then []
    else match KeyAt(s)
      case Some(m) => QuotedKey(s[m.wordStart..m.wordEnd]) + QuoteKeys(s[m.colon + 1..])
      case None => [s[0]] + QuoteKeys(s[1..])
  }

  predicate IsLetterS(c: char) { c == 's' }

  /** Where a match of `:s*'([^']*)'` starting at the front of `s` puts the quoted text and its closing quote. */
  datatype ValueMatch = ValueMatch(textStart: nat, closing: nat)

  /**
   * The pattern matches at the front of `s` with the quoted text in `s[t..c]`: a
   * colon, letters `s`, a quote, characters other than a quote, a quote.
   */
  predicate ValuePatternAt(s: string, t: nat, c: nat) {
    2 <= t <= c < |s| && s[0] == ':' &&
    (forall i :: 1 <= i < t - 1 ==> s[i] == 's') && s[t - 1] == '\'' &&
    (forall i :: t <= i < c ==> s[i] != '\'') && s[c] == '\''
  }

  /** Where the pattern matches at the front of `s`, if it matches; no pattern has two ways of matching there. */
  function ValueAt(s: string): (r: Option<ValueMatch>)
    ensures r.Some? ==> 0 < r.value.textStart <= r.value.closing < |s|
    ensures r.Some? ==> s[0] == ':' && s[r.value.textStart - 1] == '\'' && s[r.value.closing] == '\''
    ensures r.Some? ==> forall i :: 1 <= i < r.value.textStart - 1 ==> s[i] == 's'
    ensures r.Some? ==> forall i :: r.value.textStart <= i < r.value.closing ==> s[i] != '\''
  {
    if s != [] && s[0] == ':' then
      var e := RunEnd(s, 1, IsLetterS);
      if e < |s| && s[e] == '\'' then
        var f := IndexOf(s[e + 1..], '\'');
        if f >= 0 then Some(ValueMatch(e + 1, e + 1 + f)) else None
      else None
    else None
  }

  /** What the scan of `ValueAt` computes when the pattern matches with the text in `s[t..c]`. */
  predicate ValueAtIs(s: string, t: nat, c: nat)
    requires 1 <= t <= |s|
  {
    RunEnd(s, 1, IsLetterS) == t - 1 && IndexOf(s[t..], '\'') == c - t
  }

  /** Wherever the pattern matches at the front of `s`, that match is the one `ValueAt` reports. */
  lemma {:induction false} ValueAtComplete(s: string, t: nat, c: nat)
    requires ValuePatternAt(s, t, c)
    ensures ValueAt(s) == Some(ValueMatch(t, c))
  {
    ValueMatchIsUnique(s, t, c);
  }

  lemma {:induction false} ValueMatchIsUnique(s: string, t: nat, c: nat)
    requires ValuePatternAt(s, t, c)
    ensures ValueAtIs(s, t, c)
  {
    assert !IsLetterS(s[t - 1]);
    RunEndIs(s, 1, t - 1, IsLetterS);
    var u := s[t..];
    assert u[c - t] == '\'';
    var before := u[..c - t];
    assert '\'' !in before by {
      forall i | 0 <= i < |before| ensures before[i] != '\'' {
        assert before[i] == s[t + i];
      }
    }
    assert IndexOf(u, '\'') >= 0;
  }

  /** What a matched value becomes: the colon, then the text in double quotes. */
  function QuotedValue(t: string): string { [':', '"'] + t + ['"'] }

  /**
   * `.replace(/:s*'([^']*)'/g, ':"$1"')`: a colon, any number of letters `s`
   * (the pattern has a literal `s` where `\s` was evidently meant) and a
   * single-quoted text become the colon and the text in double quotes.
   */
  function RequoteValues(s: string): string
    decreases |s|
  {
    if s == [] then []
    else match ValueAt(s)
      case Some(m) => QuotedValue(s[m.textStart..m.closing]) + RequoteValues(s[m.closing + 1..])
      case None => [s[0]] + RequoteValues(s[1..])
  }

  /** The text of the second attempt. */
  function Cleaned(s: string): string {
    RequoteValues(QuoteKeys(DropTrailingCommas(s)))
  }

  /** The text of the third attempt: as many `}` appended as there are more `{` than `}`. */
  function Balanced(t: string): (r: string)
    ensures Count(t, '{') > Count(t, '}') ==> r == t + Repeat('}', Count(t, '{') - Count(t, '}'))
    ensures Count(t, '{') <= Count(t, '}') ==> r == t
  {
    var open := Count(t, '{');
    var close := Count(t, '}');
    if open > close then t + Repeat('}', open - close) else t
  }

  /** `{ partial: true, error, rawText }`. */
  function PartialRecord(error: string, rawText: string): Json {
    JObj([Member("partial", JBool(true)), Member("error", JStr(error)), Member("rawText", JStr(rawText))])
  }

  /** `repairJson(jsonStr)`. It never throws: the last resort is the partial record. */
  function RepairJson(s: string): (r: Json)
    ensures Parse(s).Ok? ==> r == Parse(s).value
    ensures Parse(s).Err? && Parse(Cleaned(s)).Ok? ==> r == Parse(Cleaned(s)).value
    ensures Parse(s).Err? && Parse(Cleaned(s)).Err? && Parse(Balanced(Cleaned(s))).Ok? ==>
              r == Parse(Balanced(Cleaned(s))).value
    ensures Parse(s).Err? && Parse(Cleaned(s)).Err? && Parse(Balanced(Cleaned(s))).Err? ==>
              r == PartialRecord(Parse(Balanced(Cleaned(s))).error, s)
  {
    match Parse(s)
    case Ok(v) => v
    case Err(_) =>
      var t := Cleaned(s);
      match Parse(t)
      case Ok(v) => v
      case Err(_) =>
        match Parse(Balanced(t))
        case Ok(v) => v
        case Err(m) => PartialRecord(m, s)
  }

  // ---------------------------------------------------------------------------
  // What each rewrite leaves alone
  // ---------------------------------------------------------------------------

  predicate KeptByCommaStep(c: char) { c != ',' && !IsSpace(c) }
  predicate NotQuote(c: char) { !IsQuote(c) }
  predicate KeptByValueStep(c: char) { !IsQuote(c) && c != 's' }

  lemma {:induction false} FilterAll(s: string, keep: char -> bool)
    requires forall i :: 0 <= i < |s| ==> keep(s[i])
    ensures Filter(s, keep) == s
    decreases |s|
  {
    if s != [] {
      FilterAll(s[..|s| - 1], keep);
    }
  }

  lemma {:induction false} FilterNone(s: string, keep: char -> bool)
    requires forall i :: 0 <= i < |s| ==> !keep(s[i])
    ensures Filter(s, keep) == []
    decreases |s|
  {
    if s != [] {
      FilterNone(s[..|s| - 1], keep);
    }
  }

  /** Splitting `s` at `n` splits what is kept of it. */
  lemma {:induction false} FilterSplit(s: string, n: nat, keep: char -> bool)
    requires n <= |s|
    ensures Filter(s, keep) == Filter(s[..n], keep) + Filter(s[n..], keep)
  {
    assert s == s[..n] + s[n..];
    FilterAppend(s[..n], s[n..], keep);
  }

  /** The comma step only removes commas and white space: every other character stays, in order. */
  lemma {:induction false} DropTrailingCommasKeeps(s: string)
    ensures Filter(DropTrailingCommas(s), KeptByCommaStep) == Filter(s, KeptByCommaStep)
    decreases |s|
  {
    if s != [] {
      if s[0] == ',' && SkipSpaces(s, 1) < |s| && IsCloser(s[SkipSpaces(s, 1)]) {
        var e := SkipSpaces(s, 1);
        DropTrailingCommasKeeps(s[e + 1..]);
        CommaRunKeeps(s, e);
        StepKeeps(s, e + 1, [s[e]], DropTrailingCommas(s[e + 1..]), KeptByCommaStep);
      } else {
        DropTrailingCommasKeeps(s[1..]);
        FilterAppend([s[0]], DropTrailingCommas(s[1..]), KeptByCommaStep);
        FilterSplit(s, 1, KeptByCommaStep);
        assert s[..1] == [s[0]];
      }
    }
  }

  /** Of a comma, white space and a closing bracket only the bracket is kept. */
  lemma {:induction false} CommaRunKeeps(s: string, e: nat)
    requires 0 < e < |s| && s[0] == ',' && IsCloser(s[e])
    requires forall k :: 1 <= k < e ==> IsSpace(s[k])
    ensures Filter([s[e]], KeptByCommaStep) == Filter(s[..e + 1], KeptByCommaStep)
  {
    FilterSplit(s[..e + 1], e, KeptByCommaStep);
    assert s[..e + 1][..e] == s[..e];
    FilterNone(s[..e], KeptByCommaStep);
    assert s[..e + 1][e..] == [s[e]];
  }

  /**
   * One step of a scan: when the text emitted for the first `n` characters keeps
   * what they keep, and the rest of the output keeps what the rest of the input
   * keeps, the whole output keeps what the input keeps.
   */
  lemma {:induction false} StepKeeps(s: string, n: nat, piece: string, rest: string, keep: char -> bool)
    requires n <= |s|
    requires Filter(piece, keep) == Filter(s[..n], keep)
    requires Filter(rest, keep) == Filter(s[n..], keep)
    ensures Filter(piece + rest, keep) == Filter(s, keep)
  {
    FilterAppend(piece, rest, keep);
    FilterSplit(s, n, keep);
  }

  /** How many characters one step of the key scan consumes, and what it writes for them. */
  function KeyStepLength(s: string): (n: nat)
    requires s != []
    ensures 0 < n <= |s|
  {
    match KeyAt(s)
    case Some(m) => m.colon + 1
    case None => 1
  }

  function KeyPiece(s: string): string
    requires s != []
  {
    match KeyAt(s)
    case Some(m) => QuotedKey(s[m.wordStart..m.wordEnd])
    case None => [s[0]]
  }

  lemma {:induction false} QuoteKeysStep(s: string)
    requires s != []
    ensures QuoteKeys(s) == KeyPiece(s) + QuoteKeys(s[KeyStepLength(s)..])
  {
  }

  lemma {:induction false} KeyPieceKeepsStep(s: string)
    requires s != []
    ensures Filter(KeyPiece(s), NotQuote) == Filter(s[..KeyStepLength(s)], NotQuote)
  {
    if KeyAt(s).Some? {
      var m := KeyAt(s).value;
      assert KeyPiece(s) == QuotedKey(s[m.wordStart..m.wordEnd]) && KeyStepLength(s) == m.colon + 1;
      KeyPieceKeeps(s, m);
    } else {
      assert KeyPiece(s) == [s[0]] && KeyStepLength(s) == 1;
      UnchangedStepKeeps(s, NotQuote);
    }
  }

  /** A step that copies the first character keeps what that character keeps. */
  lemma {:induction false} UnchangedStepKeeps(s: string, keep: char -> bool)
    requires s != []
    ensures Filter([s[0]], keep) == Filter(s[..1], keep)
  {
    assert s[..1] == [s[0]];
  }

  /** The key step only adds or removes quote characters. */
  lemma {:induction false} QuoteKeysKeeps(s: string)
    ensures Filter(QuoteKeys(s), NotQuote) == Filter(s, NotQuote)
    decreases |s|
  {
    if s != [] {
      var n := KeyStepLength(s);
      QuoteKeysKeeps(s[n..]);
      QuoteKeysStep(s);
      KeyPieceKeepsStep(s);
      StepKeeps(s, n, KeyPiece(s), QuoteKeys(s[n..]), NotQuote);
    }
  }

  lemma {:induction false} FilterChar(c: char, keep: char -> bool)
    ensures Filter([c], keep) == if keep(c) then [c] else []
  {
    assert [c][..0] == [];
  }

  /** What is kept of three pieces in a row. */
  lemma {:induction false} FilterThree(a: string, b: string, c: string, keep: char -> bool)
    ensures Filter(a + b + c, keep) == Filter(a, keep) + Filter(b, keep) + Filter(c, keep)
  {
    FilterAppend(a + b, c, keep);
    FilterAppend(a, b, keep);
  }

  /** Quote characters around a word and before a colon: only the word and the colon are kept. */
  lemma {:induction false} KeyTextKeeps(open: string, w: string, mid: string)
    requires forall i :: 0 <= i < |open| ==> IsQuote(open[i])
    requires forall i :: 0 <= i < |w| ==> IsWordChar(w[i])
    requires forall i :: 0 <= i < |mid| ==> IsQuote(mid[i])
    ensures Filter(open + w + (mid + ":"), NotQuote) == w + ":"
  {
    QuotesThenColon(mid);
    WordBetweenQuotes(open, w, mid + ":");
  }

  lemma {:induction false} QuotesThenColon(mid: string)
    requires forall i :: 0 <= i < |mid| ==> IsQuote(mid[i])
    ensures Filter(mid + ":", NotQuote) == ":"
  {
    FilterNone(mid, NotQuote);
    FilterChar(':', NotQuote);
    FilterAppend(mid, ":", NotQuote);
  }

  lemma {:induction false} WordBetweenQuotes(open: string, w: string, rest: string)
    requires forall i :: 0 <= i < |open| ==> IsQuote(open[i])
    requires forall i :: 0 <= i < |w| ==> IsWordChar(w[i])
    requires Filter(rest, NotQuote) == ":"
    ensures Filter(open + w + rest, NotQuote) == w + ":"
  {
    FilterAll(w, NotQuote);
    FilterNone(open, NotQuote);
    FilterThree(open, w, rest, NotQuote);
  }

  /** The matched key text and its replacement keep the same non-quote characters: the word and the colon. */
  lemma {:induction false} KeyPieceKeeps(s: string, m: KeyMatch)
    requires KeyAt(s) == Some(m)
    ensures Filter(QuotedKey(s[m.wordStart..m.wordEnd]), NotQuote) == Filter(s[..m.colon + 1], NotQuote)
  {
    var w := s[m.wordStart..m.wordEnd];
    var open, mid := s[..m.wordStart], s[m.wordEnd..m.colon];
    assert s[..m.colon + 1] == open + w + (mid + ":");
    KeyTextKeeps(open, w, mid);
    assert QuotedKey(w) == ['"'] + w + (['"'] + ":");
    KeyTextKeeps(['"'], w, ['"']);
  }

  /** How many characters one step of the value scan consumes, and what it writes for them. */
  function ValueStepLength(s: string): (n: nat)
    requires s != []
    ensures 0 < n <= |s|
  {
    match ValueAt(s)
    case Some(m) => m.closing + 1
    case None => 1
  }

  function ValuePiece(s: string): string
    requires s != []
  {
    match ValueAt(s)
    case Some(m) => QuotedValue(s[m.textStart..m.closing])
    case None => [s[0]]
  }

  lemma {:induction false} RequoteValuesStep(s: string)
    requires s != []
    ensures RequoteValues(s) == ValuePiece(s) + RequoteValues(s[ValueStepLength(s)..])
  {
  }

  lemma {:induction false} ValuePieceKeepsStep(s: string)
    requires s != []
    ensures Filter(ValuePiece(s), KeptByValueStep) == Filter(s[..ValueStepLength(s)], KeptByValueStep)
  {
    if ValueAt(s).Some? {
      var m := ValueAt(s).value;
      assert ValuePiece(s) == QuotedValue(s[m.textStart..m.closing]) && ValueStepLength(s) == m.closing + 1;
      ValuePieceKeeps(s, m);
    } else {
      assert ValuePiece(s) == [s[0]] && ValueStepLength(s) == 1;
      UnchangedStepKeeps(s, KeptByValueStep);
    }
  }

  /** The value step only adds or removes quote characters and letters `s`. */
  lemma {:induction false} RequoteValuesKeeps(s: string)
    ensures Filter(RequoteValues(s), KeptByValueStep) == Filter(s, KeptByValueStep)
    decreases |s|
  {
    if s != [] {
      var n := ValueStepLength(s);
      RequoteValuesKeeps(s[n..]);
      RequoteValuesStep(s);
      ValuePieceKeepsStep(s);
      StepKeeps(s, n, ValuePiece(s), RequoteValues(s[n..]), KeptByValueStep);
    }
  }

  /** Kept of a colon followed by letters `s` or a double quote: the colon. */
  lemma {:induction false} ColonOpening(open: string)
    requires open != [] && open[0] == ':'
    requires forall i :: 1 <= i < |open| ==> !KeptByValueStep(open[i])
    ensures Filter(open, KeptByValueStep) == ":"
  {
    FilterSplit(open, 1, KeptByValueStep);
    assert open[..1] == [':'];
    FilterChar(':', KeptByValueStep);
    FilterNone(open[1..], KeptByValueStep);
  }

  lemma {:induction false} QuotedTextKeeps(open: string, t: string, close: char)
    requires Filter(open, KeptByValueStep) == ":" && IsQuote(close)
    ensures Filter(open + t + [close], KeptByValueStep) == ":" + Filter(t, KeptByValueStep)
  {
    FilterChar(close, KeptByValueStep);
    FilterThree(open, t, [close], KeptByValueStep);
  }

  lemma {:induction false} ValuePieceKeeps(s: string, m: ValueMatch)
    requires ValueAt(s) == Some(m)
    ensures Filter(QuotedValue(s[m.textStart..m.closing]), KeptByValueStep) == Filter(s[..m.closing + 1], KeptByValueStep)
  {
    MatchedValueKeeps(s, m);
    ReplacementKeeps(s[m.textStart..m.closing]);
  }

  lemma {:induction false} MatchedValueKeeps(s: string, m: ValueMatch)
    requires ValueAt(s) == Some(m)
    ensures Filter(s[..m.closing + 1], KeptByValueStep) == ":" + Filter(s[m.textStart..m.closing], KeptByValueStep)
  {
    var t := s[m.textStart..m.closing];
    var open := s[..m.textStart];
    assert s[..m.closing + 1] == open + t + [s[m.closing]];
    ColonOpening(open);
    QuotedTextKeeps(open, t, s[m.closing]);
  }

  lemma {:induction false} ReplacementKeeps(t: string)
    ensures Filter(QuotedValue(t), KeptByValueStep) == ":" + Filter(t, KeptByValueStep)
  {
    ColonOpening([':', '"']);
    QuotedTextKeeps([':', '"'], t, '"');
  }

  /** None of the rewrites of the second attempt adds or removes a brace. */
  lemma {:induction false} CleanedKeepsBraces(s: string, c: char)
    requires c == '{' || c == '}'
    ensures Count(Cleaned(s), c) == Count(s, c)
  {
    var a := DropTrailingCommas(s);
    var b := QuoteKeys(a);
    DropTrailingCommasKeeps(s);
    CountFilter(a, KeptByCommaStep, c);
    CountFilter(s, KeptByCommaStep, c);
    QuoteKeysKeeps(a);
    CountFilter(b, NotQuote, c);
    CountFilter(a, NotQuote, c);
    RequoteValuesKeeps(b);
    CountFilter(Cleaned(s), KeptByValueStep, c);
    CountFilter(b, KeptByValueStep, c);
  }

  /** After the third rewrite there are at least as many `}` as `{`, and exactly as many when it appended any. */
  lemma {:induction false} BalancedCounts(t: string)
    ensures Count(Balanced(t), '{') == Count(t, '{')
    ensures Count(Balanced(t), '{') <= Count(Balanced(t), '}')
    ensures Count(t, '{') > Count(t, '}') ==> Count(Balanced(t), '}') == Count(t, '{')
  {
    var open := Count(t, '{');
    var close := Count(t, '}');
    if open > close {
      AppendedClosers(t, open - close);
    }
  }

  /** Appending `n` closing braces adds `n` to their count and none to the opening ones'. */
  lemma {:induction false} AppendedClosers(t: string, n: nat)
    ensures Count(t + Repeat('}', n), '{') == Count(t, '{')
    ensures Count(t + Repeat('}', n), '}') == Count(t, '}') + n
  {
    CountAppend(t, Repeat('}', n), '{');
    CountAppend(t, Repeat('}', n), '}');
    CountRepeat('}', n);
    NoOtherInRepeat('}', n, '{');
  }

  lemma {:induction false} NoOtherInRepeat(c: char, n: nat, d: char)
    requires c != d
    ensures Count(Repeat(c, n), d) == 0
  {
    if n > 0 {
      NoOtherInRepeat(c, n - 1, d);
      CountAppend([c], Repeat(c, n - 1), d);
      assert Count([c], d) == Count([], d);
    }
  }

  /** The brace counts the third attempt compares are those of the text it was given before the rewrites. */
  lemma {:induction false} ThirdAttemptText(s: string)
    ensures Count(s, '{') > Count(s, '}') ==>
              Balanced(Cleaned(s)) == Cleaned(s) + Repeat('}', Count(s, '{') - Count(s, '}'))
    ensures Count(s, '{') <= Count(s, '}') ==> Balanced(Cleaned(s)) == Cleaned(s)
  {
    CleanedKeepsBraces(s, '{');
    CleanedKeepsBraces(s, '}');
  }

  /** A space between the colon and the quote stops the value rewrite: the pattern wants letters `s` there. */
  lemma {:induction false} SpacedValueKept(s: string, i: nat)
    requires i + 1 < |s| && s[i] == ':' && s[i + 1] == ' '
    ensures ValueAt(s[i..]).None?
  {
    assert s[i..][1] == ' ';
  }

  /** Letters `s` between the colon and the quote are swallowed by the value rewrite. */
  lemma {:induction false} LettersSSwallowed(w: string, rest: string)
    requires '\'' !in w
    ensures RequoteValues(":ss'" + w + "'" + rest) == QuotedValue(w) + RequoteValues(rest)
  {
    var t := ":ss'" + w + "'" + rest;
    assert t[0] == ':' && t[1] == 's' && t[2] == 's' && t[3] == '\'';
    assert RunEnd(t, 1, IsLetterS) == 3;
    var u := t[4..];
    assert u == w + "'" + rest;
    assert u[|w|] == '\'';
    assert IndexOf(u, '\'') == |w|;
    assert ValueAt(t) == Some(ValueMatch(4, 4 + |w|));
    assert t[4..4 + |w|] == w;
    assert t[4 + |w| + 1..] == rest;
  }
  /** A word right before a colon is a key. */
  lemma {:induction false} WordKey(t: string, n: nat)
    requires KeyPatternAt(t, 0, n, n)
    ensures QuoteKeys(t) == QuotedKey(t[..n]) + QuoteKeys(t[n + 1..])
  {
    KeyAtComplete(t, 0, n, n);
    QuoteKeysStep(t);
    assert KeyPiece(t) == QuotedKey(t[0..n]) && KeyStepLength(t) == n + 1;
  }

  lemma {:induction false} QuoteKeysCopies(s: string)
    requires s != [] && KeyAt(s).None?
    ensures QuoteKeys(s) == [s[0]] + QuoteKeys(s[1..])
  {
    QuoteKeysStep(s);
  }

  /** Without a colon there is no key, and the text is copied. */
  lemma {:induction false} NoColonCopied(s: string)
    requires ':' !in s
    ensures QuoteKeys(s) == s
    decreases |s|
  {
    if s != [] {
      assert ':' !in s[1..];
      NoColonCopied(s[1..]);
    }
  }

  /** An unquoted key gets double quotes; the brace and the number around it are copied. */
  lemma {:induction false} BareKeyQuoted(s: string)
    requires s == "{a:1}"
    ensures QuoteKeys(s) == "{\"a\":1}"
  {
    var t := s[1..];
    var rest := t[2..];
    PartsOfA(s);
    BraceCopied(s);
    WordKey(t, 1);
    NoColonCopied(rest);
    QuotedA(t[..1], rest);
  }

  lemma {:induction false} PartsOfA(s: string)
    requires s == "{a:1}"
    ensures s != [] && s[0] == '{' && |s| == 5
    ensures KeyPatternAt(s[1..], 0, 1, 1) && s[1..][..1] == "a" && s[1..][2..] == "1}" && ':' !in s[1..][2..]
  {
    var t := s[1..];
    assert t == "a:1}";
    assert t[2..] == "1}";
  }

  lemma {:induction false} QuotedA(a: string, rest: string)
    requires a == "a" && rest == "1}"
    ensures "{" + (QuotedKey(a) + rest) == "{\"a\":1}"
  {
  }

  /** A brace is never part of a key: it is copied. */
  lemma {:induction false} BraceCopied(s: string)
    requires s != [] && s[0] == '{'
    ensures QuoteKeys(s) == "{" + QuoteKeys(s[1..])
  {
    assert !IsWordChar(s[0]);
    RunEndIs(s, 0, 0, IsWordChar);
    QuoteKeysCopies(s);
  }

  /** A single-quoted value after a colon gets double quotes. */
  lemma {:induction false} SingleQuotedValueRequoted()
    ensures RequoteValues(":'x'}") == ":\"x\"}"
  {
    var s := ":'x'}";
    ValueAtComplete(s, 2, 3);
    assert s[2..3] == "x" && s[4..] == "}";
    var u := "}";
    assert ValueAt(u).None?;
    assert RequoteValues(u) == u;
  }
}
