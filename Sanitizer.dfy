/**
 * `sanitizeRawText`: cutting the JSON payload out of a model's free-form
 * reply. Each regular expression of the source is written out as the string
 * function that gives the same match.
 */
module Sanitizer {
  import opened Wrappers
  import opened JsText

  const Fence := "```"

  /** No occurrence of a three-backtick fence anywhere in `s`. */
  predicate NoFence(s: string) {
    forall k :: 0 <= k <= |s| ==> !OccursAt(s, k, Fence)
  }

  /** Length of the optional tag after an opening fence: the first of json, js, text, txt that matches, in any case. */
  function TagLength(s: string, q: nat): (n: nat)
    requires q <= |s|
    ensures q + n <= |s|
    ensures n == 0 <==> forall k :: 0 <= k < |Tags| ==> !MatchesCi(s, q, Tags[k])
    ensures n > 0 ==> exists k :: 0 <= k < |Tags| && MatchesCi(s, q, Tags[k]) && n == |Tags[k]| &&
                                  forall j :: 0 <= j < k ==> !MatchesCi(s, q, Tags[j])
  {
    if MatchesCi(s, q, Tags[0]) then 4
    else if MatchesCi(s, q, Tags[1]) then 2
    else if MatchesCi(s, q, Tags[2]) then 4
    else if MatchesCi(s, q, Tags[3]) then 3
    else 0
  }

  const Tags := ["json", "js", "text", "txt"]

  /** A tag is made of letters, so no backtick can be part of it. */
  lemma {:induction false} TagHasNoBacktick(s: string, q: nat)
    requires q <= |s|
    ensures forall k :: q <= k < q + TagLength(s, q) ==> s[k] != '`'
  {
    var n := TagLength(s, q);
    if n > 0 {
      var i :| 0 <= i < |Tags| && MatchesCi(s, q, Tags[i]) && n == |Tags[i]|;
      var t := Tags[i];
      assert forall x :: 0 <= x < |t| ==> 'a' <= t[x] <= 'z';
      forall k | q <= k < q + n ensures s[k] != '`' {
        assert LowerAscii(s[k]) == t[k - q];
      }
    }
  }

  /** No fence starts among the tag and white-space characters that follow an opening fence. */
  lemma {:induction false} NoFenceInPrelude(s: string, q: nat)
    requires q <= |s|
    ensures forall c :: q <= c < SkipSpaces(s, q + TagLength(s, q)) ==> !OccursAt(s, c, Fence)
  {
    TagHasNoBacktick(s, q);
    var a := SkipSpaces(s, q + TagLength(s, q));
    forall c | q <= c < a ensures !OccursAt(s, c, Fence) {
      if c >= q + TagLength(s, q) { assert IsSpace(s[c]); }
      FenceStartsWithBacktick(s, c);
    }
  }

  lemma {:induction false} FenceStartsWithBacktick(s: string, c: nat)
    ensures c < |s| && s[c] != '`' ==> !OccursAt(s, c, Fence)
  {
    if c + 3 <= |s| {
      assert s[c..c + 3][0] == s[c];
    }
  }

  lemma {:induction false} OccursInSlice(s: string, a: nat, b: nat, k: nat, pat: string)
    requires a <= b <= |s|
    ensures OccursAt(s[a..b], k, pat) ==> OccursAt(s, a + k, pat)
  {
    if k + |pat| <= b - a {
      var u, v := s[a..b][k..k + |pat|], s[a + k..a + k + |pat|];
      assert forall x :: 0 <= x < |u| ==> u[x] == v[x];
      assert u == v;
    }
  }

  /** A piece of `s` lying wholly before the first fence at or after `a` contains no fence. */
  lemma {:induction false} NoFenceBefore(s: string, a: nat, b: nat, c: nat)
    requires a <= b <= c <= |s|
    requires forall k :: a <= k < c ==> !OccursAt(s, k, Fence)
    ensures NoFence(s[a..b])
  {
    forall k | 0 <= k <= b - a ensures !OccursAt(s[a..b], k, Fence) {
      OccursInSlice(s, a, b, k, Fence);
    }
  }

  /** Where the captured text may start: after the opening fence at `p`, its tag and the white space after it. */
  function ContentStart(s: string, p: nat): (a: nat)
    requires p + 3 <= |s|
    ensures p + 3 <= a <= |s|
  {
    SkipSpaces(s, p + 3 + TagLength(s, p + 3))
  }

  /** Two fences, the second starting after the first ends. */
  predicate TwoFences(s: string) {
    exists p, c :: 0 <= p && p + 3 <= c <= |s| && OccursAt(s, p, Fence) && OccursAt(s, c, Fence)
  }

  /** The two searches of the match succeed exactly when the text holds two fences. */
  lemma {:induction false} FencesFound(s: string)
    ensures TwoFences(s) <==>
              FindFrom(s, Fence, 0).Some? && FindFrom(s, Fence, ContentStart(s, FindFrom(s, Fence, 0).value)).Some?
  {
    var first := FindFrom(s, Fence, 0);
    if first.Some? {
      var p := first.value;
      var a := ContentStart(s, p);
      NoFenceInPrelude(s, p + 3);
      var second := FindFrom(s, Fence, a);
      if second.Some? {
        var c := second.value;
        assert 0 <= p && p + 3 <= c <= |s| && OccursAt(s, p, Fence) && OccursAt(s, c, Fence);
      }
      if TwoFences(s) {
        var p', c' :| 0 <= p' && p' + 3 <= c' <= |s| && OccursAt(s, p', Fence) && OccursAt(s, c', Fence);
        assert p <= p';
        assert a <= c' <= |s|;
      }
    }
  }

  /** The text between the content start `a` and the closing fence at `c`, without its trailing white space. */
  lemma {:induction false} CaptureShape(s: string, p: nat, c: nat)
    requires p + 3 <= |s| && ContentStart(s, p) <= c <= |s|
    requires forall k :: ContentStart(s, p) <= k < c ==> !OccursAt(s, k, Fence)
    ensures var a := ContentStart(s, p); var b := BackSpaces(s, a, c);
      IsSlice(s[a..b], s) && IsTrimmed(s[a..b]) && NoFence(s[a..b])
  {
    var a := ContentStart(s, p);
    var b := BackSpaces(s, a, c);
    SliceOf(s, a, b);
    NoFenceBefore(s, a, b, c);
    if a < b {
      assert s[a..b][0] == s[a];
      assert s[a..b][b - a - 1] == s[b - 1];
    }
  }

  /**
   * The capture group of ```` /```(?:json|js|text|txt)?\s*([\s\S]*?)\s*```/i ````:
   * after the first fence, its tag and the white space after it, the shortest
   * text that is followed by white space and another fence.
   */
  function FenceContent(s: string): (r: Option<string>)
    ensures r.None? <==> !TwoFences(s)
    ensures r.Some? ==> exists p, c :: CaptureBetween(s, p, c, r.value)
    ensures r.Some? ==> IsSlice(r.value, s) && IsTrimmed(r.value) && NoFence(r.value)
  {
    FencesFound(s);
    match FindFrom(s, Fence, 0)
    case None => None
    case Some(p) =>
      var a := ContentStart(s, p);
      match FindFrom(s, Fence, a)
      case None => None
      case Some(c) =>
        CaptureShape(s, p, c);
        CaptureIs(s, p, c);
        Some(s[a..BackSpaces(s, a, c)])
  }

  /** `p` is where the first fence of `s` starts. */
  predicate FirstFenceAt(s: string, p: nat) {
    OccursAt(s, p, Fence) && forall k :: 0 <= k < p ==> !OccursAt(s, k, Fence)
  }

  /** `c` is where the first fence at or after `a` starts. */
  predicate NextFenceAt(s: string, a: nat, c: nat) {
    a <= c && OccursAt(s, c, Fence) && forall k :: a <= k < c ==> !OccursAt(s, k, Fence)
  }

  /** `t` is the text from `a` on, up to the run of white space that ends at `c`. */
  predicate UpToSpaces(s: string, a: nat, c: nat, t: string) {
    a + |t| <= c <= |s| && t == s[a..a + |t|] && AllSpace(s[a + |t|..c]) && (t == [] || !IsSpace(t[|t| - 1]))
  }

  /**
   * `t` is what the group captures when the first fence of `s` is at `p` and the
   * closing fence at `c`: the text from after the opening fence, its tag and the
   * white space after them, up to the white space in front of the first fence
   * that follows.
   */
  predicate CaptureBetween(s: string, p: nat, c: nat, t: string) {
    p + 3 <= |s| && FirstFenceAt(s, p) && NextFenceAt(s, ContentStart(s, p), c) &&
    UpToSpaces(s, ContentStart(s, p), c, t)
  }

  lemma {:induction false} CaptureIs(s: string, p: nat, c: nat)
    requires FindFrom(s, Fence, 0) == Some(p) && p + 3 <= |s|
    requires FindFrom(s, Fence, ContentStart(s, p)) == Some(c)
    ensures var a := ContentStart(s, p); CaptureBetween(s, p, c, s[a..BackSpaces(s, a, c)])
  {
    var a := ContentStart(s, p);
    BeforeSpaces(s, a, c);
  }

  lemma {:induction false} BeforeSpaces(s: string, a: nat, c: nat)
    requires a <= c <= |s|
    ensures UpToSpaces(s, a, c, s[a..BackSpaces(s, a, c)])
  {
    var b := BackSpaces(s, a, c);
    var t := s[a..b];
    assert a + |t| == b;
    assert forall x :: 0 <= x < c - b ==> s[b..c][x] == s[b + x];
    if t != [] {
      assert t[|t| - 1] == s[b - 1];
    }
  }

  /** The phrases of the alternation, in the order it tries them. */
  const Phrases: seq<string> :=
    ["here is the json", "here's the json", "here is the json requested", "output:", "answer:", "here is the output"]

  /** The length of the first phrase, from index `k` of the list on, that matches at `i` ignoring case. */
  function FirstPhrase(s: string, i: nat, k: nat): (r: Option<nat>)
    requires k <= |Phrases|
    ensures r.Some? ==> i + r.value <= |s| && r.value > 0
    ensures r.None? <==> forall j :: k <= j < |Phrases| ==> !MatchesCi(s, i, Phrases[j])
    ensures r.Some? ==> exists j :: k <= j < |Phrases| && FirstPhraseIs(s, i, k, j) && r.value == |Phrases[j]|
    decreases |Phrases| - k
  {
    if k == |Phrases| then None
    else if MatchesCi(s, i, Phrases[k]) then Some(|Phrases[k]|)
    else FirstPhrase(s, i, k + 1)
  }

  /** Phrase `j` matches at `i`, and none of the phrases from `k` up to it does. */
  predicate FirstPhraseIs(s: string, i: nat, k: nat, j: nat)
    requires j < |Phrases|
  {
    MatchesCi(s, i, Phrases[j]) && forall m :: k <= m < j ==> !MatchesCi(s, i, Phrases[m])
  }

  /** The class `[:s-]` under the `i` flag: a colon, a hyphen or the letter s in either case (not white space). */
  predicate IsPhraseTail(c: char) { c == ':' || c == 's' || c == 'S' || c == '-' }

  /** Removing a match of `/^[\s\n\r\t]*(?:here is the json|…|here is the output)[:s-]*\/i`. */
  function StripLeadPhrase(s: string): (r: string)
    ensures IsSlice(r, s)
    ensures FirstPhrase(s, SkipSpaces(s, 0), 0).None? ==> r == s
    ensures FirstPhrase(s, SkipSpaces(s, 0), 0).Some? ==>
              |r| < |s| && r == s[|s| - |r|..] &&
              TailRun(s, SkipSpaces(s, 0) + FirstPhrase(s, SkipSpaces(s, 0), 0).value, |s| - |r|)
  {
    var w := SkipSpaces(s, 0);
    match FirstPhrase(s, w, 0)
    case None => SliceOf(s, 0, |s|); s
    case Some(n) =>
      var e := RunEnd(s, w + n, IsPhraseTail);
      SliceOf(s, e, |s|);
      s[e..]
  }

  /** `s[from..e]` is the whole run of characters of the class `[:s-]` that starts at `from`. */
  predicate TailRun(s: string, from: nat, e: nat) {
    from <= e <= |s| && (forall x :: from <= x < e ==> IsPhraseTail(s[x])) && (e == |s| || !IsPhraseTail(s[e]))
  }

  predicate IsBacktick(c: char) { c == '`' }

  /** `.replace(/^[`]+/, "").replace(/[`]+$/, "")`. */
  function StripBackticks(s: string): (r: string)
    ensures IsSlice(r, s)
    ensures exists i, j :: 0 <= i <= j <= |s| && r == s[i..j] && AllBackticks(s[..i]) && AllBackticks(s[j..])
    ensures r == [] || (r[0] != '`' && r[|r| - 1] != '`')
  {
    var i := RunEnd(s, 0, IsBacktick);
    var j := RunStart(s, i, |s|, IsBacktick);
    SliceOf(s, i, j);
    assert AllBackticks(s[..i]) && AllBackticks(s[j..]);
    s[i..j]
  }

  predicate AllBackticks(t: string) { forall k :: 0 <= k < |t| ==> t[k] == '`' }

  /** Dropping everything before the first `{` when there is something before it. */
  function FromFirstBrace(s: string): (r: string)
    ensures IsSlice(r, s)
    ensures '{' !in s ==> r == s
    ensures '{' in s ==> r != [] && r[0] == '{' && r == s[|s| - |r|..] && '{' !in s[..|s| - |r|]
  {
    var i := IndexOf(s, '{');
    if i > 0 then SliceOf(s, i, |s|); s[i..] else SliceOf(s, 0, |s|); s
  }

  /** The working string after the fence step: the trimmed capture when it is not empty. */
  function Fenced(raw: string): (r: string)
    ensures IsSlice(r, raw)
  {
    match FenceContent(raw)
    case Some(c) => if c != [] then SliceTrans(Trim(c), c, raw); Trim(c) else SliceOf(raw, 0, |raw|); raw
    case None => SliceOf(raw, 0, |raw|); raw
  }

  /** The working string just before the cut at the first brace. */
  function Intermediate(raw: string): (r: string)
    ensures IsSlice(r, raw)
  {
    var f := Fenced(raw);
    var p := StripLeadPhrase(f);
    var b := StripBackticks(p);
    SliceTrans(p, f, raw);
    SliceTrans(b, p, raw);
    b
  }

  /** `sanitizeRawText`. */
  function Sanitize(raw: string): string {
    if raw == [] then "{}" else Trim(FromFirstBrace(Intermediate(raw)))
  }

  /** Trimming a text that starts with `{` keeps that brace first. */
  lemma {:induction false} TrimKeepsBrace(f: string)
    requires f != [] && f[0] == '{'
    ensures Trim(f) != [] && Trim(f)[0] == '{'
  {
    assert !IsSpace(f[0]);
    assert SkipSpaces(f, 0) == 0;
    var j := BackSpaces(f, 0, |f|);
    assert j > 0;
  }

  /**
   * An empty reply becomes "{}"; otherwise the result is a trimmed piece of the
   * reply, never longer than it, which starts with `{` whenever the text it was
   * cut from (after the fence, phrase and backtick steps) contains one.
   */
  lemma {:induction false} SanitizeShape(raw: string)
    ensures raw == [] ==> Sanitize(raw) == "{}"
    ensures raw != [] ==> IsSlice(Sanitize(raw), raw) && |Sanitize(raw)| <= |raw|
    ensures IsTrimmed(Sanitize(raw))
    ensures raw != [] && '{' in Intermediate(raw) ==> Sanitize(raw) != [] && Sanitize(raw)[0] == '{'
  {
    if raw != [] {
      var m := Intermediate(raw);
      var f := FromFirstBrace(m);
      TrimIsSlice(f);
      SliceTrans(f, m, raw);
      SliceTrans(Trim(f), f, raw);
      if '{' in m {
        TrimKeepsBrace(f);
      }
    }
  }

  /**
   * A reply that is already a clean JSON object text (trimmed, starting with `{`,
   * no fence in it and not ending in a backtick, in particular one without any
   * backtick) comes back unchanged.
   */
  lemma {:induction false} SanitizeFixedPoint(s: string)
    requires s != [] && IsTrimmed(s) && s[0] == '{'
    requires NoFence(s) && s[|s| - 1] != '`'
    ensures Sanitize(s) == s
  {
    assert FenceContent(s) == None;
    CleanSteps(s);
  }

  /** No phrase starts with `{`, so a text that does is left alone by the phrase step. */
  lemma {:induction false} NoPhraseAtBrace(s: string)
    requires s != [] && s[0] == '{'
    ensures StripLeadPhrase(s) == s
  {
    assert SkipSpaces(s, 0) == 0;
    forall k | 0 <= k < |Phrases| ensures !MatchesCi(s, 0, Phrases[k]) {
      assert 'a' <= Phrases[k][0] <= 'z';
      NoMatchAtBrace(s, Phrases[k]);
    }
    NoPhrase(s, 0);
  }

  lemma {:induction false} NoMatchAtBrace(s: string, p: string)
    requires s != [] && s[0] == '{' && p != [] && p[0] != '{'
    ensures !MatchesCi(s, 0, p)
  {
    assert LowerAscii(s[0]) == '{';
  }

  lemma {:induction false} NoPhrase(s: string, k: nat)
    requires k <= |Phrases|
    requires forall j :: k <= j < |Phrases| ==> !MatchesCi(s, 0, Phrases[j])
    ensures FirstPhrase(s, 0, k) == None
    decreases |Phrases| - k
  {
    if k < |Phrases| {
      NoPhrase(s, k + 1);
    }
  }

  /** Hence sanitizing twice changes nothing more when the first pass already produced such a text. */
  lemma {:induction false} SanitizeIdempotentOnCleanOutput(raw: string)
    requires var s := Sanitize(raw); s != [] && s[0] == '{' && NoFence(s) && s[|s| - 1] != '`'
    ensures Sanitize(Sanitize(raw)) == Sanitize(raw)
  {
    SanitizeShape(raw);
    SanitizeFixedPoint(Sanitize(raw));
  }

  /** Without the last hypothesis sanitizing is not idempotent: a trailing backtick survives the first pass behind a space. */
  lemma {:induction false} SanitizeNotIdempotent()
    ensures Sanitize("{a` ") == "{a`"
    ensures Sanitize("{a`") == "{a"
  {
    FirstPassKeepsBacktick();
    SecondPassDropsIt();
  }

  lemma {:induction false} FirstPassKeepsBacktick()
    ensures Sanitize("{a` ") == "{a`"
  {
    var s := "{a` ";
    FirstPassSteps();
    BraceFirst(s);
    TrimExample();
  }

  lemma {:induction false} TrimExample()
    ensures Trim("{a` ") == "{a`"
  {
    var s := "{a` ";
    assert s[0] == '{' && s[2] == '`' && s[3] == ' ';
    assert SkipSpaces(s, 0) == 0;
    assert BackSpaces(s, 0, 3) == 3;
    assert BackSpaces(s, 0, 4) == 3;
  }

  lemma {:induction false} FirstPassSteps()
    ensures Intermediate("{a` ") == "{a` "
  {
    var s := "{a` ";
    assert s[0] == '{' && s[1] == 'a' && s[2] == '`' && s[3] == ' ';
    assert !OccursAt(s, 0, Fence) by { assert s[0..3][0] == '{'; }
    assert !OccursAt(s, 1, Fence) by { assert s[1..4][0] == 'a'; }
    assert FenceContent(s) == None;
    assert Fenced(s) == s;
    NoPhraseAtBrace(s);
    assert RunEnd(s, 0, IsBacktick) == 0;
    assert RunStart(s, 0, 4, IsBacktick) == 4;
  }

  lemma {:induction false} SecondPassDropsIt()
    ensures Sanitize("{a`") == "{a"
  {
    SecondPassSteps();
    var u := "{a";
    assert u[0] == '{' && u[1] == 'a';
    CleanAfterSteps("{a`");
  }

  /** When the steps before the cut already leave a trimmed text starting with `{`, that text is the result. */
  lemma {:induction false} CleanAfterSteps(raw: string)
    requires raw != [] && Intermediate(raw) != [] && Intermediate(raw)[0] == '{' && IsTrimmed(Intermediate(raw))
    ensures Sanitize(raw) == Intermediate(raw)
  {
    BraceFirst(Intermediate(raw));
    TrimOfTrimmed(Intermediate(raw));
  }

  /** A text that starts with `{` is left alone by the cut at the first brace. */
  lemma {:induction false} BraceFirst(u: string)
    requires u != [] && u[0] == '{'
    ensures FromFirstBrace(u) == u
  {
    assert IndexOf(u, '{') == 0;
  }

  lemma {:induction false} SecondPassSteps()
    ensures Intermediate("{a`") == "{a"
  {
    var t := "{a`";
    assert t[0] == '{' && t[1] == 'a' && t[2] == '`';
    assert !OccursAt(t, 0, Fence) by { assert t[0..3][0] == '{'; }
    assert FenceContent(t) == None;
    assert Fenced(t) == t;
    NoPhraseAtBrace(t);
    assert RunEnd(t, 0, IsBacktick) == 0;
    assert RunStart(t, 0, 2, IsBacktick) == 2;
    assert RunStart(t, 0, 3, IsBacktick) == 2;
    assert StripBackticks(t) == "{a";
  }

  /** A fenced reply with a tag: the fence, the tag and the surrounding white space go. */
  lemma {:induction false} FencedReply()
    ensures Sanitize("```json\n{}\n```") == "{}"
  {
    FencedReplyCapture();
    var s := "```json\n{}\n```";
    assert Fenced(s) == "{}" by { TrimOfTrimmed("{}"); }
    CleanSteps("{}");
  }

  lemma {:induction false} FencedReplyCapture()
    ensures FenceContent("```json\n{}\n```") == Some("{}")
  {
    var s := "```json\n{}\n```";
    FencedReplyOpening();
    FencedReplyClosing();
    assert s[8..10] == "{}";
  }

  lemma {:induction false} FencedReplyOpening()
    ensures var s := "```json\n{}\n```";
      FindFrom(s, Fence, 0) == Some(0) && TagLength(s, 3) == 4 && SkipSpaces(s, 7) == 8
  {
    var s := "```json\n{}\n```";
    assert s[..3] == Fence;
    assert OccursAt(s, 0, Fence);
    assert MatchesCi(s, 3, "json");
    assert IsSpace(s[7]) && !IsSpace(s[8]);
  }

  lemma {:induction false} FencedReplyClosing()
    ensures var s := "```json\n{}\n```";
      FindFrom(s, Fence, 8) == Some(11) && BackSpaces(s, 8, 11) == 10
  {
    var s := "```json\n{}\n```";
    assert s[11..14] == Fence;
    assert !OccursAt(s, 8, Fence) by { assert s[8..11][0] == '{'; }
    assert !OccursAt(s, 9, Fence) by { assert s[9..12][0] == '}'; }
    assert !OccursAt(s, 10, Fence) by { assert s[10..13][0] == '\n'; }
    assert IsSpace(s[10]) && !IsSpace(s[9]);
  }

  /** The steps after the fence leave a clean object text alone. */
  lemma {:induction false} CleanSteps(s: string)
    requires s != [] && IsTrimmed(s) && s[0] == '{'
    requires NoFence(s) && s[|s| - 1] != '`'
    ensures StripBackticks(StripLeadPhrase(s)) == s
    ensures Trim(FromFirstBrace(s)) == s
  {
    NoPhraseAtBrace(s);
    assert RunEnd(s, 0, IsBacktick) == 0;
    assert RunStart(s, 0, |s|, IsBacktick) == |s|;
    assert StripBackticks(s) == s[0..|s|] == s;
    TrimOfTrimmed(s);
  }
}
