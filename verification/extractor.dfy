/** The normalisation every model reply goes through before it is read as
    JSON: Markdown code fences are stripped, strict parsing is tried, and when
    it fails the widest bracketed span of the text is parsed instead. */
module Extractor {
  import opened Wrappers
  import opened Text
  import opened Json

  const FENCE: string := "```"
  const JSON_FENCE: string := "```json"

  // `s.replace(/<marker>\s*/g, '')`, or `s.replace(/<marker>/g, '')` when
  // `eatWs` is false: scanning from the left, each occurrence of the marker
  // (with the whitespace right after it when `eatWs`) is dropped, and the
  // scan resumes after the dropped text.
  function StripAll(s: string, marker: string, eatWs: bool): string
    requires |marker| > 0
    decreases |s|
  {
    if |s| == 0 then ""
    else if StartsWith(s, marker) then
      var rest := s[|marker|..];
      TrimStartShape(rest);
      StripAll(if eatWs then TrimStart(rest) else rest, marker, eatWs)
    else [s[0]] + StripAll(s[1..], marker, eatWs)
  }

  /** The fence cleaning applied to every reply: trim; if a ```json fence
      occurs, drop every ```json with the whitespace after it and then every
      remaining ```; if a ``` still occurs, drop every ``` with the
      whitespace after it. */
  function Clean(response: string): string {
    var c0 := Trim(response);
    var c1 := if Contains(c0, JSON_FENCE) then StripAll(StripAll(c0, JSON_FENCE, true), FENCE, false) else c0;
    if Contains(c1, FENCE) then StripAll(c1, FENCE, true) else c1
  }

  /** The number of backticks a text starts with. */
  function Ticks(s: string): nat
    decreases |s|
  {
    if |s| > 0 && s[0] == '`' then 1 + Ticks(s[1..]) else 0
  }

  /** A text starts with a fence exactly when it starts with three backticks. */
  lemma TicksFence(s: string)
    ensures StartsWith(s, FENCE) <==> Ticks(s) >= 3
  {
    var t1 := if |s| > 0 then s[1..] else "";
    var t2 := if |t1| > 0 then t1[1..] else "";
    if StartsWith(s, FENCE) {
      assert s[0] == s[..3][0] && s[1] == s[..3][1] && s[2] == s[..3][2];
      assert t1[0] == s[1] && t2[0] == s[2];
      assert Ticks(t2) >= 1;
      assert Ticks(t1) >= 2;
    }
    if Ticks(s) >= 3 {
      assert Ticks(t1) >= 2 && Ticks(t2) >= 1;
      assert s[0] == '`' && t1[0] == '`' && t2[0] == '`';
      assert s[..3] == FENCE;
    }
  }

  /** Whether `[c] + r` contains a fence: either it starts with one or `r`
      contains one. */
  lemma ContainsCons(c: char, r: string)
    ensures Contains([c] + r, FENCE) <==> StartsWith([c] + r, FENCE) || Contains(r, FENCE)
  {
    var s := [c] + r;
    assert s[1..] == r;
    if |s| < 3 {
      assert !Contains(r, FENCE);
    }
  }

  /** Dropping every fence leaves no fence: the text left behind starts with at
      most two backticks, and with no more than the input started with. */
  lemma {:induction false} StripFence(s: string, eatWs: bool)
    ensures var r := StripAll(s, FENCE, eatWs);
      !Contains(r, FENCE) && Ticks(r) <= 2 && Ticks(r) <= Ticks(s)
    decreases |s|
  {
    var r := StripAll(s, FENCE, eatWs);
    if |s| == 0 {
    } else if StartsWith(s, FENCE) {
      var rest := s[|FENCE|..];
      TrimStartShape(rest);
      StripFence(if eatWs then TrimStart(rest) else rest, eatWs);
      TicksFence(s);
    } else {
      var tail := StripAll(s[1..], FENCE, eatWs);
      StripFence(s[1..], eatWs);
      TicksFence(s);
      assert r == [s[0]] + tail;
      ContainsCons(s[0], tail);
      TicksFence(r);
      assert ([s[0]] + tail)[1..] == tail;
    }
  }

  /** After cleaning, no fence remains. */
  lemma CleanNoFence(response: string)
    ensures !Contains(Clean(response), FENCE)
  {
    var c0 := Trim(response);
    if Contains(c0, JSON_FENCE) {
      StripFence(StripAll(c0, JSON_FENCE, true), false);
    } else if Contains(c0, FENCE) {
      StripFence(c0, true);
    }
  }

  /** A reply with no fence in its trimmed text is only trimmed. */
  lemma CleanIdentity(response: string)
    requires !Contains(Trim(response), FENCE)
    ensures Clean(response) == Trim(response)
  {
    assert JSON_FENCE == FENCE + "json";
    if Contains(Trim(response), JSON_FENCE) {
      ContainsLonger(Trim(response), FENCE, "json");
    }
  }

  /** The position of the first `c` in `s`. */
  function FirstIndex(s: string, c: char): (r: Option<nat>)
    ensures r.None? <==> c !in s
    ensures r.Some? ==> r.value < |s| && s[r.value] == c && forall k :: 0 <= k < r.value ==> s[k] != c
    decreases |s|
  {
    if |s| == 0 then None
    else if s[0] == c then Some(0)
    else
      match FirstIndex(s[1..], c)
      case None => None
      case Some(i) =>
        assert forall k :: 1 <= k <= i ==> s[k] == s[1..][k - 1];
        Some(i + 1)
  }

  /** The position of the last `c` in `s`. */
  function LastIndex(s: string, c: char): (r: Option<nat>)
    ensures r.None? <==> c !in s
    ensures r.Some? ==> r.value < |s| && s[r.value] == c && forall k :: r.value < k < |s| ==> s[k] != c
    decreases |s|
  {
    if |s| == 0 then None
    else if s[|s| - 1] == c then Some(|s| - 1)
    else
      var r := LastIndex(s[..|s| - 1], c);
      assert forall k :: 0 <= k < |s| - 1 ==> s[k] == s[..|s| - 1][k];
      if r.None? then
        assert s == s[..|s| - 1] + [s[|s| - 1]];
        r
      else
        r
  }

  // `s.match(/\[[\s\S]*\]/)` with `open` and `close` for the brackets: the
  // leftmost match is the greedy span from the first `open` to the last
  // `close`, and there is a match exactly when some `open` comes before some
  // `close`.
  function Recover(s: string, open: char, close: char): (r: Option<string>)
    ensures r.Some? <==> exists i, j :: 0 <= i < j < |s| && s[i] == open && s[j] == close
    ensures r.Some? ==>
      exists i, j ::
        && 0 <= i < j < |s| && r.value == s[i..j + 1]
        && s[i] == open && (forall k :: 0 <= k < i ==> s[k] != open)
        && s[j] == close && (forall k :: j < k < |s| ==> s[k] != close)
  {
    match (FirstIndex(s, open), LastIndex(s, close))
    case (Some(i), Some(j)) =>
      if i < j then Some(s[i..j + 1])
      else
        assert forall a, b :: 0 <= a < b < |s| && s[a] == open ==> s[b] != close;
        None
    case (None, _) => None
    case (_, None) => None
  }

  /** Why reading a reply as JSON failed: strict parsing failed and no
      bracketed span exists, or the span exists but does not parse either. */
  datatype ExtractError = NoCandidate | CandidateInvalid

  /** The two-step read: `JSON.parse` on the cleaned text, and when that
      throws, `JSON.parse` on the recovered span. */
  function ExtractJson(cleaned: string, open: char, close: char, parse: string -> Option<Json>): (r: Result<Json, ExtractError>)
    ensures parse(cleaned).Some? ==> r == Success(parse(cleaned).value)
    ensures r.Success? ==>
      (|| parse(cleaned) == Some(r.value)
       || (Recover(cleaned, open, close).Some? && parse(Recover(cleaned, open, close).value) == Some(r.value)))
    ensures r == Failure(NoCandidate) <==> parse(cleaned).None? && Recover(cleaned, open, close).None?
  {
    match parse(cleaned)
    case Some(v) => Success(v)
    case None =>
      match Recover(cleaned, open, close)
      case None => Failure(NoCandidate)
      case Some(span) =>
        match parse(span)
        case Some(v) => Success(v)
        case None => Failure(CandidateInvalid)
  }
}
