/** The pure logic inside the single-page UI: guessing the provider from an
    API key, turning a title into a file name, the window of neighbours each
    question is asked with, the token estimates, and the edits the UI makes to
    the loaded sheet. */
module App {
  import opened Wrappers
  import opened Text
  import opened Blocks
  import opened RecallFormat
  import opened Gateway

  // ------------------------------------------------------- detectProvider

  /** A provider name and the model used with it by default. */
  datatype Detected = Detected(name: string, defaultModel: string)

  /** `detectProvider`: the provider an API key most likely belongs to. */
  function DetectProvider(apiKey: string): (r: Option<Detected>)
    ensures StartsWith(apiKey, "sk-ant-") ==> r == Some(Detected("anthropic", "claude-3-5-haiku-20241022"))
    ensures StartsWith(apiKey, "sk-") && !StartsWith(apiKey, "sk-ant-") ==> r == Some(Detected("openai", "gpt-4o-mini"))
    ensures !StartsWith(apiKey, "sk-") && |apiKey| == 32 ==> r == Some(Detected("deepseek", "deepseek-chat"))
    ensures !StartsWith(apiKey, "sk-") && |apiKey| != 32 && StartsWith(apiKey, "AI") ==> r == Some(Detected("google", "gemini-1.5-flash"))
    ensures r.None? <==> !StartsWith(apiKey, "sk-") && |apiKey| != 32 && !StartsWith(apiKey, "AI")
  {
    if StartsWith(apiKey, "sk-") && !StartsWith(apiKey, "sk-ant-") then Some(Detected("openai", "gpt-4o-mini"))
    else if StartsWith(apiKey, "sk-ant-") then
      assert StartsWith(apiKey, "sk-") by { SkAntIsSk(apiKey); }
      Some(Detected("anthropic", "claude-3-5-haiku-20241022"))
    else if |apiKey| == 32 then Some(Detected("deepseek", "deepseek-chat"))
    else if StartsWith(apiKey, "AI") then Some(Detected("google", "gemini-1.5-flash"))
    else None
  }

  /** Every Anthropic key prefix is also an OpenAI key prefix, which is why
      the first test has to exclude it. */
  lemma SkAntIsSk(apiKey: string)
    ensures StartsWith(apiKey, "sk-ant-") ==> StartsWith(apiKey, "sk-")
  {
    if StartsWith(apiKey, "sk-ant-") {
      assert apiKey[..3] == apiKey[..7][..3];
    }
  }

  /** Every provider the guess can name is one the handler dispatches to, so
      a handler configured from a guess with a non-empty key never reports
      itself unconfigured or the provider unsupported. */
  lemma DetectedIsDispatchable(apiKey: string, c: Config, env: Env, system: string, user: string, extract: bool)
    requires DetectProvider(apiKey).Some? && apiKey != ""
    ensures var d := DetectProvider(apiKey).value;
      var r := Dispatch(Configure(c, d.name, apiKey, d.defaultModel), env, system, user, extract);
      && VendorOf(d.name).Some?
      && r != Failure(NotConfigured)
      && r != Failure(UnsupportedProvider(d.name))
  {
  }

  /** A 32-character key is taken for DeepSeek even when it looks like a
      Google key. */
  lemma DeepSeekBeforeGoogle(apiKey: string)
    requires |apiKey| == 32 && StartsWith(apiKey, "AI")
    ensures DetectProvider(apiKey) == Some(Detected("deepseek", "deepseek-chat"))
  {
    assert apiKey[..3][0] == 'A';
  }

  // -------------------------------------------------------- file names

  predicate Lower(c: char) { 'a' <= c <= 'z' }
  predicate Upper(c: char) { 'A' <= c <= 'Z' }
  predicate Digit(c: char) { '0' <= c <= '9' }

  /** A character a sanitised file name may contain. */
  predicate FileNameChar(c: char) { Lower(c) || Digit(c) || c == '_' }

  /** One character of `replace(/[^a-z0-9]/gi, '_').toLowerCase()`: an ASCII
      letter (either case, as the `i` flag makes the class match both) or
      digit survives and is lowered; anything else becomes `_`. */
  function SanitizeChar(c: char): (r: char)
    ensures FileNameChar(r)
    ensures Lower(c) || Digit(c) ==> r == c
    ensures Upper(c) ==> r == (c as int + 32) as char
    ensures !(Lower(c) || Upper(c) || Digit(c)) ==> r == '_'
  {
    if Upper(c) then (c as int + 32) as char
    else if Lower(c) || Digit(c) then c
    else '_'
  }

  /** The file name a title is saved under, before the extension. */
  function Sanitize(title: string): (r: string)
    ensures |r| == |title|
    ensures forall k :: 0 <= k < |r| ==> r[k] == SanitizeChar(title[k])
    decreases |title|
  {
    if |title| == 0 then "" else [SanitizeChar(title[0])] + Sanitize(title[1..])
  }

  /** A sanitised name holds only lower-case letters, digits and `_`, and a
      name made only of those comes through unchanged. */
  lemma SanitizeSafe(title: string)
    ensures forall k :: 0 <= k < |Sanitize(title)| ==> FileNameChar(Sanitize(title)[k])
    ensures (forall k :: 0 <= k < |title| ==> FileNameChar(title[k])) ==> Sanitize(title) == title
  {
  }

  lemma {:induction false} SanitizeIdempotent(title: string)
    ensures Sanitize(Sanitize(title)) == Sanitize(title)
  {
    SanitizeSafe(title);
    SanitizeSafe(Sanitize(title));
  }

  /** `saveToFile`'s download name. */
  function FileName(base: string): (r: string)
    ensures StartsWith(r, base) && r[|base|..] == ".recall"
  {
    base + ".recall"
  }

  // ----------------------------------------------------- session window

  /** The block a question is asked about in `nextQuestion`, with up to two
      blocks on either side. */
  function SessionWindow(blocks: seq<Block>, i: nat): (r: Window)
    requires i < |blocks|
    ensures r.main == blocks[i]
    ensures |r.before| == Min(2, i) && r.before == blocks[i - |r.before|..i]
    ensures |r.after| == Min(2, |blocks| - 1 - i) && r.after == blocks[i + 1..i + 1 + |r.after|]
  {
    Window(blocks[i], Slice(blocks, Max(0, i - 2), i), Slice(blocks, i + 1, i + 3))
  }

  /** The UI's window agrees with the file handler's context lookup at
      context size two. */
  lemma SessionMatchesHandler(sheet: Sheet, i: nat)
    requires i < |sheet.information|
    ensures GetInformationBlockWithContext(Some(sheet), i, 2).Some?
    ensures SessionWindow(sheet.information, i) == GetInformationBlockWithContext(Some(sheet), i, 2).value.window
  {
  }

  /** `nextQuestion`'s pick, with the `Math.random()` draw passed in: nothing
      when the list is empty, otherwise the window around
      `floor(draw * length)`. */
  function NextQuestionWindow(blocks: seq<Block>, draw: real): (r: Option<Window>)
    requires 0.0 <= draw < 1.0
    ensures r.None? <==> |blocks| == 0
    ensures r.Some? ==> exists i :: 0 <= i < |blocks| && r.value == SessionWindow(blocks, i)
  {
    if |blocks| == 0 then None
    else
      var i := FloorIndex(draw, |blocks|);
      Some(SessionWindow(blocks, i))
  }

  /** The window is one contiguous run of the list. */
  lemma SessionContiguous(blocks: seq<Block>, i: nat)
    requires i < |blocks|
    ensures var w := SessionWindow(blocks, i);
      w.before + [w.main] + w.after == blocks[i - |w.before|..i + 1 + |w.after|]
  {
    var w := SessionWindow(blocks, i);
    RunAround(blocks, i - |w.before|, i, i + 1 + |w.after|);
  }

  // ------------------------------------------------------------- tokens

  /** `Math.ceil(n / 4)`: the token estimate for `n` characters. */
  function EstimateTokens(n: nat): (r: nat)
    ensures 4 * r >= n && 4 * r < n + 4
  {
    (n + 3) / 4
  }

  /** The running token totals. */
  datatype TokenStats = TokenStats(inTokens: nat, outTokens: nat)

  /** `addTokens`: both totals grow by the amounts given. */
  function AddTokens(t: TokenStats, inTokens: nat, outTokens: nat): (r: TokenStats)
    ensures r.inTokens - t.inTokens == inTokens && r.outTokens - t.outTokens == outTokens
  {
    TokenStats(t.inTokens + inTokens, t.outTokens + outTokens)
  }

  /** The totals never go down, and adding in two steps is adding the sums. */
  lemma AddTokensMonotone(t: TokenStats, i1: nat, o1: nat, i2: nat, o2: nat)
    ensures var r := AddTokens(t, i1, o1);
      r.inTokens >= t.inTokens && r.outTokens >= t.outTokens
    ensures AddTokens(AddTokens(t, i1, o1), i2, o2) == AddTokens(t, i1 + i2, o1 + o2)
  {
  }

  /** `blocks.reduce((sum, block) => sum + block.content.length, 0)`. */
  function TotalLength(blocks: seq<NewBlock>): nat
    decreases |blocks|
  {
    if |blocks| == 0 then 0 else |blocks[0].content| + TotalLength(blocks[1..])
  }

  /** The total length of a concatenation is the sum of the totals. */
  lemma {:induction false} TotalLengthAppend(a: seq<NewBlock>, b: seq<NewBlock>)
    ensures TotalLength(a + b) == TotalLength(a) + TotalLength(b)
    decreases |a|
  {
    if |a| > 0 {
      assert (a + b)[1..] == a[1..] + b;
      TotalLengthAppend(a[1..], b);
    } else {
      assert a + b == b;
    }
  }

  // ------------------------------------------------------- edit view

  /** The edit view's state: the loaded sheet and the token totals. */
  datatype Editor = Editor(sheet: Sheet, tokens: TokenStats)

  /** The blocks `processInfo` pushes: each keeps only the processed content,
      under the id minted for its position. */
  function Minted(blocks: seq<NewBlock>, mint: nat -> BlockId, from: nat): (r: seq<Block>)
    ensures |r| == |blocks|
    ensures forall k :: 0 <= k < |r| ==> r[k] == Block(mint(from + k), blocks[k].content, None)
    decreases |blocks|
  {
    if |blocks| == 0 then []
    else [Block(mint(from), blocks[0].content, None)] + Minted(blocks[1..], mint, from + 1)
  }

  /** `processInfo`, given the outcome of `processInformation` and the id
      minted for each new block. The outcome stands for
      `Pipeline.ProcessInformation(c, env, Trim(rawInfo), e.sheet.inputPrompt,
      e.sheet.contextPrompt, now)`, the one call the handler awaits;
      `Ingest.ProcessInfoReadsReply` follows a reply through it. Blank information
      does nothing; a failed call does nothing (the error is only shown);
      otherwise both estimates are added and the new blocks are appended after
      the existing ones. */
  function ProcessInfo(e: Editor, rawInfo: string, outcome: Result<seq<NewBlock>, CallError>, mint: nat -> BlockId): (r: Editor)
    ensures Trim(rawInfo) == "" || outcome.Failure? ==> r == e
    ensures Trim(rawInfo) != "" && outcome.Success? ==>
      var before := e.sheet.information;
      var added := outcome.value;
      var inLength := |Trim(rawInfo)| + |e.sheet.inputPrompt| + |e.sheet.contextPrompt|;
      && |r.sheet.information| == |before| + |added|
      && r.sheet.information[..|before|] == before
      && (forall k :: 0 <= k < |added| ==>
            r.sheet.information[|before| + k] == Block(mint(k), added[k].content, None))
      && r.sheet.(information := before) == e.sheet
      && 4 * (r.tokens.inTokens - e.tokens.inTokens) >= inLength
      && 4 * (r.tokens.inTokens - e.tokens.inTokens) < inLength + 4
      && 4 * (r.tokens.outTokens - e.tokens.outTokens) >= TotalLength(added)
      && 4 * (r.tokens.outTokens - e.tokens.outTokens) < TotalLength(added) + 4
  {
    var information := Trim(rawInfo);
    if information == "" then e
    else
      match outcome
      case Failure(_) => e
      case Success(added) =>
        var inTokens := EstimateTokens(|information| + |e.sheet.inputPrompt| + |e.sheet.contextPrompt|);
        var outTokens := EstimateTokens(TotalLength(added));
        var info := e.sheet.information + Minted(added, mint, 0);
        assert info[..|e.sheet.information|] == e.sheet.information;
        Editor(e.sheet.(information := info), AddTokens(e.tokens, inTokens, outTokens))
  }

  /** `removeBlock`: keeps exactly the blocks with another id, in order, and
      changes nothing else. The source compares with `!=`; ids are only ever
      compared, never coerced, so the model uses equality. */
  function RemoveBlock(sheet: Sheet, id: BlockId): (r: Sheet)
    ensures r.information == WithoutId(sheet.information, id)
    ensures forall b :: b in r.information <==> b in sheet.information && b.id != id
    ensures r.(information := sheet.information) == sheet
  {
    sheet.(information := WithoutId(sheet.information, id))
  }

  /** Removing the blocks `processInfo` just appended under a fresh id gives
      back the earlier list. */
  lemma RemoveFreshBlock(sheet: Sheet, content: string, id: BlockId)
    requires forall k :: 0 <= k < |sheet.information| ==> sheet.information[k].id != id
    ensures RemoveBlock(sheet.(information := sheet.information + [Block(id, content, None)]), id) == sheet
  {
    WithoutIdAppend(sheet.information, [Block(id, content, None)], id);
    WithoutIdAbsent(sheet.information, id);
  }

  /** A file the UI offers for download: the sheet and the name it is saved
      under. */
  datatype Download = Download(sheet: Sheet, fileName: string)

  /** `downloadRecall`: the create form's fields, trimmed; a blank title
      becomes 'untitled', and a blank context, ingest or digest prompt stops
      the download. The sheet is a fresh one carrying the form's prompts. */
  function DownloadRecall(title: string, context: string, ingest: string, digest: string, defaults: Prompts, now: string)
    : (r: Option<Download>)
    ensures r.None? <==> Trim(context) == "" || Trim(ingest) == "" || Trim(digest) == ""
    ensures r.Some? ==>
      var name := if Trim(title) != "" then Trim(title) else "untitled";
      && r.value.sheet == Sheet(name, now, Trim(context), Trim(ingest), Trim(digest), [])
      && r.value.fileName == Sanitize(name) + ".recall"
  {
    var name := if Trim(title) != "" then Trim(title) else "untitled";
    if Trim(context) == "" || Trim(ingest) == "" || Trim(digest) == "" then None
    else
      var created := CreateNewRecallData(name, Prompts("", "", ""), defaults, now);
      var sheet := created.(contextPrompt := Trim(context), inputPrompt := Trim(ingest), outputPrompt := Trim(digest));
      Some(Download(sheet, FileName(Sanitize(name))))
  }

  /** A downloaded sheet reads back from its file unchanged, provided the
      title and the time are single lines, no prompt line reads as a
      separator, and the empty information list encodes and decodes. */
  lemma DownloadRoundTrip(title: string, context: string, ingest: string, digest: string, defaults: Prompts, now: string, codec: InfoCodec)
    requires DownloadRecall(title, context, ingest, digest, defaults, now).Some?
    requires NL !in title && HeaderSafe(now)
    requires NoSeparator(SplitLines(Trim(context))) && NoSeparator(SplitLines(Trim(ingest))) && NoSeparator(SplitLines(Trim(digest)))
    requires NoSeparator(SplitLines(codec.encode([]))) && codec.decode(Trim(codec.encode([]))) == Some([])
    ensures var d := DownloadRecall(title, context, ingest, digest, defaults, now).value;
      ParseRecallFile(FormatRecallFile(d.sheet, now, codec), codec) == d.sheet
  {
    var name := if Trim(title) != "" then Trim(title) else "untitled";
    TrimShape(title); TrimShape(context); TrimShape(ingest); TrimShape(digest);
    assert HeaderSafe(name) by {
      if Trim(title) != "" {
        assert forall c :: c in Trim(title) ==> c in title;
      } else {
        UntitledSafe();
      }
    }
    FreshSheetRoundTrip(name, now, Trim(context), Trim(ingest), Trim(digest), codec);
  }

  lemma UntitledSafe()
    ensures HeaderSafe("untitled")
  {
    var u := "untitled";
    assert forall k :: 0 <= k < |u| ==> u[k] != NL;
  }

  /** A sheet with no blocks, written with its own date, reads back. */
  lemma FreshSheetRoundTrip(name: string, now: string, context: string, ingest: string, digest: string, codec: InfoCodec)
    requires HeaderSafe(name) && HeaderSafe(now)
    requires PromptSafe(context) && PromptSafe(ingest) && PromptSafe(digest)
    requires NoSeparator(SplitLines(codec.encode([]))) && codec.decode(Trim(codec.encode([]))) == Some([])
    ensures var sheet := Sheet(name, now, context, ingest, digest, []);
      ParseRecallFile(FormatRecallFile(sheet, now, codec), codec) == sheet
  {
    var sheet := Sheet(name, now, context, ingest, digest, []);
    assert DateToWrite(sheet, now) == now;
    RoundTrip(sheet, now, codec);
  }

  /** `downloadEdited`: the edit form's fields verbatim, the current time as
      the edit date, and the blocks kept. */
  function DownloadEdited(sheet: Sheet, title: string, context: string, ingest: string, digest: string, now: string)
    : (r: Download)
    ensures r.sheet == sheet.(title := title, contextPrompt := context, inputPrompt := ingest,
                              outputPrompt := digest, dateLastEdited := now)
    ensures r.fileName == Sanitize(title) + ".recall"
  {
    var edited := sheet.(title := title, contextPrompt := context, inputPrompt := ingest,
                         outputPrompt := digest, dateLastEdited := now);
    Download(edited, FileName(Sanitize(title)))
  }

  /** An edit whose title and date are single trimmed lines and whose prompts
      are trimmed and hold no separator line is saved and read back exactly:
      the reloaded sheet carries the edited title and prompts. */
  lemma DownloadEditedRoundTrip(sheet: Sheet, title: string, context: string, ingest: string, digest: string,
                                now: string, codec: InfoCodec)
    requires HeaderSafe(title) && HeaderSafe(now)
    requires PromptSafe(context) && PromptSafe(ingest) && PromptSafe(digest)
    requires NoSeparator(SplitLines(codec.encode(sheet.information)))
    requires codec.decode(Trim(codec.encode(sheet.information))) == Some(sheet.information)
    ensures var d := DownloadEdited(sheet, title, context, ingest, digest, now).sheet;
      ParseRecallFile(FormatRecallFile(d, now, codec), codec) == d
  {
    var d := DownloadEdited(sheet, title, context, ingest, digest, now).sheet;
    RoundTrip(d, now, codec);
  }

  /** The other direction: an edited title that spans several lines or has
      whitespace at an end, or an edited prompt with whitespace at an end, does
      not survive saving and reloading the download. */
  lemma DownloadEditedReload(sheet: Sheet, title: string, context: string, ingest: string, digest: string,
                             now: string, codec: InfoCodec)
    ensures var d := DownloadEdited(sheet, title, context, ingest, digest, now).sheet;
      var back := ParseRecallFile(FormatRecallFile(d, now, codec), codec);
      && (back.title == title ==> HeaderSafe(title))
      && (back.contextPrompt == context ==> Trimmed(context))
      && (back.inputPrompt == ingest ==> Trimmed(ingest))
      && (back.outputPrompt == digest ==> Trimmed(digest))
  {
    var d := DownloadEdited(sheet, title, context, ingest, digest, now).sheet;
    ParsedFieldsTrimmed(FormatRecallFile(d, now, codec), codec);
  }
}
