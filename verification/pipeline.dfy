/** The three AI-handler operations built on one dispatched call: turning raw
    information into blocks, turning a block and its neighbours into a
    question, and probing the connection. Each reads the reply through the
    fence cleaning and JSON recovery, and each has a fallback. */
module Pipeline {
  import opened Wrappers
  import opened Text
  import opened Json
  import opened Blocks
  import opened RecallFormat
  import opened Extractor
  import opened Gateway

  // ------------------------------------------------- processInformation

  function ProcessSystemPrompt(contextPrompt: string, inputPrompt: string): string {
    contextPrompt + "\n\nProcessing Instructions: " + inputPrompt
  }

  /** The fixed instructions the processing user prompt opens with. */
  const PROCESS_USER_HEAD: string := "Process the following information according to the instructions. Break it into discrete, well-organized blocks of information. Return ONLY a valid JSON array where each element is a string containing one information block. No additional text or explanation.\n\nInformation to process:\n"

  function ProcessUserPrompt(information: string): string {
    PROCESS_USER_HEAD + information
  }

  /** The metadata of the `k`-th block produced from a reply. */
  function Stamp(now: string, k: nat): Json {
    JObject(map["createdAt" := JString(now), "index" := JNumber(k as real)])
  }

  /** The text of one array element: a string is trimmed, anything else is
      serialised. */
  function ItemText(item: Json, stringify: Json -> string): string {
    if item.JString? then Trim(item.s) else stringify(item)
  }

  /** `blocks.map((content, index) => ...)` over the elements from position
      `from` on. */
  function Number(items: seq<Json>, from: nat, now: string, stringify: Json -> string): (r: seq<NewBlock>)
    ensures |r| == |items|
    ensures forall k :: 0 <= k < |r| ==>
      r[k].content == ItemText(items[k], stringify) && r[k].metadata == Some(Stamp(now, from + k))
    decreases |items|
  {
    if |items| == 0 then []
    else [NewBlock(ItemText(items[0], stringify), Some(Stamp(now, from)))] + Number(items[1..], from + 1, now, stringify)
  }

  /** The single block of the fallback: the whole reply, trimmed, at index 0. */
  function FallbackBlocks(response: string, now: string): seq<NewBlock> {
    [NewBlock(Trim(response), Some(Stamp(now, 0)))]
  }

  /** How a reply text becomes blocks: the cleaned text (or its widest
      `[`...`]` span) must read as an array, giving one block per element;
      anything else falls back to one block. */
  function InterpretBlocks(response: string, env: Env, now: string): (r: seq<NewBlock>)
    ensures match ExtractJson(Clean(response), '[', ']', env.parse)
      case Success(JArray(items)) =>
        && |r| == |items|
        && forall k :: 0 <= k < |r| ==>
             r[k].content == ItemText(items[k], env.stringify) && r[k].metadata == Some(Stamp(now, k))
      case _ => r == [NewBlock(Trim(response), Some(Stamp(now, 0)))]
  {
    match ExtractJson(Clean(response), '[', ']', env.parse)
    case Success(JArray(items)) => Number(items, 0, now, env.stringify)
    case _ => FallbackBlocks(response, now)
  }

  /** What `processInformation` makes of the outcome of its call. A failed
      call propagates, since it is awaited outside the `try`; so does a reply
      that is not a string, since its `trim` throws inside the `try` and again
      in the fallback. Every string reply yields blocks. */
  function ProcessReply(d: Result<JsValue, CallError>, env: Env, now: string): (r: Result<seq<NewBlock>, CallError>)
    ensures d.Failure? ==> r == Failure(d.error)
    ensures d.Success? && !(d.value.Defined? && d.value.json.JString?) ==> r == Failure(NotText)
    ensures r.Success? <==> d.Success? && d.value.Defined? && d.value.json.JString?
    ensures r.Success? ==> r.value == InterpretBlocks(d.value.json.s, env, now)
  {
    match d
    case Failure(e) => Failure(e)
    case Success(reply) =>
      if reply.Defined? && reply.json.JString? then Success(InterpretBlocks(reply.json.s, env, now))
      else Failure(NotText)
  }

  /** `processInformation`: one call with the processing prompts, its reply
      read as blocks. */
  function ProcessInformation(c: Config, env: Env, information: string, inputPrompt: string, contextPrompt: string, now: string)
    : Result<seq<NewBlock>, CallError>
  {
    ProcessReply(Dispatch(c, env, ProcessSystemPrompt(contextPrompt, inputPrompt), ProcessUserPrompt(information), true), env, now)
  }

  /** `processInformation` makes exactly one call, with content extraction on:
      its system prompt starts with the context prompt and ends with the input
      prompt, its user prompt is the fixed instructions followed by the
      information verbatim, and the outcome is that call's outcome read as
      blocks. */
  lemma ProcessInformationCall(c: Config, env: Env, information: string, inputPrompt: string,
                               contextPrompt: string, now: string)
    ensures var system, user := ProcessSystemPrompt(contextPrompt, inputPrompt), ProcessUserPrompt(information);
      && Framed(system, contextPrompt, inputPrompt)
      && Framed(user, PROCESS_USER_HEAD, information)
      && ProcessInformation(c, env, information, inputPrompt, contextPrompt, now)
         == ProcessReply(Dispatch(c, env, system, user, true), env, now)
  {
    ProcessSystemPromptFramed(contextPrompt, inputPrompt);
    JoinedFramed(PROCESS_USER_HEAD, "", information);
    assert PROCESS_USER_HEAD + "" + information == ProcessUserPrompt(information);
  }

  /** End to end: when the configured provider answers with a well-formed
      reply whose text is `text`, the blocks are what that text reads as. */
  lemma ProcessInformationReadsReply(c: Config, env: Env, information: string, inputPrompt: string,
                                     contextPrompt: string, now: string, body: string, text: string)
    requires Configured(c) && VendorOf(c.provider).Some?
    requires env.net(BuildRequest(VendorOf(c.provider).value, c, ProcessSystemPrompt(contextPrompt, inputPrompt),
                                  ProcessUserPrompt(information))) == Response(true, body)
    requires env.parse(body) == Some(VendorReply(VendorOf(c.provider).value, text))
    ensures ProcessInformation(c, env, information, inputPrompt, contextPrompt, now)
      == Success(InterpretBlocks(text, env, now))
  {
    DispatchReadsVendorReply(c, env, ProcessSystemPrompt(contextPrompt, inputPrompt), ProcessUserPrompt(information), body, text);
  }

  /** A plain reply (no fence once trimmed) that parses as an array gives one
      block per element, numbered by position. */
  lemma PlainArrayReply(response: string, env: Env, now: string, items: seq<Json>)
    requires !Contains(Trim(response), FENCE)
    requires env.parse(Trim(response)) == Some(JArray(items))
    ensures var r := InterpretBlocks(response, env, now);
      && |r| == |items|
      && forall k :: 0 <= k < |items| ==>
           r[k] == NewBlock(ItemText(items[k], env.stringify), Some(Stamp(now, k)))
  {
    CleanIdentity(response);
  }

  /** A reply that does not read as an array, by strict parsing or by span
      recovery, gives exactly one block: the trimmed reply at index 0. */
  lemma NonArrayReplyFallsBack(response: string, env: Env, now: string)
    requires var e := ExtractJson(Clean(response), '[', ']', env.parse);
      e.Failure? || !e.value.JArray?
    ensures InterpretBlocks(response, env, now) == [NewBlock(Trim(response), Some(Stamp(now, 0)))]
  {
  }

  /** Every block carries the metadata index of its position, and its stamp
      is the one time given. */
  lemma BlocksNumbered(response: string, env: Env, now: string)
    ensures var r := InterpretBlocks(response, env, now);
      forall k :: 0 <= k < |r| ==> r[k].metadata == Some(Stamp(now, k))
  {
  }

  // --------------------------------------------- generateQuestionAnswer

  function QuestionSystemPrompt(contextPrompt: string, outputPrompt: string): string {
    contextPrompt + "\n\nQuestion Generation Instructions: " + outputPrompt
  }

  /** A prompt made of `front`, a fixed joint and `back` starts with `front`
      and ends with `back`. */
  predicate Framed(p: string, front: string, back: string) {
    && |p| >= |front| + |back|
    && p[..|front|] == front
    && p[|p| - |back|..] == back
  }

  lemma JoinedFramed(front: string, joint: string, back: string)
    ensures Framed(front + joint + back, front, back)
  {
    var p := front + joint + back;
    assert p[..|front|] == front;
    assert p[|p| - |back|..] == back;
  }

  /** The processing system prompt starts with the context prompt and ends
      with the input prompt, so both reach the model verbatim and in that
      order. */
  lemma ProcessSystemPromptFramed(contextPrompt: string, inputPrompt: string)
    ensures Framed(ProcessSystemPrompt(contextPrompt, inputPrompt), contextPrompt, inputPrompt)
  {
    JoinedFramed(contextPrompt, "\n\nProcessing Instructions: ", inputPrompt);
  }

  /** The question system prompt starts with the context prompt and ends
      with the output prompt. */
  lemma QuestionSystemPromptFramed(contextPrompt: string, outputPrompt: string)
    ensures Framed(QuestionSystemPrompt(contextPrompt, outputPrompt), contextPrompt, outputPrompt)
  {
    JoinedFramed(contextPrompt, "\n\nQuestion Generation Instructions: ", outputPrompt);
  }

  /** `blocks.map(b => b.content)`. */
  function Contents(blocks: seq<Block>): (r: seq<string>)
    ensures |r| == |blocks|
    ensures forall k :: 0 <= k < |r| ==> r[k] == blocks[k].content
    decreases |blocks|
  {
    if |blocks| == 0 then [] else [blocks[0].content] + Contents(blocks[1..])
  }

  /** One labelled context part: a newline, the heading, a newline, and the
      contents joined by newlines. */
  function Labelled(heading: string, blocks: seq<Block>): string {
    [NL] + (heading + [NL] + JoinLines(Contents(blocks)))
  }

  /** A list's part: its labelled part when the list is not empty, and
      nothing otherwise. */
  function Part(heading: string, blocks: seq<Block>): string {
    if |blocks| > 0 then Labelled(heading, blocks) else ""
  }

  /** The context parts of the user prompt: each list contributes its part
      only when it is not empty, the earlier blocks first. */
  function ContextInfo(w: Window): string {
    Part("Previous context:", w.before) + Part("Following context:", w.after)
  }

  /** The fixed pieces of the question user prompt: its opening sentence, the
      heading of the main block, and the closing format instruction. */
  const QUESTION_USER_HEAD: string := "Generate an active recall question and comprehensive answer based on the following information."
  const MAIN_HEADING: string := "\n\nMain information:\n"
  const QUESTION_USER_TAIL: string := "\n\nReturn ONLY valid JSON with the structure: {\"question\": \"...\", \"answer\": \"...\"}"

  function QuestionUserPrompt(w: Window): string {
    QUESTION_USER_HEAD + ContextInfo(w) + (MAIN_HEADING + w.main.content) + QUESTION_USER_TAIL
  }

  /** The lines a list's part reads back as after the newline it starts
      with: the heading and the contents, or nothing for an empty list. */
  function PartLines(heading: string, blocks: seq<Block>): seq<string> {
    if |blocks| > 0 then [heading] + Contents(blocks) else []
  }

  /** The lines of the context parts, read back: the empty line the parts
      start with, then for each non-empty list its heading and its contents in
      order. */
  function ContextLines(w: Window): seq<string> {
    [""] + PartLines("Previous context:", w.before) + PartLines("Following context:", w.after)
  }

  predicate LineFree(blocks: seq<Block>) {
    forall k :: 0 <= k < |blocks| ==> NL !in blocks[k].content
  }

  /** A heading, a newline and newline-free contents split into the heading
      and the contents. */
  lemma BodyLines(heading: string, blocks: seq<Block>)
    requires NL !in heading && |blocks| > 0 && LineFree(blocks)
    ensures SplitLines(heading + [NL] + JoinLines(Contents(blocks))) == [heading] + Contents(blocks)
  {
    SplitAround(heading, JoinLines(Contents(blocks)));
    SplitSingle(heading);
    SplitJoin(Contents(blocks));
  }

  /** A labelled part on its own splits into the empty line before its first
      newline, the heading, and the contents. */
  lemma LabelledLines(heading: string, blocks: seq<Block>)
    requires NL !in heading && |blocks| > 0 && LineFree(blocks)
    ensures SplitLines(Labelled(heading, blocks)) == [""] + ([heading] + Contents(blocks))
  {
    var t := heading + [NL] + JoinLines(Contents(blocks));
    var l := Labelled(heading, blocks);
    assert l == [NL] + t;
    assert l[0] == NL && l[1..] == t;
    BodyLines(heading, blocks);
  }

  /** Splitting `x` followed by a labelled part gives the lines of `x`, the
      heading, and the contents. */
  lemma SplitLabelled(x: string, heading: string, blocks: seq<Block>)
    requires NL !in heading && |blocks| > 0 && LineFree(blocks)
    ensures SplitLines(x + Labelled(heading, blocks)) == SplitLines(x) + ([heading] + Contents(blocks))
  {
    BodyLines(heading, blocks);
    SplitAfterNewline(x, heading + [NL] + JoinLines(Contents(blocks)), [heading] + Contents(blocks));
  }

  lemma SplitAfterNewline(x: string, t: string, lines: seq<string>)
    requires SplitLines(t) == lines
    ensures SplitLines(x + ([NL] + t)) == SplitLines(x) + lines
  {
    assert x + ([NL] + t) == x + [NL] + t;
    SplitAround(x, t);
  }

  /** Two parts in a row split into the empty first line and the lines of
      each part in order. */
  lemma TwoPartsLines(h1: string, b1: seq<Block>, h2: string, b2: seq<Block>)
    requires NL !in h1 && NL !in h2 && LineFree(b1) && LineFree(b2)
    ensures SplitLines(Part(h1, b1) + Part(h2, b2)) == [""] + PartLines(h1, b1) + PartLines(h2, b2)
  {
    var p := Part(h1, b1);
    assert SplitLines(p) == [""] + PartLines(h1, b1) by {
      if |b1| > 0 {
        LabelledLines(h1, b1);
      }
    }
    if |b2| > 0 {
      SplitLabelled(p, h2, b2);
    } else {
      assert p + Part(h2, b2) == p;
    }
  }

  /** With newline-free block contents, the context parts split back into
      exactly the labels and contents they were built from: a part is present
      exactly when its list is non-empty, and the earlier blocks come first. */
  lemma ContextInfoLines(w: Window)
    requires LineFree(w.before) && LineFree(w.after)
    ensures SplitLines(ContextInfo(w)) == ContextLines(w)
  {
    HeadingsOneLine();
    TwoPartsLines("Previous context:", w.before, "Following context:", w.after);
  }

  lemma HeadingsOneLine()
    ensures NL !in "Previous context:" && NL !in "Following context:"
  {
    var p, f := "Previous context:", "Following context:";
    assert forall k :: 0 <= k < |p| ==> p[k] != NL;
    assert forall k :: 0 <= k < |f| ==> f[k] != NL;
  }

  /** `!v` read as JavaScript truthiness, for a value that may be undefined. */
  predicate TruthyValue(v: JsValue) {
    v.Defined? && Truthy(v.json)
  }

  /** `qa.question && qa.answer`, where reading either field of `null`
      throws. */
  predicate HasQa(qa: Json) {
    && Get(Defined(qa), Field("question")).Success? && TruthyValue(Get(Defined(qa), Field("question")).value)
    && Get(Defined(qa), Field("answer")).Success? && TruthyValue(Get(Defined(qa), Field("answer")).value)
  }

  const FALLBACK_QUESTION_HEAD: string := "Can you explain the following concept in your own words: "
  const FALLBACK_QUESTION_TAIL: string := "...?"

  /** `s.substring(0, 100)`. */
  function Prefix100(s: string): (r: string)
    ensures |r| == Min(100, |s|) && r == s[..|r|]
  {
    s[..Min(100, |s|)]
  }

  /** The templated question and answer used when the reply cannot be read. */
  function FallbackQa(content: string): Json {
    JObject(map[
      "question" := JString(FALLBACK_QUESTION_HEAD + Prefix100(content) + FALLBACK_QUESTION_TAIL),
      "answer" := JString(content)])
  }

  /** How a reply becomes a question: a string reply whose cleaned text (or
      widest `{`...`}` span) reads as an object with a truthy question and a
      truthy answer is returned as it is; anything else falls back. */
  function InterpretQa(reply: JsValue, env: Env, content: string): (r: Json)
    ensures r == FallbackQa(content) || HasQa(r)
    ensures HasQa(r) && r != FallbackQa(content) ==>
      reply.Defined? && reply.json.JString? && ExtractJson(Clean(reply.json.s), '{', '}', env.parse) == Success(r)
    ensures reply.Defined? && reply.json.JString? ==>
      var e := ExtractJson(Clean(reply.json.s), '{', '}', env.parse);
      e.Success? && HasQa(e.value) ==> r == e.value
  {
    if reply.Defined? && reply.json.JString? then
      match ExtractJson(Clean(reply.json.s), '{', '}', env.parse)
      case Success(qa) => if HasQa(qa) then qa else FallbackQa(content)
      case Failure(_) => FallbackQa(content)
    else FallbackQa(content)
  }

  /** What `generateQuestionAnswer` makes of the outcome of its call: only a
      failed call propagates; every reply, whatever its shape, yields a
      question. */
  function QuestionReply(d: Result<JsValue, CallError>, env: Env, content: string): (r: Result<Json, CallError>)
    ensures r.Failure? <==> d.Failure?
    ensures d.Failure? ==> r.error == d.error
    ensures r.Success? ==> r.value == InterpretQa(d.value, env, content)
  {
    match d
    case Failure(e) => Failure(e)
    case Success(reply) => Success(InterpretQa(reply, env, content))
  }

  /** `generateQuestionAnswer`: one call with the question prompts, its reply
      read as a question about the main block. */
  function GenerateQuestionAnswer(c: Config, env: Env, w: Window, outputPrompt: string, contextPrompt: string)
    : Result<Json, CallError>
  {
    QuestionReply(Dispatch(c, env, QuestionSystemPrompt(contextPrompt, outputPrompt), QuestionUserPrompt(w), true), env, w.main.content)
  }

  /** `generateQuestionAnswer` makes exactly one call, with content extraction
      on: its system prompt starts with the context prompt and ends with the
      output prompt; its user prompt opens with the fixed sentence, carries
      the context parts right after it, then the main block under its heading,
      and closes with the format instruction; the outcome is that call's
      outcome read as a question about the main block. */
  lemma GenerateQuestionAnswerCall(c: Config, env: Env, w: Window, outputPrompt: string, contextPrompt: string)
    ensures var system, user := QuestionSystemPrompt(contextPrompt, outputPrompt), QuestionUserPrompt(w);
      && Framed(system, contextPrompt, outputPrompt)
      && Assembled(user, QUESTION_USER_HEAD, ContextInfo(w), MAIN_HEADING + w.main.content, QUESTION_USER_TAIL)
      && GenerateQuestionAnswer(c, env, w, outputPrompt, contextPrompt)
         == QuestionReply(Dispatch(c, env, system, user, true), env, w.main.content)
  {
    QuestionSystemPromptFramed(contextPrompt, outputPrompt);
    PromptPieces(QUESTION_USER_HEAD, ContextInfo(w), MAIN_HEADING + w.main.content, QUESTION_USER_TAIL);
  }

  /** `p` is `a`, `b`, `c` and `d` in that order: it starts with `a`, ends
      with `d`, and holds `b` and then `c` in between. */
  predicate Assembled(p: string, a: string, b: string, c: string, d: string) {
    && Framed(p, a, d)
    && |p| == |a| + |b| + |c| + |d|
    && p[|a|..|a| + |b|] == b
    && p[|a| + |b|..|a| + |b| + |c|] == c
  }

  lemma PromptPieces(a: string, b: string, c: string, d: string)
    ensures Assembled(a + b + c + d, a, b, c, d)
  {
    var p := a + b + c + d;
    assert p[..|a|] == a;
    assert p[|p| - |d|..] == d;
    assert p[|a|..|a| + |b|] == b;
    assert p[|a| + |b|..|a| + |b| + |c|] == c;
  }

  /** End to end: when the configured provider answers with a well-formed
      reply whose text is `text`, the question is what that text reads as. */
  lemma GenerateQuestionAnswerReadsReply(c: Config, env: Env, w: Window, outputPrompt: string, contextPrompt: string,
                                         body: string, text: string)
    requires Configured(c) && VendorOf(c.provider).Some?
    requires env.net(BuildRequest(VendorOf(c.provider).value, c, QuestionSystemPrompt(contextPrompt, outputPrompt),
                                  QuestionUserPrompt(w))) == Response(true, body)
    requires env.parse(body) == Some(VendorReply(VendorOf(c.provider).value, text))
    ensures GenerateQuestionAnswer(c, env, w, outputPrompt, contextPrompt)
      == Success(InterpretQa(Defined(JString(text)), env, w.main.content))
  {
    DispatchReadsVendorReply(c, env, QuestionSystemPrompt(contextPrompt, outputPrompt), QuestionUserPrompt(w), body, text);
  }

  /** The fallback question is built from the first hundred characters of the
      content, and its answer is the content verbatim. */
  lemma FallbackQaShape(content: string)
    ensures var q := FallbackQa(content);
      && Get(Defined(q), Field("answer")) == Success(Defined(JString(content)))
      && exists head ::
           && Get(Defined(q), Field("question")) == Success(Defined(JString(FALLBACK_QUESTION_HEAD + head + FALLBACK_QUESTION_TAIL)))
           && |head| == Min(100, |content|) && StartsWith(content, head)
  {
    var head := Prefix100(content);
    assert Get(Defined(FallbackQa(content)), Field("question")) == Success(Defined(JString(FALLBACK_QUESTION_HEAD + head + FALLBACK_QUESTION_TAIL)));
  }

  lemma FallbackQuestionTruthy(content: string)
    ensures Get(Defined(FallbackQa(content)), Field("question")).Success?
    ensures TruthyValue(Get(Defined(FallbackQa(content)), Field("question")).value)
  {
    var qs := FALLBACK_QUESTION_HEAD + Prefix100(content) + FALLBACK_QUESTION_TAIL;
    assert Get(Defined(FallbackQa(content)), Field("question")) == Success(Defined(JString(qs)));
    assert |qs| >= |FALLBACK_QUESTION_TAIL| == 4;
  }

  /** Whatever the reply, the question handed back is truthy. */
  lemma QuestionAlwaysTruthy(d: Result<JsValue, CallError>, env: Env, content: string)
    requires QuestionReply(d, env, content).Success?
    ensures var q := QuestionReply(d, env, content).value;
      Get(Defined(q), Field("question")).Success? && TruthyValue(Get(Defined(q), Field("question")).value)
  {
    FallbackQuestionTruthy(content);
  }

  /** A plain string reply that parses as an object with a truthy question and
      answer is handed back unchanged. */
  lemma PlainQaReply(reply: string, env: Env, content: string, qa: Json)
    requires !Contains(Trim(reply), FENCE)
    requires env.parse(Trim(reply)) == Some(qa) && HasQa(qa)
    ensures InterpretQa(Defined(JString(reply)), env, content) == qa
  {
    CleanIdentity(reply);
  }

  /** A reply that is not a string, or whose object lacks a truthy question
      or answer, falls back to the template. */
  lemma UnreadableQaFallsBack(reply: JsValue, env: Env, content: string)
    requires !(reply.Defined? && reply.json.JString?)
      || (var e := ExtractJson(Clean(reply.json.s), '{', '}', env.parse); e.Failure? || !HasQa(e.value))
    ensures InterpretQa(reply, env, content) == FallbackQa(content)
  {
  }

  // ------------------------------------------------------- testConnection

  const PROBE_SYSTEM: string := "You are a helpful assistant."
  const PROBE_USER: string := "Respond with JSON: {\"status\": \"connected\"}"

  /** `result.status === 'connected'`, where reading a field of `null`
      throws. */
  predicate Connected(result: Json) {
    Get(Defined(result), Field("status")) == Success(Defined(JString("connected")))
  }

  /** `testConnection`: true exactly when the call succeeds with a string
      whose cleaned text (or widest `{`...`}` span) reads as a value whose
      status is "connected"; every failure, including a failed call, is
      false. */
  function TestConnection(c: Config, env: Env): (r: bool)
    ensures r ==> Configured(c) && VendorOf(c.provider).Some?
    ensures r ==> Dispatch(c, env, PROBE_SYSTEM, PROBE_USER, true).Success?
  {
    match Dispatch(c, env, PROBE_SYSTEM, PROBE_USER, true)
    case Failure(_) => false
    case Success(reply) =>
      if reply.Defined? && reply.json.JString? then
        match ExtractJson(Clean(reply.json.s), '{', '}', env.parse)
        case Success(result) => Connected(result)
        case Failure(_) => false
      else false
  }

  /** A successful probe is one whose reply reads as a connected status. */
  lemma TestConnectionMeans(c: Config, env: Env)
    ensures TestConnection(c, env) <==>
      exists text, result ::
        && Dispatch(c, env, PROBE_SYSTEM, PROBE_USER, true) == Success(Defined(JString(text)))
        && ExtractJson(Clean(text), '{', '}', env.parse) == Success(result)
        && Connected(result)
  {
    var d := Dispatch(c, env, PROBE_SYSTEM, PROBE_USER, true);
    if TestConnection(c, env) {
      var text := d.value.json.s;
      var result := ExtractJson(Clean(text), '{', '}', env.parse).value;
      assert d == Success(Defined(JString(text)));
    }
  }

  /** A configured handler whose vendor answers with a plain reply that
      parses to a connected status reports the connection as working. */
  lemma PlainConnectedReply(c: Config, env: Env, body: string, text: string, result: Json)
    requires Configured(c) && VendorOf(c.provider).Some?
    requires env.net(BuildRequest(VendorOf(c.provider).value, c, PROBE_SYSTEM, PROBE_USER)) == Response(true, body)
    requires env.parse(body) == Some(VendorReply(VendorOf(c.provider).value, text))
    requires !Contains(Trim(text), FENCE)
    requires env.parse(Trim(text)) == Some(result) && Connected(result)
    ensures TestConnection(c, env)
  {
    DispatchReadsVendorReply(c, env, PROBE_SYSTEM, PROBE_USER, body, text);
    CleanIdentity(text);
  }
}
