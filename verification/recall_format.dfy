/** The `.recall` text format and the operations the file handler performs
    on the sheet it holds: create, parse, format, add and remove blocks,
    duplicate, validate, and pick a block with its context. */
module RecallFormat {
  import opened Wrappers
  import opened Text
  import opened Json
  import opened Blocks

  /** The line that separates the sections of a `.recall` file (after trimming). */
  const SEPARATOR: string := "======="

  const UNTITLED: string := "Untitled Recall Sheet"
  const COPY_SUFFIX: string := " (Copy)"

  const DEFAULT_CONTEXT: string := "This recall sheet contains information for practicing active recall. Active recall is the process of actively retrieving information from memory, rather than passively recognizing it. This strengthens neural pathways and improves long-term retention. The information in this sheet should be used to generate questions that require genuine thought and synthesis, not mere recognition."
  const DEFAULT_INPUT: string := "New information should be parsed into discrete, atomic ideas. Each piece of information should be clear, concise, and self-contained, typically no more than one paragraph. Information should be organized so that related concepts are grouped together. Focus on key concepts, relationships, and understanding rather than rote memorization."
  const DEFAULT_OUTPUT: string := "Generate questions that promote active recall rather than recognition. Instead of asking for definitions or simple facts, create questions that require the learner to explain, apply, synthesize, or analyze the information. Questions should encourage deep understanding and the ability to connect ideas. For example, instead of 'What is X?', ask 'How would you explain X to someone unfamiliar with the topic?' or 'What would happen if X were different?'"

  /** A recall sheet: title, last-edit timestamp, the three instruction
      prompts and the ordered information blocks. */
  datatype Sheet = Sheet(
    title: string,
    dateLastEdited: string,
    contextPrompt: string,
    inputPrompt: string,
    outputPrompt: string,
    information: seq<Block>)

  /** Stand-ins for `JSON.parse` and `JSON.stringify(information, null, 2)` on
      the information list. `decode` gives `None` where `JSON.parse` throws. */
  datatype InfoCodec = InfoCodec(decode: string -> Option<seq<Block>>, encode: seq<Block> -> string)

  /** Custom prompts for a new sheet; an empty string stands for an absent or
      falsy prompt. */
  datatype Prompts = Prompts(context: string, input: string, output: string)

  /** The one error the handler raises: an operation that needs a loaded sheet
      was called with none loaded. */
  datatype HandlerError = NoRecallLoaded

  /** The handler's built-in prompts (`this.defaultPrompts`). */
  function DefaultPrompts(): Prompts {
    Prompts(DEFAULT_CONTEXT, DEFAULT_INPUT, DEFAULT_OUTPUT)
  }

  /** A prompt set with every prompt truthy. */
  predicate AllTruthy(p: Prompts) {
    p.context != "" && p.input != "" && p.output != ""
  }

  lemma ContextDefaultTruthy() ensures DEFAULT_CONTEXT != "" {}
  lemma InputDefaultTruthy() ensures DEFAULT_INPUT != "" {}
  lemma OutputDefaultTruthy() ensures DEFAULT_OUTPUT != "" {}

  /** A fresh sheet: a falsy title or prompt falls back to its default (the
      handler's `defaults`), a truthy one is kept, and the sheet starts with no
      information. */
  function CreateNewRecallData(title: string, prompts: Prompts, defaults: Prompts, now: string): (r: Sheet)
    ensures r.title == (if title != "" then title else UNTITLED)
    ensures prompts.context != "" ==> r.contextPrompt == prompts.context
    ensures prompts.context == "" ==> r.contextPrompt == defaults.context
    ensures prompts.input != "" ==> r.inputPrompt == prompts.input
    ensures prompts.input == "" ==> r.inputPrompt == defaults.input
    ensures prompts.output != "" ==> r.outputPrompt == prompts.output
    ensures prompts.output == "" ==> r.outputPrompt == defaults.output
    ensures r.dateLastEdited == now && r.information == []
  {
    Sheet(
      if title != "" then title else UNTITLED,
      now,
      if prompts.context != "" then prompts.context else defaults.context,
      if prompts.input != "" then prompts.input else defaults.input,
      if prompts.output != "" then prompts.output else defaults.output,
      [])
  }

  /** With truthy defaults every text field of a fresh sheet is truthy,
      whatever the caller passed. */
  lemma NewSheetTruthy(title: string, prompts: Prompts, defaults: Prompts, now: string)
    requires AllTruthy(defaults)
    ensures var r := CreateNewRecallData(title, prompts, defaults, now);
      r.title != "" && r.contextPrompt != "" && r.inputPrompt != "" && r.outputPrompt != ""
  {
  }

  // ---------------------------------------------------------------- parsing

  /** Which field the lines being collected belong to. `Preamble` is the state
      before the first separator, where nothing is collected. */
  datatype Section = Preamble | ContextSection | InputSection | OutputSection | InfoSection

  /** The section after a separator. Once in the information section every
      further separator keeps it there. */
  function NextSection(s: Section): Section {
    match s
    case ContextSection => InputSection
    case InputSection => OutputSection
    case OutputSection => InfoSection
    case _ => s
  }

  predicate IsSeparator(line: string) {
    Trim(line) == SEPARATOR
  }

  /** None of the lines reads as a separator. */
  predicate NoSeparator(lines: seq<string>)
    decreases |lines|
  {
    |lines| == 0 || (!IsSeparator(lines[0]) && NoSeparator(lines[1..]))
  }

  /** The information list a section's text stands for: whatever the decoder
      reads from the trimmed text, or nothing when it cannot read it. */
  function DecodeOrEmpty(codec: InfoCodec, content: string): seq<Block> {
    match codec.decode(Trim(content))
    case Some(info) => info
    case None => []
  }

  /** Stores a finished section's text in its field: prompts trimmed, the
      information section decoded. Nothing else changes. */
  function SaveSection(sheet: Sheet, section: Section, content: string, codec: InfoCodec): (r: Sheet)
    ensures r.title == sheet.title && r.dateLastEdited == sheet.dateLastEdited
    ensures r.contextPrompt == if section == ContextSection then Trim(content) else sheet.contextPrompt
    ensures r.inputPrompt == if section == InputSection then Trim(content) else sheet.inputPrompt
    ensures r.outputPrompt == if section == OutputSection then Trim(content) else sheet.outputPrompt
    ensures r.information == if section == InfoSection then DecodeOrEmpty(codec, content) else sheet.information
  {
    match section
    case Preamble => sheet
    case ContextSection => sheet.(contextPrompt := Trim(content))
    case InputSection => sheet.(inputPrompt := Trim(content))
    case OutputSection => sheet.(outputPrompt := Trim(content))
    case InfoSection => sheet.(information := DecodeOrEmpty(codec, content))
  }

  /** The parser's state between lines: whether a separator has been seen,
      the current section, the raw lines collected for it, and the sheet
      built so far. */
  datatype Scan = Scan(found: bool, section: Section, pending: seq<string>, sheet: Sheet)

  /** One line after the date line. A separator either opens the context
      section (the first one) or stores the collected lines and moves on; any
      other line is collected untrimmed once a separator has been seen. */
  function ScanLine(st: Scan, line: string, codec: InfoCodec): Scan {
    if IsSeparator(line) then
      if !st.found then st.(found := true, section := ContextSection)
      else Scan(true, NextSection(st.section), [], SaveSection(st.sheet, st.section, JoinLines(st.pending), codec))
    else if st.found then st.(pending := st.pending + [line])
    else st
  }

  /** Scans lines in order. Separator scanning never touches the header. */
  function ScanLines(st: Scan, lines: seq<string>, codec: InfoCodec): (r: Scan)
    ensures r.sheet.title == st.sheet.title && r.sheet.dateLastEdited == st.sheet.dateLastEdited
    ensures st.found ==> r.found
    decreases |lines|
  {
    if |lines| == 0 then st else ScanLines(ScanLine(st, lines[0], codec), lines[1..], codec)
  }

  /** Parses the lines of a file: line 0 is the title and line 1 the date, both
      trimmed and taken as they are, even when they look like separators;
      separator scanning starts at line 2, and the last section is stored only
      if it collected at least one line. */
  function ParseLines(lines: seq<string>, codec: InfoCodec): (r: Sheet)
    requires |lines| >= 1
    ensures r.title == Trim(lines[0])
    ensures r.dateLastEdited == if |lines| >= 2 then Trim(lines[1]) else ""
  {
    var date := if |lines| >= 2 then Trim(lines[1]) else "";
    var start := Scan(false, Preamble, [], Sheet(Trim(lines[0]), date, "", "", "", []));
    var st := ScanLines(start, if |lines| >= 2 then lines[2..] else [], codec);
    if |st.pending| > 0 then SaveSection(st.sheet, st.section, JoinLines(st.pending), codec) else st.sheet
  }

  /** `parseRecallFile`: split on newlines, then parse the lines. It cannot
      fail: text that fits no section simply leaves fields empty. */
  function ParseRecallFile(text: string, codec: InfoCodec): (r: Sheet)
    ensures r.title == Trim(SplitLines(text)[0])
  {
    ParseLines(SplitLines(text), codec)
  }

  /** Scanning is a left fold: a concatenation is scanned piece by piece. */
  lemma {:induction false} ScanAppend(st: Scan, a: seq<string>, b: seq<string>, codec: InfoCodec)
    ensures ScanLines(st, a + b, codec) == ScanLines(ScanLines(st, a, codec), b, codec)
    decreases |a|
  {
    if |a| == 0 {
      assert a + b == b;
    } else {
      assert (a + b)[0] == a[0];
      assert (a + b)[1..] == a[1..] + b;
      ScanAppend(ScanLine(st, a[0], codec), a[1..], b, codec);
    }
  }

  /** Lines that are not separators are discarded before the first separator
      and collected, untrimmed and in order, after it. */
  lemma {:induction false} ScanPlain(st: Scan, lines: seq<string>, codec: InfoCodec)
    requires NoSeparator(lines)
    ensures ScanLines(st, lines, codec) == if st.found then st.(pending := st.pending + lines) else st
    decreases |lines|
  {
    if |lines| > 0 {
      var l := lines[0];
      assert !IsSeparator(l);
      var next := ScanLine(st, l, codec);
      assert next == if st.found then st.(pending := st.pending + [l]) else st;
      ScanPlain(next, lines[1..], codec);
      assert st.pending + [l] + lines[1..] == st.pending + lines;
    } else {
      assert st.pending + lines == st.pending;
    }
  }

  /** Scanning ordinary lines and then the rest. */
  lemma ScanPlainThen(st: Scan, body: seq<string>, rest: seq<string>, codec: InfoCodec)
    requires NoSeparator(body)
    ensures ScanLines(st, body + rest, codec)
      == ScanLines(if st.found then st.(pending := st.pending + body) else st, rest, codec)
  {
    ScanAppend(st, body, rest, codec);
    ScanPlain(st, body, codec);
  }

  /** Scanning one line and then the rest. */
  lemma ScanOneThen(st: Scan, line: string, rest: seq<string>, codec: InfoCodec)
    ensures ScanLines(st, [line] + rest, codec) == ScanLines(ScanLine(st, line, codec), rest, codec)
  {
    assert ([line] + rest)[0] == line;
    assert ([line] + rest)[1..] == rest;
  }

  /** The three prompts of a sheet have no whitespace at their ends. */
  predicate PromptsTrimmed(sheet: Sheet) {
    Trimmed(sheet.contextPrompt) && Trimmed(sheet.inputPrompt) && Trimmed(sheet.outputPrompt)
  }

  /** Storing a section keeps the prompts trimmed, since a stored prompt is trimmed first. */
  lemma SaveSectionTrims(sheet: Sheet, section: Section, content: string, codec: InfoCodec)
    requires PromptsTrimmed(sheet)
    ensures PromptsTrimmed(SaveSection(sheet, section, content, codec))
  {
    TrimShape(content);
  }

  /** Scanning keeps the prompts trimmed. */
  lemma {:induction false} ScanTrims(st: Scan, lines: seq<string>, codec: InfoCodec)
    requires PromptsTrimmed(st.sheet)
    ensures PromptsTrimmed(ScanLines(st, lines, codec).sheet)
    decreases |lines|
  {
    if |lines| > 0 {
      if IsSeparator(lines[0]) && st.found {
        SaveSectionTrims(st.sheet, st.section, JoinLines(st.pending), codec);
      }
      ScanTrims(ScanLine(st, lines[0], codec), lines[1..], codec);
    }
  }

  /** Whatever text is read, the title comes back as one trimmed line and the
      prompts come back trimmed: a title with a line break or with whitespace
      at an end, and a prompt with whitespace at an end, never read back as
      they were written. */
  lemma ParsedFieldsTrimmed(text: string, codec: InfoCodec)
    ensures var r := ParseRecallFile(text, codec);
      HeaderSafe(r.title) && PromptsTrimmed(r)
  {
    var lines := SplitLines(text);
    var date := if |lines| >= 2 then Trim(lines[1]) else "";
    var start := Scan(false, Preamble, [], Sheet(Trim(lines[0]), date, "", "", "", []));
    var rest := if |lines| >= 2 then lines[2..] else [];
    ScanTrims(start, rest, codec);
    var st := ScanLines(start, rest, codec);
    if |st.pending| > 0 {
      SaveSectionTrims(st.sheet, st.section, JoinLines(st.pending), codec);
    }
    var t := Trim(lines[0]);
    TrimShape(lines[0]);
    SplitNoNewline(text);
    var a := LeadingWs(lines[0]);
    assert forall k :: 0 <= k < |t| ==> t[k] == lines[0][a + k];
  }

  /** Storing a section again overwrites what was stored there before: the
      last text stored in a section is the one that counts. */
  lemma SaveSectionOverwrites(sheet: Sheet, section: Section, first: string, second: string, codec: InfoCodec)
    ensures SaveSection(SaveSection(sheet, section, first, codec), section, second, codec)
      == SaveSection(sheet, section, second, codec)
  {
  }

  /** Sections are stored independently of one another: storing two different
      sections gives the same sheet in either order. */
  lemma SaveSectionsCommute(sheet: Sheet, s1: Section, a: string, s2: Section, b: string, codec: InfoCodec)
    requires s1 != s2
    ensures SaveSection(SaveSection(sheet, s1, a, codec), s2, b, codec)
      == SaveSection(SaveSection(sheet, s2, b, codec), s1, a, codec)
  {
  }

  /** A separator followed by ordinary lines, after the first separator: the
      collected lines are stored in the current section and the ordinary
      lines become the next section's collection. */
  lemma ScanSection(st: Scan, sep: string, body: seq<string>, rest: seq<string>, codec: InfoCodec)
    requires st.found && IsSeparator(sep) && NoSeparator(body)
    ensures ScanLines(st, [sep] + (body + rest), codec)
      == ScanLines(Scan(true, NextSection(st.section), body,
                        SaveSection(st.sheet, st.section, JoinLines(st.pending), codec)), rest, codec)
  {
    ScanOneThen(st, sep, body + rest, codec);
    var mid := ScanLine(st, sep, codec);
    ScanPlainThen(mid, body, rest, codec);
    assert [] + body == body;
  }

  /** Without any separator after the date line every prompt is empty and there
      is no information. */
  lemma NoSeparatorNoSections(lines: seq<string>, codec: InfoCodec)
    requires |lines| >= 2 && NoSeparator(lines[2..])
    ensures var r := ParseLines(lines, codec);
      r.contextPrompt == "" && r.inputPrompt == "" && r.outputPrompt == "" && r.information == []
  {
    var start := Scan(false, Preamble, [], Sheet(Trim(lines[0]), Trim(lines[1]), "", "", "", []));
    ScanPlain(start, lines[2..], codec);
  }

  /** The lines of a file with four separators after its header. */
  function Layout(
    title: string, date: string, pre: seq<string>,
    s1: string, c: seq<string>, s2: string, i: seq<string>,
    s3: string, o: seq<string>, s4: string, j: seq<string>): seq<string>
  {
    [title] + ([date] + (pre + ([s1] + (c + ([s2] + (i + ([s3] + (o + ([s4] + j)))))))))
  }

  /** The section layout of a well-formed file: whatever sits between the date
      and the first separator is dropped, and the four sections that follow are
      stored as context, input, output and information, in that order, each
      prompt as its lines joined back with newlines and trimmed. */
  lemma ParseSections(
    title: string, date: string, pre: seq<string>,
    s1: string, c: seq<string>, s2: string, i: seq<string>,
    s3: string, o: seq<string>, s4: string, j: seq<string>,
    codec: InfoCodec)
    requires IsSeparator(s1) && IsSeparator(s2) && IsSeparator(s3) && IsSeparator(s4)
    requires NoSeparator(pre) && NoSeparator(c) && NoSeparator(i) && NoSeparator(o) && NoSeparator(j)
    ensures var r := ParseLines(Layout(title, date, pre, s1, c, s2, i, s3, o, s4, j), codec);
      && r.title == Trim(title)
      && r.dateLastEdited == Trim(date)
      && r.contextPrompt == Trim(JoinLines(c))
      && r.inputPrompt == Trim(JoinLines(i))
      && r.outputPrompt == Trim(JoinLines(o))
      && r.information == (if j == [] then [] else DecodeOrEmpty(codec, JoinLines(j)))
  {
    var lines := Layout(title, date, pre, s1, c, s2, i, s3, o, s4, j);
    var body := pre + ([s1] + (c + ([s2] + (i + ([s3] + (o + ([s4] + j)))))));
    assert lines[0] == title && lines[1] == date && lines[2..] == body;
    var st0 := Scan(false, Preamble, [], Sheet(Trim(title), Trim(date), "", "", "", []));
    var sheet := st0.sheet.(contextPrompt := Trim(JoinLines(c)), inputPrompt := Trim(JoinLines(i)),
                            outputPrompt := Trim(JoinLines(o)));
    ScanBody(st0, pre, s1, c, s2, i, s3, o, s4, j, codec);
    assert SaveSection(sheet, InfoSection, JoinLines(j), codec) == sheet.(information := DecodeOrEmpty(codec, JoinLines(j)));
  }

  /** The four sections after the preamble, scanned one after the other. */
  lemma ScanBody(
    st0: Scan, pre: seq<string>,
    s1: string, c: seq<string>, s2: string, i: seq<string>,
    s3: string, o: seq<string>, s4: string, j: seq<string>,
    codec: InfoCodec)
    requires !st0.found && st0.pending == []
    requires IsSeparator(s1) && IsSeparator(s2) && IsSeparator(s3) && IsSeparator(s4)
    requires NoSeparator(pre) && NoSeparator(c) && NoSeparator(i) && NoSeparator(o) && NoSeparator(j)
    ensures ScanLines(st0, pre + ([s1] + (c + ([s2] + (i + ([s3] + (o + ([s4] + j))))))), codec)
      == Scan(true, InfoSection, j, st0.sheet.(contextPrompt := Trim(JoinLines(c)),
                                             inputPrompt := Trim(JoinLines(i)),
                                             outputPrompt := Trim(JoinLines(o))))
  {
    var m2 := Scan(true, ContextSection, c, st0.sheet);
    ScanPlainThen(st0, pre, [s1] + (c + ([s2] + (i + ([s3] + (o + ([s4] + j)))))), codec);
    ScanOneThen(st0, s1, c + ([s2] + (i + ([s3] + (o + ([s4] + j))))), codec);
    ScanPlainThen(ScanLine(st0, s1, codec), c, [s2] + (i + ([s3] + (o + ([s4] + j)))), codec);
    assert [] + c == c;
    ScanTail(m2, s2, i, s3, o, s4, j, codec);
  }

  /** The input, output and information sections, once the context section's
      lines are collected. */
  lemma ScanTail(
    m2: Scan, s2: string, i: seq<string>, s3: string, o: seq<string>, s4: string, j: seq<string>,
    codec: InfoCodec)
    requires m2.found && m2.section == ContextSection
    requires IsSeparator(s2) && IsSeparator(s3) && IsSeparator(s4)
    requires NoSeparator(i) && NoSeparator(o) && NoSeparator(j)
    ensures ScanLines(m2, [s2] + (i + ([s3] + (o + ([s4] + j)))), codec)
      == Scan(true, InfoSection, j, m2.sheet.(contextPrompt := Trim(JoinLines(m2.pending)),
                                             inputPrompt := Trim(JoinLines(i)),
                                             outputPrompt := Trim(JoinLines(o))))
  {
    var m3 := Scan(true, InputSection, i, m2.sheet.(contextPrompt := Trim(JoinLines(m2.pending))));
    var m4 := Scan(true, OutputSection, o, m3.sheet.(inputPrompt := Trim(JoinLines(i))));
    var m5 := Scan(true, InfoSection, j, m4.sheet.(outputPrompt := Trim(JoinLines(o))));
    assert SaveSection(m2.sheet, ContextSection, JoinLines(m2.pending), codec) == m3.sheet;
    assert SaveSection(m3.sheet, InputSection, JoinLines(i), codec) == m4.sheet;
    assert SaveSection(m4.sheet, OutputSection, JoinLines(o), codec) == m5.sheet;
    ScanSection(m2, s2, i, [s3] + (o + ([s4] + j)), codec);
    ScanSection(m3, s3, o, [s4] + j, codec);
    ScanSection(m4, s4, j, [], codec);
    assert j + [] == j;
  }

  // ------------------------------------------------------------- formatting

  /** The date written to the file: the sheet's own, or the current time when
      the sheet has none. */
  function DateToWrite(sheet: Sheet, now: string): string {
    if sheet.dateLastEdited != "" then sheet.dateLastEdited else now
  }

  /** `formatRecallFile`: title, date, then the three prompts and the encoded
      information, each after a separator line, joined with newlines. */
  function FormatRecallFile(sheet: Sheet, now: string, codec: InfoCodec): (r: string)
    ensures StartsWith(r, sheet.title + [NL])
  {
    JoinLines([sheet.title, DateToWrite(sheet, now), SEPARATOR, sheet.contextPrompt, SEPARATOR,
               sheet.inputPrompt, SEPARATOR, sheet.outputPrompt, SEPARATOR, codec.encode(sheet.information)])
  }

  /** A header field survives the trip when it is one line with no whitespace
      at its ends. */
  predicate HeaderSafe(s: string) {
    NL !in s && Trimmed(s)
  }

  /** A prompt survives the trip when it has no whitespace at its ends and
      none of its lines reads as a separator. */
  predicate PromptSafe(s: string) {
    Trimmed(s) && NoSeparator(SplitLines(s))
  }

  lemma SplitCons(x: string, rest: seq<string>)
    requires |rest| >= 1
    ensures SplitLines(JoinLines([x] + rest)) == SplitLines(x) + SplitLines(JoinLines(rest))
  {
    assert ([x] + rest)[1..] == rest;
    SplitAround(x, JoinLines(rest));
  }

  /** The lines of a formatted file: the two header lines, then each section's
      separator followed by that section's own lines. */
  lemma FormatLines(sheet: Sheet, now: string, codec: InfoCodec)
    requires NL !in sheet.title && NL !in DateToWrite(sheet, now)
    ensures SplitLines(FormatRecallFile(sheet, now, codec))
      == Layout(sheet.title, DateToWrite(sheet, now), [],
                SEPARATOR, SplitLines(sheet.contextPrompt), SEPARATOR, SplitLines(sheet.inputPrompt),
                SEPARATOR, SplitLines(sheet.outputPrompt), SEPARATOR, SplitLines(codec.encode(sheet.information)))
  {
    var t, d := sheet.title, DateToWrite(sheet, now);
    var ctx, inp, out, enc := sheet.contextPrompt, sheet.inputPrompt, sheet.outputPrompt, codec.encode(sheet.information);
    var tail := [ctx, SEPARATOR, inp, SEPARATOR, out, SEPARATOR, enc];
    var p2 := [SEPARATOR] + tail;
    var p1 := [d] + p2;
    assert [t] + p1 == [t, d, SEPARATOR, ctx, SEPARATOR, inp, SEPARATOR, out, SEPARATOR, enc];
    assert NL !in SEPARATOR;
    SplitSingle(t); SplitSingle(d); SplitSingle(SEPARATOR);
    SplitCons(t, p1);
    SplitCons(d, p2);
    SplitCons(SEPARATOR, tail);
    FormatTail(ctx, inp, out, enc);
    assert [] + ([SEPARATOR] + SplitLines(JoinLines(tail))) == [SEPARATOR] + SplitLines(JoinLines(tail));
  }

  /** The lines of the part of a formatted file after the first separator. */
  lemma FormatTail(ctx: string, inp: string, out: string, enc: string)
    ensures SplitLines(JoinLines([ctx, SEPARATOR, inp, SEPARATOR, out, SEPARATOR, enc]))
      == SplitLines(ctx) + ([SEPARATOR] + (SplitLines(inp) + ([SEPARATOR] + (SplitLines(out) + ([SEPARATOR] + SplitLines(enc))))))
  {
    assert NL !in SEPARATOR;
    SplitSingle(SEPARATOR);
    var p6 := [enc];
    var p5 := [SEPARATOR] + p6;
    var p4 := [out] + p5;
    var p3 := [SEPARATOR] + p4;
    var p2 := [inp] + p3;
    var p1 := [SEPARATOR] + p2;
    var p0 := [ctx] + p1;
    assert p0 == [ctx, SEPARATOR, inp, SEPARATOR, out, SEPARATOR, enc];
    SplitCons(SEPARATOR, p6);
    SplitCons(out, p5);
    SplitCons(SEPARATOR, p4);
    SplitCons(inp, p3);
    SplitCons(SEPARATOR, p2);
    SplitCons(ctx, p1);
  }

  /** Round trip: parsing a formatted sheet gives back its title, date (the
      current time if it had none), prompts and information, provided the
      header fields are single trimmed lines, the prompts are trimmed and hold
      no separator line, and the decoder reads back what the encoder wrote. */
  lemma RoundTrip(sheet: Sheet, now: string, codec: InfoCodec)
    requires HeaderSafe(sheet.title) && HeaderSafe(DateToWrite(sheet, now))
    requires PromptSafe(sheet.contextPrompt) && PromptSafe(sheet.inputPrompt) && PromptSafe(sheet.outputPrompt)
    requires NoSeparator(SplitLines(codec.encode(sheet.information)))
    requires codec.decode(Trim(codec.encode(sheet.information))) == Some(sheet.information)
    ensures ParseRecallFile(FormatRecallFile(sheet, now, codec), codec)
      == sheet.(dateLastEdited := DateToWrite(sheet, now))
  {
    var t, d := sheet.title, DateToWrite(sheet, now);
    var c, i, o := SplitLines(sheet.contextPrompt), SplitLines(sheet.inputPrompt), SplitLines(sheet.outputPrompt);
    var j := SplitLines(codec.encode(sheet.information));
    FormatLines(sheet, now, codec);
    assert IsSeparator(SEPARATOR) by { TrimFixed(SEPARATOR); }
    ParseSections(t, d, [], SEPARATOR, c, SEPARATOR, i, SEPARATOR, o, SEPARATOR, j, codec);
    JoinSplit(sheet.contextPrompt); JoinSplit(sheet.inputPrompt); JoinSplit(sheet.outputPrompt);
    JoinSplit(codec.encode(sheet.information));
    TrimFixed(t); TrimFixed(d);
    TrimFixed(sheet.contextPrompt); TrimFixed(sheet.inputPrompt); TrimFixed(sheet.outputPrompt);
  }

  // ------------------------------------------------------- sheet operations

  /** The block a caller hands to `addInformationBlock`: its text and its
      metadata, `None` when the caller passed none. */
  datatype NewBlock = NewBlock(content: string, metadata: Option<Json>)

  /** `infoBlock.metadata || {}`: a falsy or missing metadata value becomes
      the empty object. */
  function MetadataOrEmpty(m: Option<Json>): (r: Json)
    ensures Truthy(r)
    ensures m.Some? && Truthy(m.value) ==> r == m.value
  {
    match m
    case Some(j) => if Truthy(j) then j else JObject(map[])
    case None => JObject(map[])
  }

  /** `addInformationBlock`: appends one block with the minted id and stamps
      the edit time; with no sheet loaded it fails. */
  function AddInformationBlock(loaded: Option<Sheet>, nb: NewBlock, id: BlockId, now: string): (r: Result<Sheet, HandlerError>)
    ensures r.Failure? <==> loaded.None?
    ensures r.Success? ==>
      var before := loaded.value.information;
      var info := r.value.information;
      && |info| == |before| + 1
      && info[..|before|] == before
      && info[|before|] == Block(id, nb.content, Some(MetadataOrEmpty(nb.metadata)))
      && r.value.dateLastEdited == now
      && r.value.(information := before, dateLastEdited := loaded.value.dateLastEdited) == loaded.value
  {
    match loaded
    case None => Failure(NoRecallLoaded)
    case Some(sheet) =>
      var block := Block(id, nb.content, Some(MetadataOrEmpty(nb.metadata)));
      Success(sheet.(information := sheet.information + [block], dateLastEdited := now))
  }

  /** `removeInformationBlock`: keeps exactly the blocks with another id, in
      order, and stamps the edit time; with no sheet loaded it fails. */
  function RemoveInformationBlock(loaded: Option<Sheet>, id: BlockId, now: string): (r: Result<Sheet, HandlerError>)
    ensures r.Failure? <==> loaded.None?
    ensures r.Success? ==>
      && r.value.information == WithoutId(loaded.value.information, id)
      && (forall b :: b in r.value.information <==> b in loaded.value.information && b.id != id)
      && r.value.dateLastEdited == now
      && r.value.(information := loaded.value.information, dateLastEdited := loaded.value.dateLastEdited) == loaded.value
  {
    match loaded
    case None => Failure(NoRecallLoaded)
    case Some(sheet) => Success(sheet.(information := WithoutId(sheet.information, id), dateLastEdited := now))
  }

  /** Removing a block just added under an id no other block carries gives
      back the sheet's earlier information. */
  lemma RemoveUndoesAdd(sheet: Sheet, nb: NewBlock, id: BlockId, t1: string, t2: string)
    requires forall k :: 0 <= k < |sheet.information| ==> sheet.information[k].id != id
    ensures var added := AddInformationBlock(Some(sheet), nb, id, t1);
      RemoveInformationBlock(Some(added.value), id, t2) == Success(sheet.(dateLastEdited := t2))
  {
    var block := Block(id, nb.content, Some(MetadataOrEmpty(nb.metadata)));
    WithoutIdAppend(sheet.information, [block], id);
    WithoutIdAbsent(sheet.information, id);
    assert WithoutId([block], id) == [];
    assert sheet.information + [] == sheet.information;
  }

  /** `duplicateStructure`: a fresh sheet with the title marked as a copy,
      the same three prompts and no information; with no sheet loaded it
      fails. */
  function DuplicateStructure(loaded: Option<Sheet>, now: string): (r: Result<Sheet, HandlerError>)
    ensures r.Failure? <==> loaded.None?
    ensures r.Success? ==>
      && StartsWith(r.value.title, loaded.value.title)
      && r.value.title[|loaded.value.title|..] == COPY_SUFFIX
      && r.value.contextPrompt == loaded.value.contextPrompt
      && r.value.inputPrompt == loaded.value.inputPrompt
      && r.value.outputPrompt == loaded.value.outputPrompt
      && r.value.information == [] && r.value.dateLastEdited == now
  {
    match loaded
    case None => Failure(NoRecallLoaded)
    case Some(sheet) =>
      Success(Sheet(sheet.title + COPY_SUFFIX, now, sheet.contextPrompt, sheet.inputPrompt, sheet.outputPrompt, []))
  }

  /** A duplicate of a sheet whose prompts are all truthy is the fresh sheet
      created under the copy's title with those prompts. */
  lemma DuplicateIsNewSheet(sheet: Sheet, defaults: Prompts, now: string)
    requires AllTruthy(Prompts(sheet.contextPrompt, sheet.inputPrompt, sheet.outputPrompt))
    ensures DuplicateStructure(Some(sheet), now)
      == Success(CreateNewRecallData(sheet.title + COPY_SUFFIX,
                                     Prompts(sheet.contextPrompt, sheet.inputPrompt, sheet.outputPrompt), defaults, now))
  {
    assert (sheet.title + COPY_SUFFIX) != "" by { assert |sheet.title + COPY_SUFFIX| >= |COPY_SUFFIX| > 0; }
  }

  /** `typeof v === 'string'` for the result of a property read. */
  predicate IsStringRead(v: Result<JsValue, Key>) {
    v.Success? && v.value.Defined? && v.value.json.JString?
  }

  /** `Array.isArray(v)` for the result of a property read. */
  predicate IsArrayRead(v: Result<JsValue, Key>) {
    v.Success? && v.value.Defined? && v.value.json.JArray?
  }

  /** `validateRecallData`: the value is truthy, its title and three prompts
      read as strings and its information reads as an array. Only an object
      passes, and exactly when it holds those five fields with the right kinds
      of value; the date is not checked. */
  function ValidateRecallData(data: JsValue): (r: bool)
    ensures r <==>
      && data.Defined? && data.json.JObject?
      && var f := data.json.fields;
      && "title" in f && f["title"].JString?
      && "contextPrompt" in f && f["contextPrompt"].JString?
      && "inputPrompt" in f && f["inputPrompt"].JString?
      && "outputPrompt" in f && f["outputPrompt"].JString?
      && "information" in f && f["information"].JArray?
  {
    && data.Defined? && Truthy(data.json)
    && IsStringRead(Get(data, Field("title")))
    && IsStringRead(Get(data, Field("contextPrompt")))
    && IsStringRead(Get(data, Field("inputPrompt")))
    && IsStringRead(Get(data, Field("outputPrompt")))
    && IsArrayRead(Get(data, Field("information")))
  }

  /** A sheet as the plain object the handler keeps, given how its blocks
      look as JSON values. */
  function SheetJson(sheet: Sheet, blockJson: Block -> Json): Json {
    JObject(map[
      "title" := JString(sheet.title),
      "dateLastEdited" := JString(sheet.dateLastEdited),
      "contextPrompt" := JString(sheet.contextPrompt),
      "inputPrompt" := JString(sheet.inputPrompt),
      "outputPrompt" := JString(sheet.outputPrompt),
      "information" := JArray(seq(|sheet.information|, k requires 0 <= k < |sheet.information| => blockJson(sheet.information[k])))])
  }

  /** Every sheet the handler builds passes validation. */
  lemma SheetsValidate(sheet: Sheet, blockJson: Block -> Json)
    ensures ValidateRecallData(Defined(SheetJson(sheet, blockJson)))
  {
  }

  /** The block chosen at random, with its position and the list length. */
  datatype Pick = Pick(block: Block, index: nat, total: nat)

  /** `getRandomInformationBlock`, with the `Math.random()` draw passed in:
      nothing when no sheet is loaded or it has no information, otherwise the
      block at `floor(draw * length)`. */
  function GetRandomInformationBlock(loaded: Option<Sheet>, draw: real): (r: Option<Pick>)
    requires 0.0 <= draw < 1.0
    ensures r.None? <==> loaded.None? || |loaded.value.information| == 0
    ensures r.Some? ==>
      && r.value.total == |loaded.value.information|
      && r.value.index < r.value.total
      && r.value.block == loaded.value.information[r.value.index]
  {
    if loaded.None? || |loaded.value.information| == 0 then None
    else
      var info := loaded.value.information;
      var index := FloorIndex(draw, |info|);
      Some(Pick(info[index], index, |info|))
  }

  /** `Math.floor(draw * n)` for a draw in [0, 1): an index below `n`. */
  function FloorIndex(draw: real, n: nat): (r: nat)
    requires 0.0 <= draw < 1.0 && n > 0
    ensures r < n
    ensures r as real <= draw * n as real < r as real + 1.0
  {
    assert draw * n as real < n as real by { ScaleBelow(draw, n as real); }
    (draw * n as real).Floor
  }

  lemma ScaleBelow(x: real, y: real)
    requires 0.0 <= x < 1.0 && y > 0.0
    ensures x * y < y
  {
  }

  /** A block with its neighbours, its position and the list length. */
  datatype Located = Located(window: Window, index: nat, total: nat)

  /** `getInformationBlockWithContext(index, contextSize)`: nothing when no
      sheet is loaded or the index is past the end; otherwise the block, the
      up to `contextSize` blocks just before it and the up to `contextSize`
      blocks just after it. The handler's default `contextSize` is 2, the size
      the study session asks for (`App.SessionMatchesHandler`). */
  function GetInformationBlockWithContext(loaded: Option<Sheet>, index: nat, contextSize: nat): (r: Option<Located>)
    ensures r.None? <==> loaded.None? || index >= |loaded.value.information|
    ensures r.Some? ==>
      var info := loaded.value.information;
      var w := r.value.window;
      && r.value.index == index && r.value.total == |info|
      && w.main == info[index]
      && |w.before| == Min(index, contextSize)
      && w.before == info[index - |w.before|..index]
      && |w.after| == Min(contextSize, |info| - 1 - index)
      && w.after == info[index + 1..index + 1 + |w.after|]
  {
    if loaded.None? || index >= |loaded.value.information| then None
    else
      var info := loaded.value.information;
      var startIdx := Max(0, index - contextSize);
      var endIdx := Min(|info| - 1, index + contextSize);
      Some(Located(Window(info[index], Slice(info, startIdx, index), Slice(info, index + 1, endIdx + 1)), index, |info|))
  }

  /** The window is one contiguous run of the list: the blocks before, the
      block, the blocks after. */
  lemma ContextContiguous(loaded: Option<Sheet>, index: nat, contextSize: nat)
    requires loaded.Some? && index < |loaded.value.information|
    ensures var w := GetInformationBlockWithContext(loaded, index, contextSize).value.window;
      var info := loaded.value.information;
      w.before + [w.main] + w.after == info[index - |w.before|..index + 1 + |w.after|]
  {
    var w := GetInformationBlockWithContext(loaded, index, contextSize).value.window;
    var info := loaded.value.information;
    RunAround(info, index - |w.before|, index, index + 1 + |w.after|);
  }
}
