# Recall sheets and the AI response layer, modelled in Dafny

The application keeps study material as *recall sheets*: a title, a date, three
instruction prompts (context, input, output) and an ordered list of
information blocks. A sheet is saved as a `.recall` text file. The file has a
title line and a date line, then four sections each opened by a separator line
`=======`: the three prompts, then the blocks as a JSON array. A language-model
provider (OpenAI, Anthropic, DeepSeek or Google) is used for two jobs. It splits
raw text into blocks, and it turns a block and its neighbours into a question.
Its free-form replies are cleaned of Markdown code fences and read as JSON. When
that fails, the widest bracketed span is read instead, and failing that a fixed
fallback is used.

The model is functional: immutable datatypes and pure functions over strings
and sequences.

- `wrappers.dfy` (`Wrappers`): `Option` and `Result`.
- `text.dfy` (`Text`): `trim`, `split('\n')`, `join('\n')`, `startsWith` and
  `includes` over `seq<char>`, with the ECMAScript whitespace set.
- `json.dfy` (`Json`): JSON values as `JSON.parse` returns them, and JavaScript
  property reads (`a.b[0].c`), where reading a field of `undefined`/`null`
  throws.
- `blocks.dfy` (`Blocks`): information blocks, `Array.prototype.slice` and the
  filter-by-id used by both the handler and the UI.
- `recall_format.dfy` (`RecallFormat`): the file handler. It covers sheet
  creation, the line-by-line parser with its section state machine, the
  formatter, add, remove and duplicate, validation, the random pick and the
  context window.
- `extractor.dfy` (`Extractor`): fence cleaning, the greedy bracket span and
  the two-step JSON read.
- `gateway.dfy` (`Gateway`): the handler's configuration, the guard and
  routing in `_makeAPICall`, and each vendor's request and reply path. The
  network is the function `net: Request -> Exchange`.
- `pipeline.dfy` (`Pipeline`): `processInformation`, `generateQuestionAnswer`
  and `testConnection`, with their prompts and fallbacks.
- `app.dfy` (`App`): the UI helpers. These are the provider guess from an API
  key, file-name sanitising, the ±2 question window, token estimates, block
  removal and append, and the two downloads.
- `ingest.dfy` (`Ingest`): the ingest flow end to end, from the provider's
  reply to the blocks `processInfo` appends.

`JSON.parse` and `JSON.stringify` stay abstract. They are function-valued
parameters: `InfoCodec` for the file's information section, `Env` for the AI
handler. `parse` returns `None` where `JSON.parse` would throw. The following
are also parameters:

- the clock (`now`, an ISO timestamp string);
- `Math.random()` (a `draw` in [0, 1));
- the ids minted from `Date.now()` (`BlockId` values);
- the network.

A JavaScript value that may be falsy, such as an unset configuration field or
an omitted prompt, is modelled as the empty string.

## Model

| member | source | states |
|---|---|---|
| RecallFormat.CreateNewRecallData | js/recall-file-handler.js:22-32 | A falsy title becomes "Untitled Recall Sheet". Each falsy prompt becomes its default and each truthy one is kept. The date is the time given and the sheet has no blocks. |
| RecallFormat.NewSheetTruthy | js/recall-file-handler.js:22-32 | With truthy defaults, every text field of a new sheet is non-empty, whatever the caller passed. |
| RecallFormat.ContextDefaultTruthy | js/recall-file-handler.js:10 | The built-in context prompt is non-empty. |
| RecallFormat.InputDefaultTruthy | js/recall-file-handler.js:11 | The built-in input prompt is non-empty. |
| RecallFormat.OutputDefaultTruthy | js/recall-file-handler.js:12 | The built-in output prompt is non-empty. |
| RecallFormat.SaveSection | js/recall-file-handler.js:111-131 | Storing a section changes only its own field. A prompt is stored trimmed. The information section is decoded from its trimmed text and becomes [] when decoding fails. |
| RecallFormat.SaveSectionOverwrites | js/recall-file-handler.js:111-131 | Storing a section a second time overwrites the first: the last text stored there is the one that counts. |
| RecallFormat.SaveSectionsCommute | js/recall-file-handler.js:111-131 | Storing two different sections gives the same sheet in either order. |
| RecallFormat.SaveSectionTrims | js/recall-file-handler.js:111-131 | Storing any section keeps all three prompts free of whitespace at their ends. |
| RecallFormat.ScanTrims | js/recall-file-handler.js:55-92 | Scanning any lines keeps the three prompts free of whitespace at their ends. |
| RecallFormat.ParsedFieldsTrimmed | js/recall-file-handler.js:39-131 | Whatever text is read, the title comes back as one line with no whitespace at its ends, and each prompt comes back with no whitespace at its ends. |
| RecallFormat.ScanLines | js/recall-file-handler.js:55-92 | Scanning the body lines never changes the title or the date. Once a separator has been seen, it stays seen. |
| RecallFormat.ParseLines | js/recall-file-handler.js:41-68 | Line 0 is the title and line 1 the date, both trimmed. They are taken even when they read as separators. A one-line file has an empty date. |
| RecallFormat.ParseRecallFile | js/recall-file-handler.js:39-105 | The title is the first line of the text, trimmed. Parsing never fails. |
| RecallFormat.ScanAppend | js/recall-file-handler.js:55-92 | Scanning is a left fold over the lines: a concatenation is scanned piece by piece. |
| RecallFormat.ScanPlain | js/recall-file-handler.js:70-91 | Lines that are not separators are dropped before the first separator. After it they are collected untrimmed and in order. |
| RecallFormat.ScanSection | js/recall-file-handler.js:71-91 | After the first separator, a separator stores the collected lines in the current section. It then moves to the next section, which collects the lines that follow. |
| RecallFormat.NoSeparatorNoSections | js/recall-file-handler.js:42-49 | With no separator after the date, every prompt is empty and there are no blocks. |
| RecallFormat.ParseSections | js/recall-file-handler.js:55-97 | Anything between the date and the first separator is dropped. The four sections are stored as context, input, output and information, in that order. Each prompt is its own lines joined by newlines and trimmed. An empty last section leaves the blocks empty. |
| RecallFormat.ScanBody | js/recall-file-handler.js:70-92 | Scanning the preamble and four sections leaves the three prompts stored and the information lines pending. |
| RecallFormat.ScanTail | js/recall-file-handler.js:76-84 | The second, third and fourth separators store context, input and output, in that order. |
| RecallFormat.FormatRecallFile | js/recall-file-handler.js:138-153 | The file starts with the title followed by a newline. |
| RecallFormat.FormatLines | js/recall-file-handler.js:138-153 | The lines of a formatted file are the title, the date (the current time when the sheet has none), then four separators. Each separator is followed by the lines of its prompt or of the encoded information. |
| RecallFormat.RoundTrip | js/recall-file-handler.js:39-153 | Parsing a formatted sheet gives back its title, date, prompts and blocks. This holds when the title and date are trimmed single lines, the prompts are trimmed and hold no separator line, and the decoder reads back what the encoder wrote. |
| RecallFormat.MetadataOrEmpty | js/recall-file-handler.js:167 | Missing or falsy metadata becomes `{}`. Truthy metadata is kept. |
| RecallFormat.AddInformationBlock | js/recall-file-handler.js:159-172 | Fails iff nothing is loaded. Otherwise exactly one block is appended after the unchanged old ones, with the given id, the content and the metadata (or `{}`). The date is stamped and nothing else changes. |
| RecallFormat.RemoveInformationBlock | js/recall-file-handler.js:178-186 | Fails iff nothing is loaded. Otherwise the blocks are exactly the old ones with that id filtered out, in order, so a block remains iff it was there and its id differs. The date is stamped and nothing else changes. |
| RecallFormat.RemoveUndoesAdd | js/recall-file-handler.js:159-186 | Removing a block just added under a fresh id restores the old blocks. |
| RecallFormat.DuplicateStructure | js/recall-file-handler.js:192-205 | Fails iff nothing is loaded. Otherwise the copy's title is the old title followed by " (Copy)", the three prompts are equal, there are no blocks and the date is new. |
| RecallFormat.DuplicateIsNewSheet | js/recall-file-handler.js:192-205 | When the prompts are truthy, a duplicate equals the new sheet created with the copy's title and those prompts. |
| RecallFormat.ValidateRecallData | js/recall-file-handler.js:231-238 | True iff the value is an object whose title and three prompts are strings and whose information is an array. The date is not checked. |
| RecallFormat.SheetsValidate | js/recall-file-handler.js:231-238 | Every sheet, seen as the handler's plain object, passes validation. |
| RecallFormat.GetRandomInformationBlock | js/recall-file-handler.js:244-255 | Nothing iff no sheet is loaded or it has no blocks. Otherwise the result is the block at an index below the length, with that index and the length. |
| RecallFormat.FloorIndex | js/recall-file-handler.js:249 | `floor(draw * n)` for a draw in [0, 1) is an index below n, and it is the floor. |
| RecallFormat.GetInformationBlockWithContext | js/recall-file-handler.js:263-279 | Nothing iff no sheet is loaded or the index is past the end. Otherwise `before` is the min(i, cs) blocks just before the index and `after` is the min(cs, len-1-i) blocks just after it. |
| RecallFormat.ContextContiguous | js/recall-file-handler.js:268-278 | before ++ [main] ++ after is one contiguous slice of the blocks. |
| Text.TrimShape | js/recall-file-handler.js:56 | `trim` leaves the infix between the leading and the trailing whitespace, and that infix has no whitespace at either end. |
| Text.TrimFixed | js/recall-file-handler.js:114 | Trimming changes nothing iff there is no whitespace at either end. |
| Text.TrimEmpty | js/dark-minimal-app.js:198 | A text trims to empty iff it is all whitespace. |
| Text.TrimIdempotent | js/recall-file-handler.js:114 | Trimming twice is trimming once. |
| Text.JoinSplit | js/recall-file-handler.js:41 | Joining the pieces of a split gives the text back. |
| Text.SplitJoin | js/recall-file-handler.js:152 | Splitting a join of newline-free lines gives the lines back. |
| Text.SplitAround | js/recall-file-handler.js:41 | The pieces of `a + "\n" + b` are the pieces of a followed by those of b. |
| Text.SplitNoNewline | js/recall-file-handler.js:41 | No piece of a split holds a newline. |
| Json.Get | js/ai-handler.js:143 | Reading a property fails iff the value is undefined or null, and the failure names the key. |
| Json.FollowAppend | js/ai-handler.js:210 | Reading a path p ++ q means reading p and then reading q from the result. |
| Blocks.Slice | js/recall-file-handler.js:274-275 | `slice` clamps both bounds to the length. The result's length is the clamped range, and each element is the one at its offset. |
| Blocks.WithoutId | js/recall-file-handler.js:183-184 | A block survives the filter iff it was there and its id differs. |
| Blocks.WithoutIdOne | js/recall-file-handler.js:183-184 | A single block is kept iff its id differs. |
| Blocks.WithoutIdCounts | js/recall-file-handler.js:183-184 | Each block with the removed id occurs zero times afterwards. Every other block occurs exactly as often as before. |
| Blocks.WithoutIdAppend | js/recall-file-handler.js:183-184 | The filter works piecewise on a concatenation, so it keeps relative order. |
| Blocks.WithoutIdAbsent | js/dark-minimal-app.js:427 | Removing an id that no block carries changes nothing. |
| Blocks.WithoutIdIdempotent | js/dark-minimal-app.js:427 | Removing an id twice is removing it once. |
| Extractor.StripFence | js/ai-handler.js:48-51 | Dropping every fence, with or without the whitespace after it, leaves no fence behind. |
| Extractor.CleanNoFence | js/ai-handler.js:46-52 | After cleaning, the text never contains three backticks. |
| Extractor.CleanIdentity | js/ai-handler.js:46-52 | Cleaning is only trimming when the trimmed text holds no fence. |
| Extractor.FirstIndex | js/ai-handler.js:60 | Gives the first position of the character, or nothing iff the character is absent. |
| Extractor.LastIndex | js/ai-handler.js:60 | Gives the last position of the character, or nothing iff the character is absent. |
| Extractor.Recover | js/ai-handler.js:60 | A span exists iff some opening bracket precedes some closing one. The span runs from an opening bracket with none before it to a closing bracket with none after it. |
| Extractor.ExtractJson | js/ai-handler.js:56-66 | A strict parse is taken when it succeeds. Any result comes from the strict parse or from the recovered span. "No candidate" occurs iff the strict parse fails and no span exists. |
| Gateway.Configure | js/ai-handler.js:25-29 | All three fields are replaced. |
| Gateway.ConfigureForgets | js/ai-handler.js:25-29 | The earlier configuration has no influence on the new one. |
| Gateway.VendorOf | js/ai-handler.js:169-180 | A provider name routes to the vendor of that name. Nothing is routed iff no vendor has that name. |
| Gateway.ChatRequestCarriesPrompts | js/ai-handler.js:187-202 | OpenAI and DeepSeek are sent exactly two messages, system then user, carrying the two prompts, and the key as a bearer token. |
| Gateway.AnthropicRequestCarriesPrompts | js/ai-handler.js:217-234 | Anthropic is sent a top-level system prompt, the user prompt followed by "\n\nPlease respond with valid JSON only.", max_tokens 4096, the key header and version 2023-06-01. |
| Gateway.GoogleRequestCarriesPrompts | js/ai-handler.js:279-298 | Google is sent one part, `system + "\n\n" + user + "\n\nRespond with valid JSON only."`, at `base/model:generateContent?key=key`, with only a Content-Type header. |
| Gateway.ChatVendorsAgree | js/ai-handler.js:187-264 | OpenAI and DeepSeek get the same body and headers at different URLs. |
| Gateway.ExtractReadsReply | js/ai-handler.js:187-307 | Each vendor's extraction path reads the text back out of that vendor's reply shape. |
| Gateway.Call | js/ai-handler.js:204-210 | A network failure is a network error. A response that is not ok is an API error naming this vendor and carrying the response body. An ok body that does not parse is a bad body. Without extraction the parsed body is returned whole. With extraction the result is the value read along the vendor's reply path, or the read error naming the missing key. |
| Gateway.Dispatch | js/ai-handler.js:164-181 | "Not configured" occurs iff the key, provider or model is falsy. "Unsupported provider" occurs iff the handler is configured and the name is unknown. Only a known vendor can report an API error. A configured handler with a known provider makes exactly that vendor's call with the same prompts. |
| Gateway.DispatchReadsReply | js/ai-handler.js:164-307 | For any ok body that parses, a configured handler with a known vendor returns the whole body without extraction. With extraction it returns the value at the vendor's reply path, or the read error when the path breaks. |
| Gateway.DispatchReadsVendorReply | js/ai-handler.js:164-307 | A configured handler whose vendor answers ok with its usual shape returns exactly the reply text. |
| Gateway.DispatchApiErrorMessage | js/ai-handler.js:204-303 | A non-ok response is reported as "<Vendor> API error: " followed by the body. |
| Pipeline.ProcessSystemPromptFramed | js/ai-handler.js:39 | The processing system prompt starts with the context prompt and ends with the input prompt. |
| Pipeline.ProcessInformationCall | js/ai-handler.js:38-42 | Processing makes one extracting call. Its system prompt starts with the context prompt and ends with the input prompt. Its user prompt is the fixed instructions followed by the information verbatim. The outcome is that call's outcome read as blocks. |
| Pipeline.ProcessInformationReadsReply | js/ai-handler.js:38-93 | When the configured vendor answers ok with reply text t, the blocks are exactly what t reads as. |
| Pipeline.Number | js/ai-handler.js:74-80 | One block per element, in order. Each element's text is its content and its metadata index is its position. |
| Pipeline.InterpretBlocks | js/ai-handler.js:44-93 | When the reply reads as an array, there is one block per element, numbered by position, with strings trimmed and other values serialised. Otherwise there is exactly one block: the trimmed reply at index 0. |
| Pipeline.ProcessReply | js/ai-handler.js:42-93 | A failed call propagates. A non-string reply fails. Every string reply yields blocks. |
| Pipeline.PlainArrayReply | js/ai-handler.js:46-80 | A fence-free reply that parses as an array gives exactly one block per element, numbered by position. |
| Pipeline.NonArrayReplyFallsBack | js/ai-handler.js:69-92 | A reply that reads as no array gives exactly the one fallback block. |
| Pipeline.BlocksNumbered | js/ai-handler.js:74-92 | Every block's metadata index is its position. |
| Pipeline.Contents | js/ai-handler.js:106-112 | The contents of the blocks, in order. |
| Pipeline.QuestionSystemPromptFramed | js/ai-handler.js:104 | The question system prompt starts with the context prompt and ends with the output prompt. |
| Pipeline.ContextInfoLines | js/ai-handler.js:106-112 | The context parts split back into their labels and contents. A part is present iff its list is non-empty, and the earlier blocks come first. |
| Pipeline.Prefix100 | js/ai-handler.js:154 | `substring(0, 100)` is the prefix of length min(100, len). |
| Pipeline.InterpretQa | js/ai-handler.js:118-157 | The result is the fallback or has a truthy question and answer. A non-fallback result is exactly what the reply read as. When the reply is a string whose cleaned text reads as a value with a truthy question and answer, that value is the result. |
| Pipeline.GenerateQuestionAnswerCall | js/ai-handler.js:103-116 | Question generation makes one extracting call. Its system prompt starts with the context prompt and ends with the output prompt. Its user prompt has the opening sentence, then the context parts, then the main block under "Main information:", then the format instruction. The outcome is that call's outcome read as a question about the main block. |
| Pipeline.PromptPieces | js/ai-handler.js:114 | A prompt built from four pieces starts with the first, ends with the last, and holds the middle two in order at their offsets. |
| Pipeline.GenerateQuestionAnswerReadsReply | js/ai-handler.js:103-157 | When the configured vendor answers ok with reply text t, the question is what t reads as. |
| Pipeline.QuestionReply | js/ai-handler.js:116-157 | The result fails iff the call failed. Otherwise the reply is read as a question. |
| Pipeline.FallbackQaShape | js/ai-handler.js:152-156 | The fallback answer is the content verbatim. The question is the fixed phrase, the content's first min(100, len) characters and "...?". |
| Pipeline.QuestionAlwaysTruthy | js/ai-handler.js:143-156 | Whatever the reply, the question returned is truthy. |
| Pipeline.PlainQaReply | js/ai-handler.js:129-147 | A fence-free reply that parses to an object with a truthy question and answer is returned unchanged. |
| Pipeline.UnreadableQaFallsBack | js/ai-handler.js:143-156 | A non-string reply, or one without a truthy question and answer, gives the fallback. |
| Pipeline.TestConnection | js/ai-handler.js:313-349 | True only for a configured handler with a known provider whose call succeeded. |
| Pipeline.TestConnectionMeans | js/ai-handler.js:313-349 | True iff the call returns a string whose cleaned text, or widest brace span, reads as a value whose status is "connected". |
| Pipeline.PlainConnectedReply | js/ai-handler.js:313-344 | A plain reply parsing to a connected status makes the test succeed. |
| App.DetectProvider | js/dark-minimal-app.js:140-151 | An sk-ant- key is Anthropic and any other sk- key is OpenAI. Otherwise a 32-character key is DeepSeek, then an AI-prefixed key is Google. Nothing is guessed iff none of these applies. |
| App.DetectedIsDispatchable | js/dark-minimal-app.js:140-155 | A guessed provider configured with a non-empty key is never "not configured" and never "unsupported". |
| App.DeepSeekBeforeGoogle | js/dark-minimal-app.js:145-148 | A 32-character key starting with AI is taken for DeepSeek. |
| App.SanitizeChar | js/dark-minimal-app.js:210 | Lower-case letters and digits are kept. Upper-case letters are lowered. Anything else becomes `_`. The result is always in [a-z0-9_]. |
| App.Sanitize | js/dark-minimal-app.js:210 | Same length as the title, each character sanitised in place. |
| App.SanitizeSafe | js/dark-minimal-app.js:210 | The name holds only [a-z0-9_], and a name made only of those is unchanged. |
| App.SanitizeIdempotent | js/dark-minimal-app.js:210 | Sanitising twice is sanitising once. |
| App.FileName | js/recall-file-handler.js:219 | The download name is the base name followed by ".recall". |
| App.SessionWindow | js/dark-minimal-app.js:512-516 | Up to two blocks immediately before the index (min(2, i)) and up to two immediately after it (min(2, len-1-i)), in order. |
| App.SessionMatchesHandler | js/dark-minimal-app.js:512-516 | The UI's window is the file handler's context window at size 2. |
| App.NextQuestionWindow | js/dark-minimal-app.js:505-516 | No question iff the list is empty. Otherwise the window around some index in range. |
| App.SessionContiguous | js/dark-minimal-app.js:512-516 | before ++ [main] ++ after is one contiguous slice of the blocks. |
| App.EstimateTokens | js/dark-minimal-app.js:347 | The estimate is ceil(n/4): four times it covers n by less than four. |
| App.AddTokens | js/dark-minimal-app.js:70-73 | Each total grows by exactly its amount. |
| App.AddTokensMonotone | js/dark-minimal-app.js:70-73 | The totals never go down, and two additions equal one addition of the sums. |
| App.TotalLengthAppend | js/dark-minimal-app.js:356 | The summed content length of a concatenation is the sum of the two sums. |
| App.Minted | js/dark-minimal-app.js:363-368 | One block per processed block, in order, each with its minted id, the processed content and no metadata. |
| App.ProcessInfo | js/dark-minimal-app.js:336-368 | Blank information or a failed call changes nothing. Otherwise the old blocks stay in front and the new ones follow in order. Nothing else in the sheet changes. Both totals grow by the ceil(n/4) estimates. |
| Ingest.ProcessInfoReadsReply | js/dark-minimal-app.js:336-368 | With non-blank information and an ok reply from the configured vendor with text t, the sheet keeps its old blocks in front and gains exactly the blocks t reads as, in order, under the minted ids. |
| App.RemoveBlock | js/dark-minimal-app.js:426-428 | The blocks are exactly the old ones with that id filtered out, in order. A block remains iff it was there and its id differs. Nothing else changes. |
| App.RemoveFreshBlock | js/dark-minimal-app.js:426-428 | Removing a just-appended block with a fresh id restores the sheet. |
| App.DownloadRecall | js/dark-minimal-app.js:192-211 | No download iff the context, ingest or digest field trims to empty. Otherwise the sheet has the trimmed title (or 'untitled'), the three trimmed prompts, the time given and no blocks. It is saved as the sanitised title followed by ".recall". |
| App.DownloadRoundTrip | js/dark-minimal-app.js:192-211 | A downloaded sheet reads back from its file unchanged when its fields are single lines without separator lines. |
| App.DownloadEdited | js/dark-minimal-app.js:431-442 | The form's fields are taken verbatim, the date is the time given and the blocks are kept. The sheet is saved as the sanitised title followed by ".recall". |
| App.DownloadEditedRoundTrip | js/dark-minimal-app.js:431-442 | An edit whose title is a trimmed single line and whose prompts are trimmed and hold no separator line reads back from its file exactly as edited. |
| App.DownloadEditedReload | js/dark-minimal-app.js:431-442 | An edited title that spans lines or has whitespace at an end does not come back from the file as typed. Nor does an edited prompt with whitespace at an end. |

## Left out

- App.Sanitize: the source's `/[^a-z0-9]/gi` has no `u` flag and works per UTF-16 code unit. A character outside the Basic Multilingual Plane therefore becomes `__` there, but one `_` in the model.
- Strings are sequences of code points. JavaScript lengths, `substring(0, 100)` and the `/4` token estimates count UTF-16 code units, which differ for characters outside the Basic Multilingual Plane.
- `fetch`, `response.ok`, `response.text()` and `response.json()` are one `Exchange` value given by the `net` parameter. There are no retries or timeouts in the source.
- The internals of `JSON.parse` and `JSON.stringify` are left out. They are function parameters, and JSON objects are maps, so duplicate-key handling belongs to the parser.
- The file's information section is decoded to a block list. A JSON value that parses but is not a block list is folded into the failure case, giving `[]`; the source would store that value.
- The `try`/`catch` around `parseRecallFile` is not modelled. Nothing in the parser can throw on a string, so the "Invalid .recall file format" error is unreachable.
- `currentRecallData` is a field the handler mutates. The model passes the loaded sheet in (`Option<Sheet>`) and returns the new one.
- The DOM, `localStorage`, `FileReader`, the `Blob`/anchor download, overlays, `typeText`, timers, `alert` and `console` are left out.
- `Date`, `Date.now()` and `Math.random()` are parameters: one `now` per operation, minted `BlockId`s and a `draw` in [0, 1).
- Pipeline.InterpretBlocks: every block gets the same `createdAt` time, whereas the source calls `new Date()` once per block.
- Negative `index` or `contextSize` arguments to `getInformationBlockWithContext` are excluded by the `nat` type.
- `removeBlock` compares ids with loose `!=`. The model uses equality on opaque ids and does not model number/string coercion.
- The temperature 0.7 is an opaque constant that is sent but never computed with.
- The question-side input estimate (js/dark-minimal-app.js:521) measures `JSON.stringify(context)`, which is abstract here. Only `EstimateTokens` itself is modelled. The output estimate at line 531 is `EstimateTokens` of the two lengths.
- `NaN` token totals, from a non-numeric value in `localStorage`, are not modelled; totals are natural numbers.
- Pipeline.ProcessReply: the fallback at js/ai-handler.js:85-92 is commented as treating the entire response as one block, but line 87 trims it. A non-string extracted reply makes that `trim` throw, so the model's `ProcessReply` fails with `NotText`. `generateQuestionAnswer` falls back in the same case, and `InterpretQa` does too.
- `validateApiKey` and the view switching around it are UI flow; only `detectProvider` and the configuration it feeds are modelled.
