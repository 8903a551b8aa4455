/** The ingest flow end to end: the UI's `processInfo` fed with the outcome
    of the AI handler's `processInformation`. */
module Ingest {
  import opened Wrappers
  import opened Text
  import opened Json
  import opened Blocks
  import opened Gateway
  import opened Pipeline
  import App

  /** End to end: when the trimmed information is not blank and the
      configured provider answers the processing call with a well-formed reply
      whose text is `text`, the sheet gains exactly the blocks that text reads
      as, after the existing ones, and nothing is lost. */
  lemma ProcessInfoReadsReply(e: App.Editor, rawInfo: string, c: Config, env: Env, now: string,
                              body: string, text: string, mint: nat -> BlockId)
    requires Trim(rawInfo) != ""
    requires Configured(c) && VendorOf(c.provider).Some?
    requires env.net(BuildRequest(VendorOf(c.provider).value, c,
                                  ProcessSystemPrompt(e.sheet.contextPrompt, e.sheet.inputPrompt),
                                  ProcessUserPrompt(Trim(rawInfo)))) == Response(true, body)
    requires env.parse(body) == Some(VendorReply(VendorOf(c.provider).value, text))
    ensures var outcome := ProcessInformation(c, env, Trim(rawInfo), e.sheet.inputPrompt,
                                              e.sheet.contextPrompt, now);
      var r := App.ProcessInfo(e, rawInfo, outcome, mint);
      var added := InterpretBlocks(text, env, now);
      && |r.sheet.information| == |e.sheet.information| + |added|
      && r.sheet.information[..|e.sheet.information|] == e.sheet.information
      && forall k :: 0 <= k < |added| ==>
           r.sheet.information[|e.sheet.information| + k] == Block(mint(k), added[k].content, None)
  {
    ProcessInformationReadsReply(c, env, Trim(rawInfo), e.sheet.inputPrompt, e.sheet.contextPrompt,
                                 now, body, text);
  }
}
