/** The smart-refine step of the worker: whether a transcript is handed to the
    language model, the query it is given, and how its reply is accepted or
    the original transcript kept. The model call itself is a parameter. */
module SmartWorkflow {
  import opened Wrappers
  import opened Text
  import opened PromptTemplates
  import opened UserGlossary

  /** `should_refine`: refinement is on and the mode has a template. */
  predicate ShouldRefine(mode: string, smartRefineEnabled: bool) {
    smartRefineEnabled && mode in Templates
  }

  /** Exactly the non-default modes are refined, and only when enabled. */
  lemma ShouldRefineIff(mode: string, smartRefineEnabled: bool)
    ensures ShouldRefine(mode, smartRefineEnabled)
      <==> smartRefineEnabled && mode in SmartModes && mode != SmartModeNormal
  {
  }

  /** The default mode is never refined, whatever the flag says. */
  lemma NormalNeverRefines(smartRefineEnabled: bool)
    ensures !ShouldRefine(SmartModeNormal, smartRefineEnabled)
    ensures !ShouldRefine("", smartRefineEnabled)
  {
  }

  /** `mode or SMART_MODE_NORMAL`. */
  function NormalizedMode(mode: string): (r: string)
    ensures r != ""
    ensures mode != "" ==> r == mode
    ensures mode == "" ==> r == SmartModeNormal
  {
    if mode == "" then SmartModeNormal else mode
  }

  /** The fixed text between the glossary and the draft. */
  const DraftLabel: string := "User draft:\n"

  /** The glossary block of a query: the context and a blank line, or nothing. */
  function GlossaryBlock(ctx: string): string {
    if ctx == "" then "" else ctx + "\n\n"
  }

  /** The two f-strings of `build_user_query`, over an already stripped
      template and draft and the glossary context. */
  function Query(template: string, ctx: string, draft: string): (q: string)
    ensures var head := template + "\n\n"; var tail := DraftLabel + draft;
      && |q| == |head| + |GlossaryBlock(ctx)| + |tail|
      && q[..|head|] == head
      && q[|head|..|head| + |GlossaryBlock(ctx)|] == GlossaryBlock(ctx)
      && q[|q| - |tail|..] == tail
  {
    if ctx != "" then template + "\n\n" + ctx + "\n\n" + DraftLabel + draft
    else template + "\n\n" + DraftLabel + draft
  }

  /** `build_user_query` for the glossary `g`; `None` is the `KeyError` of a
      mode without a template. */
  function BuildUserQuery(mode: string, transcript: string, g: Table): (r: Option<string>)
    ensures r.None? <==> mode !in Templates
    ensures r.Some? ==> r.value == Query(Strip(Templates[mode]), Context(g), Strip(transcript))
  {
    if mode !in Templates then None
    else Some(Query(Strip(Templates[mode]), Context(g), Strip(transcript)))
  }

  /** The draft can be read back off the end of a query. */
  lemma QueryInjective(template: string, ctx: string, d1: string, d2: string)
    ensures Query(template, ctx, d1) == Query(template, ctx, d2) <==> d1 == d2
  {
    var q1, q2 := Query(template, ctx, d1), Query(template, ctx, d2);
    if q1 == q2 {
      var tail1, tail2 := DraftLabel + d1, DraftLabel + d2;
      assert |tail1| == |tail2|;
      assert tail1 == q1[|q1| - |tail1|..] == tail2;
      assert d1 == tail1[|DraftLabel|..] == tail2[|DraftLabel|..] == d2;
    }
  }

  /** The query carries the draft recoverably: for one mode and glossary, two
      transcripts give the same query exactly when they strip to the same draft. */
  lemma QueryDeterminesDraft(mode: string, t1: string, t2: string, g: Table)
    requires mode in Templates
    ensures BuildUserQuery(mode, t1, g) == BuildUserQuery(mode, t2, g) <==> Strip(t1) == Strip(t2)
  {
    QueryInjective(Strip(Templates[mode]), Context(g), Strip(t1), Strip(t2));
  }

  /** With the glossary as shipped, the query is the template, a blank line,
      and the labelled draft. */
  lemma ShippedQuery(mode: string, transcript: string)
    requires mode in Templates
    ensures BuildUserQuery(mode, transcript, Glossary)
      == Some(Strip(Templates[mode]) + "\n\n" + DraftLabel + Strip(transcript))
  {
    ShippedGlossaryIsEmpty();
  }

  /** The model hook as `refine_transcript` sees it: a reply (`None` included, since
      it goes through `refined or ""`) or the exception it raised. */
  type QueryLlm = string -> Result<Option<string>, string>

  /** `refine_transcript` with the glossary `g`: the final text and whether it
      was refined, or the model hook's exception, which propagates. */
  function RefineTranscript(transcript: string, mode: string, smartRefineEnabled: bool, g: Table, queryLlm: QueryLlm): (r: Result<(string, bool), string>)
    ensures r.Success? && r.value.1 ==> r.value.0 != "" && IsStripped(r.value.0)
    ensures r.Success? && !r.value.1 ==> r.value.0 == transcript
    ensures !ShouldRefine(NormalizedMode(mode), smartRefineEnabled) ==> r == Success((transcript, false))
  {
    var normalizedMode := NormalizedMode(mode);
    if !ShouldRefine(normalizedMode, smartRefineEnabled) then Success((transcript, false))
    else
      var query := BuildUserQuery(normalizedMode, transcript, g).value;
      match queryLlm(query)
      case Failure(e) => Failure(e)
      case Success(refined) =>
        var refinedText := Strip(refined.GetOr(""));
        if refinedText == "" then Success((transcript, false)) else Success((refinedText, true))
  }

  /** When refining: the hook's exception propagates; a missing or blank
      reply keeps the transcript; any other reply is taken, stripped. */
  lemma RefineOutcome(transcript: string, mode: string, smartRefineEnabled: bool, g: Table, queryLlm: QueryLlm)
    requires ShouldRefine(NormalizedMode(mode), smartRefineEnabled)
    ensures var query := BuildUserQuery(NormalizedMode(mode), transcript, g).value;
      var r := RefineTranscript(transcript, mode, smartRefineEnabled, g, queryLlm);
      match queryLlm(query)
      case Failure(e) => r == Failure(e)
      case Success(None) => r == Success((transcript, false))
      case Success(Some(reply)) =>
        r == if AllSpace(reply) then Success((transcript, false)) else Success((Strip(reply), true))
  {
  }

  /** Without refinement the hook is never consulted: any two hooks give the
      same result. */
  lemma NotRefiningIgnoresHook(transcript: string, mode: string, smartRefineEnabled: bool, g: Table, f1: QueryLlm, f2: QueryLlm)
    requires !ShouldRefine(NormalizedMode(mode), smartRefineEnabled)
    ensures RefineTranscript(transcript, mode, smartRefineEnabled, g, f1)
      == RefineTranscript(transcript, mode, smartRefineEnabled, g, f2)
  {
  }
}
