/** The page's generation flow: a click on one of the four tool cards is
    checked against the current request, and if it passes, the request is
    re-tagged with the clicked mode, sent to the generation service, and
    the page moves from "loading" to either a result or an error. */
module App {
  import opened Wrappers
  import opened Text
  import opened Types
  import Service
  import Prompt

  /** The page's state: the request being edited, whether a generation is
      in flight, the last result and the error banner. */
  datatype AppState = AppState(
    params: GeneratorParams,
    isLoading: bool,
    result: Option<GeneratedContent>,
    error: Option<string>)

  // ---------------------------------------------------------------------------
  // The gate
  // ---------------------------------------------------------------------------

  const RewriterNeedsNotes: string := "Rewriter mode requires existing text in 'Contextual Input'."
  const MemorandumNeedsInput: string := "Memorandum mode requires a Topic or pasted questions in 'Contextual Input'."
  const TopicRequired: string := "Please specify a Topic (e.g., 'Safety') in the sidebar first."

  /** What each mode needs before anything is sent: rewriting needs text to
      rewrite, a memorandum needs either pasted questions or a topic, and
      the two generators need a topic. */
  predicate Admissible(p: GeneratorParams, mode: ToolMode) {
    match mode
    case Rewriter => HasNotes(p)
    case Memorandum => HasNotes(p) || p.topic != ""
    case QuestionGenerator => p.topic != ""
    case WorksheetBuilder => p.topic != ""
  }

  /** The three checks, in the order the handler makes them; the first
      that fires supplies the banner. */
  function Rejection(p: GeneratorParams, mode: ToolMode): (r: Option<string>)
    ensures r.None? <==> Admissible(p, mode)
    ensures r == Some(RewriterNeedsNotes) <==> mode == Rewriter && !HasNotes(p)
    ensures r == Some(MemorandumNeedsInput) <==> mode == Memorandum && !HasNotes(p) && p.topic == ""
    ensures r == Some(TopicRequired) <==> (mode == QuestionGenerator || mode == WorksheetBuilder) && p.topic == ""
  {
    if mode == Rewriter && !HasNotes(p) then Some(RewriterNeedsNotes)
    else if mode == Memorandum && !HasNotes(p) && p.topic == "" then Some(MemorandumNeedsInput)
    else if p.topic == "" && mode != Rewriter && mode != Memorandum then Some(TopicRequired)
    else None
  }

  /** The gate reads only the mode, whether there are notes and whether
      the topic is empty; it never looks at the request's own mode, so the
      mode being switched away from plays no part. */
  lemma RejectionReadsOnlyNotesAndTopic(p: GeneratorParams, q: GeneratorParams, mode: ToolMode)
    requires HasNotes(p) == HasNotes(q)
    requires (p.topic == "") == (q.topic == "")
    ensures Rejection(p, mode) == Rejection(q, mode)
  {
    if Rejection(p, mode).None? {
      assert Admissible(q, mode);
    }
  }

  /** What the gate buys the prompt: a Rewriter request it lets through
      quotes real text after "Content to Rewrite:", never the word
      "undefined" an absent value would print. */
  lemma GateFeedsRewriterPrompt(prose: Prompt.Prose, p: GeneratorParams)
    requires Admissible(p, Rewriter)
    ensures p.additionalNotes.Some? && p.additionalNotes.value != ""
    ensures Contains(Prompt.Assemble(prose, p.(mode := Rewriter)), "Content to Rewrite:" + "\n" + p.additionalNotes.value)
  {
    var q := p.(mode := Rewriter);
    Prompt.RewriterInputs(q);
    assert Types.NotesText(q) == p.additionalNotes.value;
    Prompt.InputsInPrompt(prose, q, "Content to Rewrite:" + "\n" + p.additionalNotes.value);
  }

  /** A Memorandum request the gate lets through without notes has a
      topic, so the fallback sentence in its prompt names one. */
  lemma GateFeedsMemorandumPrompt(prose: Prompt.Prose, p: GeneratorParams)
    requires Admissible(p, Memorandum) && !HasNotes(p)
    ensures p.topic != ""
    ensures Contains(Prompt.Assemble(prose, p.(mode := Memorandum)), "Assessment Questions/Context:" + "\n" + (Prompt.MemorandumFallback + p.topic))
  {
    var q := p.(mode := Memorandum);
    Prompt.MemorandumInputs(q);
    Prompt.InputsInPrompt(prose, q, "Assessment Questions/Context:" + "\n" + (Prompt.MemorandumFallback + p.topic));
  }

  // ---------------------------------------------------------------------------
  // The result's title
  // ---------------------------------------------------------------------------

  const TitleFallback: string := "Assessment Output"

  /** `${grade} ${subject}: ${topic || 'Assessment Output'}` */
  function Title(p: GeneratorParams): (r: string)
    ensures StartsWith(r, p.grade + " " + p.subject + ": ")
    ensures p.topic != "" ==> EndsWith(r, p.topic)
    ensures p.topic == "" ==> EndsWith(r, TitleFallback)
    ensures |r| == |p.grade| + |p.subject| + 3 + (if p.topic == "" then |TitleFallback| else |p.topic|)
  {
    var head := p.grade + " " + p.subject + ": ";
    var tail := if p.topic == "" then TitleFallback else p.topic;
    PrefixOfConcat(head, tail);
    SuffixOfConcat(head, tail);
    head + tail
  }

  /** The title reads the topic, grade and subject only; in particular a
      title made before the mode switch equals one made after. */
  lemma TitleIgnoresMode(p: GeneratorParams, mode: ToolMode)
    ensures Title(p.(mode := mode)) == Title(p)
  {
  }

  // ---------------------------------------------------------------------------
  // The click
  // ---------------------------------------------------------------------------

  /** The states the page shows after a click, in order, and the request
      the service was called with, if it was called. */
  datatype Click = Click(states: seq<AppState>, request: Option<GeneratorParams>)

  /** `handleToolClick`. The service is a parameter (the awaited call,
      which either returns the text or throws with a message) and so is the
      clock's rendering of the current time. A rejected click shows one new
      state, with the banner; an accepted one shows two: the loading state
      (request re-tagged, banner and result cleared) and the settled state
      (loading over, exactly one of result and banner). */
  function HandleToolClick(s: AppState, mode: ToolMode, service: GeneratorParams -> Result<string, string>, now: string): (c: Click)
    ensures c.request.None? <==> !Admissible(s.params, mode)
    ensures c.request.None? ==> c.states == [s.(error := Rejection(s.params, mode))]
    ensures c.request.Some? ==> c.request.value == s.params.(mode := mode)
    ensures c.request.Some? ==> (&& |c.states| == 2
                                 && c.states[0] == AppState(c.request.value, true, None, None)
                                 && c.states[1].params == c.request.value
                                 && !c.states[1].isLoading
                                 && (c.states[1].result.Some? <==> c.states[1].error.None?))
  {
    match Rejection(s.params, mode)
    case Some(message) =>
      Click([s.(error := Some(message))], None)
    case None =>
      var request := s.params.(mode := mode);
      var pending := s.(params := request, isLoading := true, error := None, result := None);
      var settled :=
        match service(request)
        case Success(content) => pending.(result := Some(GeneratedContent(Title(s.params), content, now)))
        case Failure(message) => pending.(error := Some(message));
      Click([pending, settled.(isLoading := false)], Some(request))
  }

  /** The state a click leaves the page in. */
  function Final(c: Click): AppState
    requires |c.states| > 0
  {
    c.states[|c.states| - 1]
  }

  /** An accepted click ends in the service's outcome: its text under the
      request's title and the clock's time, or its message in the banner. */
  lemma AcceptedClickShowsOutcome(s: AppState, mode: ToolMode, service: GeneratorParams -> Result<string, string>, now: string)
    requires Admissible(s.params, mode)
    ensures var c := HandleToolClick(s, mode, service, now);
            var out := service(s.params.(mode := mode));
            && |c.states| == 2
            && (out.Success? ==> Final(c).result == Some(GeneratedContent(Title(s.params.(mode := mode)), out.value, now)))
            && (out.Failure? ==> Final(c).error == Some(out.error) && Final(c).result.None?)
  {
    TitleIgnoresMode(s.params, mode);
  }

  /** A rejected click changes nothing but the banner: the request keeps
      its mode and the previous result stays on the page. */
  lemma RejectedClickKeepsPage(s: AppState, mode: ToolMode, service: GeneratorParams -> Result<string, string>, now: string)
    requires !Admissible(s.params, mode)
    ensures var c := HandleToolClick(s, mode, service, now);
            && |c.states| == 1
            && Final(c).params == s.params
            && Final(c).result == s.result
            && Final(c).isLoading == s.isLoading
            && Final(c).error == Rejection(s.params, mode)
            && Final(c).error.Some?
  {
  }

  /** Not loading, and not showing a result and a banner together. */
  predicate Settled(s: AppState) {
    !s.isLoading && !(s.result.Some? && s.error.Some?)
  }

  /** From a page that is not loading, a click never leaves it loading;
      the only way it ends up showing a result and a banner together is a
      rejected click over a result that was already on the page. */
  lemma ClickSettles(s: AppState, mode: ToolMode, service: GeneratorParams -> Result<string, string>, now: string)
    requires !s.isLoading
    ensures var f := Final(HandleToolClick(s, mode, service, now));
            && !f.isLoading
            && (Admissible(s.params, mode) || s.result.None? ==> Settled(f))
            && (f.result.Some? && f.error.Some? ==> !Admissible(s.params, mode) && f.result == s.result)
  {
  }

  /** With the real service, every banner the page can show is one of the
      three gate messages or the service's failure message, and every
      result it shows has non-empty content. */
  lemma ClickMessages(s: AppState, mode: ToolMode, service: GeneratorParams -> Result<string, string>, now: string)
    requires Service.Honours(service)
    ensures var f := Final(HandleToolClick(s, mode, service, now));
            && (f.error.Some? ==> f.error.value in {RewriterNeedsNotes, MemorandumNeedsInput, TopicRequired, Service.FailureMessage})
            && (f.result.Some? && f.result != s.result ==> f.result.value.content != "")
  {
    var r := Rejection(s.params, mode);
    if r.None? {
      var out := service(s.params.(mode := mode));
      assert out.Success? ==> out.value != "";
      assert out.Failure? ==> out.error == Service.FailureMessage;
    }
  }
}
