/** The generation service: it assembles the prompt, hands it to the
    language model and turns the model's answer into the text the page
    shows, or into one fixed error message. The model itself is outside
    the model of this system: it is a parameter, a function from prompt to
    reply. */
module Service {
  import opened Wrappers
  import opened Types
  import Prompt

  /** What awaiting the model yields: a response whose text may be missing
      or empty, or a thrown error (network, key, quota, anything). */
  datatype ModelReply = Reply(text: Option<string>) | Thrown

  /** Returned in place of a missing or empty response text. */
  const EmptyResponseText: string := "No content generated. Please refine your inputs."

  /** The message of the error rethrown for every failed call. */
  const FailureMessage: string := "Assessment generation failed. Please verify your connection or subject settings."

  /** What the caller receives for a given model reply: the response text
      when it is non-empty, the fixed notice when it is missing or empty,
      and the fixed failure message when the call threw. */
  function Complete(reply: ModelReply): (r: Result<string, string>)
    ensures r.Success? <==> reply.Reply?
    ensures r.Success? ==> r.value != ""
    ensures r.Failure? ==> r.error == FailureMessage
    ensures reply.Reply? && reply.text.Some? && reply.text.value != "" ==> r == Success(reply.text.value)
    ensures reply.Reply? && (reply.text.None? || reply.text.value == "") ==> r == Success(EmptyResponseText)
  {
    match reply
    case Thrown => Failure(FailureMessage)
    case Reply(text) =>
      if text.Some? && text.value != "" then Success(text.value) else Success(EmptyResponseText)
  }

  /** `generateEducationalContent`: the model is asked the assembled
      prompt, and only that. */
  function Generate(p: GeneratorParams, model: string -> ModelReply): (r: Result<string, string>)
    ensures r.Success? <==> model(Prompt.AssemblePrompt(p)).Reply?
    ensures r.Success? ==> r.value != ""
    ensures r.Failure? ==> r.error == FailureMessage
    ensures var a := model(Prompt.AssemblePrompt(p));
            a.Reply? && a.text.Some? && a.text.value != "" ==> r == Success(a.text.value)
    ensures var a := model(Prompt.AssemblePrompt(p));
            a.Reply? && (a.text.None? || a.text.value == "") ==> r == Success(EmptyResponseText)
  {
    Complete(model(Prompt.AssemblePrompt(p)))
  }

  /** What any caller may rely on: a delivered text is never empty and a
      failure always carries the fixed message. */
  ghost predicate Honours(service: GeneratorParams -> Result<string, string>) {
    forall q :: (service(q).Success? ==> service(q).value != "")
             && (service(q).Failure? ==> service(q).error == FailureMessage)
  }

  lemma GenerateHonours(model: string -> ModelReply)
    ensures Honours(q => Generate(q, model))
  {
    forall q ensures (Generate(q, model).Success? ==> Generate(q, model).value != "")
                  && (Generate(q, model).Failure? ==> Generate(q, model).error == FailureMessage) {
    }
  }
}
