# EduTools assessment generator, modelled in Dafny

EduTools is a single-page web tool for South African teachers. A teacher
fills in a request: subject, grade, topic, sub-topic, cognitive level,
question count, total marks and optional pasted text. They then click one
of four tools: Question Generator, Memorandum, Worksheet Builder or
Question Rewriter. The page checks the request, builds a long instruction
prompt for a language model, sends it, and lays the returned text out line
by line.

This project models the deterministic core of that flow and proves its
properties:

- **Types** (`types.dfy`): the two enumerations and their display
  strings, the request record and the result record.
- **Prompt** (`prompt.dfy`): prompt assembly. A subject engine is chosen by
  substring. Each mode has a template with its own announcement,
  user-input lines and format bullets. Falsy values fall back to fixed
  text. Six sections are joined with blank lines. The four long prose
  blocks are the fields of a `Prose` record. `Assemble` is written for any
  prose and every lemma is stated for any prose. `AssemblePrompt`
  instantiates it with the application's own text (`EduTools`).
- **Service** (`service.dfy`): the call to the model. The model is a
  parameter, a function from prompt to reply. A missing or empty response
  text becomes a fixed notice. A thrown error becomes a fixed failure
  message.
- **App** (`app.dfy`): the tool-click handler. It covers the per-mode gate
  and its three messages, and the title of a result. It also covers the
  states the page goes through: rejected, or loading then settled.
- **Render** (`render.dfy`): the result text is split into lines. Each
  line is classified as a level-one heading, a level-two heading, a
  numbered item or a paragraph.
- **Text** (`text.dfy`) and **Wrappers** (`wrappers.dfy`) hold the string
  operations these need: `includes`, `startsWith`, first-occurrence
  `replace`, `split('\n')`, joining, and integer-to-decimal printing.
  They also hold `Option` and `Result`.

JavaScript semantics are written out:

- `x || fallback` on a string falls back exactly when the string is empty
  (or, for the optional notes, absent).
- On a number it falls back exactly when the number is zero.
- An absent value interpolated into a template prints as `undefined`.
- `\d` matches ASCII digits only.

## Model

| member | source | states |
|---|---|---|
| `Types.ToolModeEnumeration` | types.ts:2-7 | There are exactly four modes, each listed once, and their labels are pairwise distinct. |
| `Types.CognitiveLevelEnumeration` | types.ts:9-14 | There are exactly four cognitive levels with pairwise-distinct labels; the label is the text a prompt interpolates. |
| `Prompt.SubjectBlockSelection` | geminiService.ts:24-25 | The Mechanical Technology engine is chosen exactly when the subject contains "Mechanical Technology" anywhere. Every other subject, the empty one included, gets the generic CAPS engine. |
| `Prompt.PromptIsTemplate` | geminiService.ts:111-128 | The assembled prompt equals the template literal's concatenation: a newline, then system role, engine, announcement, user inputs, format block and footer, with a blank line between each. |
| `Prompt.PromptFrame` | geminiService.ts:111-128 | Every prompt opens with the newline, the system role and a blank line, then the engine and the announcement. Every prompt closes with a blank line and the quality-control footer. The system role and the footer do not depend on the request's fields. |
| `Prompt.PromptContainsSection` | geminiService.ts:111-128 | Each of the six sections occurs in the prompt. |
| `Prompt.InputsInPrompt` | geminiService.ts:111-128 | Anything found in the user-input block is found in the whole prompt. |
| `Prompt.PromptAnnouncesMode` | geminiService.ts:32-108 | A prompt contains its own mode's announcement sentence and every one of its own mode's format bullets. |
| `Prompt.PromptAnnouncesNoOtherMode` | geminiService.ts:32-108 | No other mode's announcement starts where the announcement goes. |
| `Prompt.InstructionTag` | geminiService.ts:32-108 | Character 41 of each announcement is a character that differs between the four modes (G, M, a space and R). |
| `Prompt.PromptEngineChar` | geminiService.ts:24-25 | The character that names the engine sits at a fixed offset after the system role. |
| `Prompt.PromptDeterminesEngineAndMode` | geminiService.ts:24-108 | Two requests with equal prompts use the same engine and the same mode. |
| `Prompt.QuestionGeneratorInputs` | geminiService.ts:35-45 | The Question Generator block quotes grade, subject, topic and level label, and the question count printed as given, zero and negatives included. An empty sub-topic reads "Not specified"; zero total marks read "Allocate appropriately"; other values are quoted. |
| `Prompt.QuestionGeneratorFields` | geminiService.ts:35-45 | The same lines occur in the whole prompt. |
| `Prompt.QuestionGeneratorIgnoresNotes` | geminiService.ts:33-51 | The Question Generator prompt does not change when the notes change. |
| `Prompt.MemorandumInputs` | geminiService.ts:56-63 | The Memorandum block quotes grade and subject. Non-empty notes follow "Assessment Questions/Context:" on the next line. Without notes, the fallback sentence ending in the topic follows instead. |
| `Prompt.MemorandumFields` | geminiService.ts:56-63 | The same lines occur in the whole prompt. |
| `Prompt.MemorandumIgnores` | geminiService.ts:54-70 | The Memorandum prompt does not change with cognitive level, question count, total marks or sub-topic. With notes, it does not change with the topic either. |
| `Prompt.WorksheetInputs` | geminiService.ts:75-83 | The Worksheet block quotes grade, subject and topic. |
| `Prompt.WorksheetFields` | geminiService.ts:75-83 | The same lines occur in the whole prompt. |
| `Prompt.WorksheetDependsOnlyOnGradeSubjectTopic` | geminiService.ts:73-89 | Two Worksheet requests that agree on grade, subject and topic get the same prompt, whatever their level, sub-topic, counts or notes. |
| `Prompt.RewriterInputs` | geminiService.ts:94-101 | The Rewriter block quotes grade, subject and target-level label. It also quotes the notes verbatim on the line after "Content to Rewrite:", or the word `undefined` when the notes are absent. |
| `Prompt.RewriterFields` | geminiService.ts:94-101 | The same lines occur in the whole prompt. |
| `Prompt.RewriterIgnores` | geminiService.ts:92-106 | The Rewriter prompt does not change with topic, sub-topic, question count or total marks. |
| `Service.Complete` | geminiService.ts:140-143 | A reply gives a success exactly when the call did not throw. A success is never empty: it is the response text when that is non-empty, and the fixed notice otherwise. A thrown call gives the fixed failure message. |
| `Service.Generate` | geminiService.ts:19-143 | The model is asked the assembled prompt. The outcome succeeds exactly when that call does not throw, A success is the model's text when that text is non-empty, and the fixed notice when it is missing or empty. A failure carries the fixed failure message. |
| `Service.GenerateHonours` | geminiService.ts:140-143 | For every model, the generation service honours the caller's contract: a delivered text is never empty and a failure always carries the fixed failure message. |
| `App.Rejection` | App.tsx:35-46 | A click passes the gate exactly when the mode's needs are met. Rewriter is stopped with its message exactly when there are no notes. Memorandum is stopped exactly when there are neither notes nor a topic. The two generators are stopped with the topic message exactly when the topic is empty. |
| `App.RejectionReadsOnlyNotesAndTopic` | App.tsx:35-46 | The gate depends only on the clicked mode, on whether there are notes and on whether the topic is empty. |
| `App.GateFeedsRewriterPrompt` | App.tsx:35-38 | A Rewriter request that passes the gate has real notes, and its prompt quotes them after "Content to Rewrite:". It never quotes the `undefined` that an absent value prints. |
| `App.GateFeedsMemorandumPrompt` | App.tsx:39-42 | A Memorandum request that passes without notes has a non-empty topic, and its prompt's fallback sentence names it. |
| `App.Title` | App.tsx:57 | The title starts with grade, a space, subject, a colon and a space. It ends with the topic, or with "Assessment Output" when the topic is empty, and its length is the sum of those parts. |
| `App.TitleIgnoresMode` | App.tsx:48-57 | The title built from the request before the mode switch equals the one built after it. |
| `App.HandleToolClick` | App.tsx:33-65 | A rejected click shows one new state in which only the banner changed, and calls nothing. An accepted click calls the service with the request re-tagged with the clicked mode. The page first shows that request as loading with banner and result cleared, then not loading with exactly one of result and banner. |
| `App.AcceptedClickShowsOutcome` | App.tsx:48-65 | An accepted click ends with either the service's text under the request's title and the given time, or the service's message in the banner and no result. |
| `App.RejectedClickKeepsPage` | App.tsx:35-46 | A rejected click keeps the request, its mode, the loading flag and the previous result, and shows the gate's message. |
| `App.ClickSettles` | App.tsx:33-65 | A click from a page that is not loading never leaves it loading. A result and a banner appear together only after a rejected click over a result already on the page, a click the page never offers, since the cards are hidden while a result is shown. |
| `App.ClickMessages` | App.tsx:33-65 | When the service honours its contract (the real one does, by `Service.GenerateHonours`), any banner after a click is one of the three gate messages or the service's failure message, and any new result has non-empty content. |
| `Render.IsNumberedIffPattern` | App.tsx:314 | The executable test for a numbered line agrees with the pattern "one or more ASCII digits, then a full stop" in both directions. |
| `Render.Classify` | App.tsx:305-315 | A line is a level-one heading exactly when it starts with "# ", a level-two heading exactly when it starts with "## ", and a numbered item exactly when it fits the pattern. A heading shows the line without its marker; other blocks show the whole line. |
| `Render.MarkersExclusive` | App.tsx:305-313 | No line starts with both markers, so a "## " line is never a level-one heading, and a numbered line starts with neither marker. |
| `Render.ClassifySource` | App.tsx:305-315 | Classifying a line loses nothing: the block gives back its line. |
| `Render.SourceClassify` | App.tsx:305-315 | Every block that classification can produce is what its own line classifies to, so classification is a bijection between lines and such blocks. |
| `Render.RenderText` | App.tsx:304 | There is one block per line, newline count plus one, in order. |
| `Render.RenderedLinesAreSingle` | App.tsx:304-316 | No rendered block carries a newline: each block shows exactly one line of the generated text. |
| `Render.RenderRoundTrip` | App.tsx:304-316 | Joining the blocks' lines with newlines gives back the generated text exactly. |
| `Text.SplitLinesJoin` | App.tsx:304 | Splitting at every newline and joining with newlines is the identity. |
| `Text.JoinSplitLines` | App.tsx:304 | Joining newline-free lines and splitting again gives the same lines. |
| `Text.ReplaceFirst` | App.tsx:308 | A string replace changes nothing when the pattern is absent, and replaces the prefix when the string starts with the pattern. |
| `Text.ContainsIffOccurs` | geminiService.ts:24 | The substring test holds exactly when the text occurs at some position. |
| `Text.IntDecimalRoundTrip` | geminiService.ts:42-43 | An integer interpolated into the prompt prints as its full decimal spelling and reads back as the same integer, negatives included; JavaScript prints it this way for magnitudes up to 2^53 - 1. |
| `Text.IntToDecimalInjective` | geminiService.ts:42-43 | Two different integers never print as the same text, so the question count and total marks in a prompt identify the numbers requested. |

## Left out

- The model client, API key lookup, model id, sampling constants
  (temperature, top-p) and the logging of the caught error: the model is
  a parameter (`Service.ModelReply`) and only its reply is modelled.
- The client is constructed before the `try`, so an error thrown while
  constructing it would escape with its own message. This is not
  modelled, because the client library is not part of this model.
- The JSX markup, style classes, the subtitle under a level-one heading,
  the print button, the form's change handlers and the random reference
  id: presentation only.
- The clock: the result's timestamp is a parameter (`now`).
- The numeric form fields' `parseInt(...) || 0` coercion: counts arrive
  as unbounded integers printed digit for digit. JavaScript numbers that
  are not integers are not modelled, and neither is the rounding of
  integers above `Number.MAX_SAFE_INTEGER` (2^53 - 1): such a number is a
  double and prints with its shortest round-trip digits (2^64 prints as
  18446744073709552000), or in exponent notation from 1e21.
- `constants.ts` (subject and grade lists, icons) is not part of this
  model: subject and grade are arbitrary strings.
- React batching and overlapping clicks: the four updates before the
  awaited call apply together, and so do the two after it. A click
  therefore shows the loading state and then the settled one. The tool
  cards and the banner are drawn only while there is no result and no
  request in flight, so the page never offers a click while loading or
  over a result; the model still defines the handler for every state,
  and overlapping calls of the handler are not modelled.
- Strings are sequences of Unicode scalar values; JavaScript's UTF-16
  code units differ only for characters outside the Basic Multilingual
  Plane. None occur in the fixed text.
- `Prompt.PromptAnnouncesNoOtherMode`: proves that no other mode's
  announcement is in the announcement slot, not that another mode's
  sentence or format bullets appear nowhere in the prompt. That stronger
  statement is false in general: the user's fields and notes are copied
  into the prompt and can contain any text.
