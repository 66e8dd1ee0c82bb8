/** The request record and its two enumerations. Each enum member carries
    the string the TypeScript enum assigns to it; that string is what a
    template literal interpolates. */
module Types {
  import opened Wrappers

  /** The four generation intents. */
  datatype ToolMode = QuestionGenerator | Memorandum | WorksheetBuilder | Rewriter {

    function Label(): string {
      match this
      case QuestionGenerator => "Question Generator"
      case Memorandum => "Memorandum / Model Answers"
      case WorksheetBuilder => "Worksheet & Revision Builder"
      case Rewriter => "Question Rewriter"
    }
  }

  /** The four cognitive-demand levels. */
  datatype CognitiveLevel = Lower | Middle | Higher | Mixed {

    function Label(): string {
      match this
      case Lower => "Lower Order (Recall, State)"
      case Middle => "Middle Order (Explain, Compare)"
      case Higher => "Higher Order (Analyse, Evaluate)"
      case Mixed => "Mixed (Standard NSC Paper)"
    }
  }

  /** Every mode, in declaration order. */
  const AllModes: seq<ToolMode> := [QuestionGenerator, Memorandum, WorksheetBuilder, Rewriter]

  /** Every cognitive level, in declaration order. */
  const AllLevels: seq<CognitiveLevel> := [Lower, Middle, Higher, Mixed]

  /** The enumeration lists every mode exactly once, and distinct modes
      carry distinct labels, so the label identifies the mode. */
  lemma ToolModeEnumeration()
    ensures |AllModes| == 4
    ensures forall m: ToolMode :: m in AllModes
    ensures forall i, j :: 0 <= i < j < |AllModes| ==> AllModes[i].Label() != AllModes[j].Label()
  {
    forall m: ToolMode ensures m in AllModes {
      match m
      case QuestionGenerator => assert AllModes[0] == m;
      case Memorandum => assert AllModes[1] == m;
      case WorksheetBuilder => assert AllModes[2] == m;
      case Rewriter => assert AllModes[3] == m;
    }
  }

  lemma CognitiveLevelEnumeration()
    ensures |AllLevels| == 4
    ensures forall c: CognitiveLevel :: c in AllLevels
    ensures forall i, j :: 0 <= i < j < |AllLevels| ==> AllLevels[i].Label() != AllLevels[j].Label()
  {
    forall c: CognitiveLevel ensures c in AllLevels {
      match c
      case Lower => assert AllLevels[0] == c;
      case Middle => assert AllLevels[1] == c;
      case Higher => assert AllLevels[2] == c;
      case Mixed => assert AllLevels[3] == c;
    }
  }

  /** The request. Only `additionalNotes` may be absent; `topic` and
      `subTopic` are always present but may be empty. The two counts are
      plain numbers with no declared range, so they are unbounded integers
      here, negative values included. */
  datatype GeneratorParams = GeneratorParams(
    subject: string,
    grade: string,
    topic: string,
    subTopic: string,
    mode: ToolMode,
    cognitiveLevel: CognitiveLevel,
    questionCount: int,
    totalMarks: int,
    additionalNotes: Option<string>)

  /** JavaScript truthiness of the optional notes: present and non-empty. */
  predicate HasNotes(p: GeneratorParams) {
    p.additionalNotes.Some? && p.additionalNotes.value != ""
  }

  /** `${p.additionalNotes}`: an absent value prints as "undefined". */
  function NotesText(p: GeneratorParams): (r: string)
    ensures p.additionalNotes.Some? ==> r == p.additionalNotes.value
    ensures p.additionalNotes.None? ==> r == "undefined"
  {
    match p.additionalNotes
    case Some(n) => n
    case None => "undefined"
  }

  /** What the page shows after a successful generation. */
  datatype GeneratedContent = GeneratedContent(title: string, content: string, timestamp: string)
}
