/** Prompt assembly: one request record in, one instruction string out.
    The string is the system role, a subject engine chosen by the subject
    name, a mode announcement, a block quoting the request's fields, an
    output-format block and a fixed quality-control footer, in that order,
    separated by blank lines and preceded by one newline. */
module Prompt {
  import opened Wrappers
  import opened Text
  import opened Types

  // ---------------------------------------------------------------------------
  // Fixed prose
  // ---------------------------------------------------------------------------

  /** The four long prose blocks of the prompt: the system role, the body
      of each subject engine (everything after its heading line) and the
      quality-control footer. The assembly is written for any prose, so
      everything proved below holds for the application's own, `EduTools`. */
  datatype Prose = Prose(system: string, mechTechBody: string, genericBody: string, footer: string)

  const EduTools: Prose := Prose(SystemPrompt, MechTechBody, GenericBody, QualityFooter)

  const SystemPrompt: string :=
    "You are EduTools AI, a specialised "
    + "educational content generation "
    + "system built for South African "
    + "CAPS-aligned Technical Subjects, "
    + "with primary focus on Mechanical "
    + "Technology (Fitting & Machining) at "
    + "Grades 10\U{2013}12 (NSC level). You are "
    + "NOT a general tutor or chatbot. You "
    + "operate as a senior CAPS examiner, "
    + "subject advisor, and experienced "
    + "classroom educator combined. Your "
    + "outputs must be classroom-ready, "
    + "exam-standard, and professionally "
    + "formatted."

  const MechTechBody: string :=
    "You have deep working knowledge of "
    + "the CAPS curriculum, NSC "
    + "examination structure, and "
    + "Department of Basic Education "
    + "assessment standards. You have "
    + "practical experience as a "
    + "Mechanical Technology / Fitting & "
    + "Machining educator. You prioritise "
    + "accuracy, alignment, clarity, and "
    + "assessment validity. Subject Scope: "
    + "Mechanical Technology, Fitting & "
    + "Machining, Grades 10-12. Topics "
    + "include Safety, Tools, Materials, "
    + "Measurements, Lubrication, "
    + "Bearings, Power Transmission, "
    + "Systems and Control, Forces, "
    + "Terminology.\n"

  const GenericBody: string :=
    "You act as a CAPS-aligned subject "
    + "educator and assessment designer. "
    + "You generate formal South African "
    + "CAPS-compliant assessment content "
    + "for Grades 4\U{2013}12. You follow CAPS "
    + "terminology and structure, respect "
    + "grade-appropriate cognitive demand, "
    + "and use subject-specific command "
    + "verbs.\n"

  const QualityFooter: string :=
    "QUALITY CONTROL RULES:\n"
    + "- Avoid repetition and vague phrasing.\n"
    + "- Avoid incorrect technical facts.\n"
    + "- Avoid American or non-SA terminology.\n"
    + "- If any required information is missing, "
    + "make professional CAPS-aligned assumptions "
    + "and state them before generating.\n"
    + "- Maintain examiner credibility at all times.\n"

  const SubTopicFallback: string := "Not specified"
  const TotalMarksFallback: string := "Allocate appropriately"
  const MemorandumFallback: string :=
    "Please generate a memorandum based on "
    + "standard NSC curriculum expectations for the topic: "

  // ---------------------------------------------------------------------------
  // Subject engine
  // ---------------------------------------------------------------------------

  /** The subject name whose presence selects the specialised engine. */
  const MechTechName: string := "Mechanical Technology"

  /** Each engine block is a newline and a bracketed heading line, then its body. */
  const MechTechHeading: string := "\n[SUBJECT ENGINE: MECHANICAL TECHNOLOGY]\n"
  const GenericHeading: string := "\n[SUBJECT ENGINE: GENERIC CAPS MODE]\n"

  function SubjectBlock(prose: Prose, subject: string): string {
    if Contains(subject, MechTechName) then MechTechHeading + prose.mechTechBody
    else GenericHeading + prose.genericBody
  }

  /** Character 18 of an engine block names the engine. */
  lemma EngineTag(prose: Prose, subject: string)
    ensures |SubjectBlock(prose, subject)| > 18
    ensures SubjectBlock(prose, subject)[18] == (if Contains(subject, MechTechName) then 'M' else 'G')
  {
    assert MechTechHeading[18] == 'M';
    assert GenericHeading[18] == 'G';
  }

  /** The specialised engine is chosen exactly when the subject names
      Mechanical Technology somewhere; every other subject, the empty one
      included, gets the generic engine. */
  lemma SubjectBlockSelection(prose: Prose, subject: string)
    ensures StartsWith(SubjectBlock(prose, subject), MechTechHeading) <==> Contains(subject, MechTechName)
    ensures StartsWith(SubjectBlock(prose, subject), GenericHeading) <==> !Contains(subject, MechTechName)
    ensures Contains(subject, MechTechName) ==> SubjectBlock(prose, subject) == MechTechHeading + prose.mechTechBody
    ensures !Contains(subject, MechTechName) ==> SubjectBlock(prose, subject) == GenericHeading + prose.genericBody
  {
    var b := SubjectBlock(prose, subject);
    EngineTag(prose, subject);
    PrefixOfConcat(MechTechHeading, prose.mechTechBody);
    PrefixOfConcat(GenericHeading, prose.genericBody);
    if StartsWith(b, MechTechHeading) {
      assert b[18] == MechTechHeading[18] == 'M';
    }
    if StartsWith(b, GenericHeading) {
      assert b[18] == GenericHeading[18] == 'G';
    }
  }

  // ---------------------------------------------------------------------------
  // Mode templates
  // ---------------------------------------------------------------------------

  /** The mode's name as the announcement spells it. */
  function ModeTitle(m: ToolMode): string {
    match m
    case QuestionGenerator => "QUESTION GENERATOR"
    case Memorandum => "MEMORANDUM / MODEL ANSWERS"
    case WorksheetBuilder => "WORKSHEET & REVISION BUILDER"
    case Rewriter => "QUESTION REWRITER / DIFFICULTY ADJUSTER"
  }

  /** What follows the mode's name in its announcement. */
  function ModeFollowUp(m: ToolMode): string {
    match m
    case QuestionGenerator => " Follow all rules defined in the system and subject prompts."
    case Memorandum => " Generate a CAPS-aligned marking memorandum."
    case WorksheetBuilder => ""
    case Rewriter => ""
  }

  const ModeAnnouncementLead: string := "You are operating in TOOL MODE: "

  /** The announcement sentence of each mode. */
  function Instruction(m: ToolMode): string {
    ModeAnnouncementLead + ModeTitle(m) + "." + ModeFollowUp(m)
  }

  /** The bullet lines of each mode's output-format block. */
  function Bullets(m: ToolMode): seq<string> {
    match m
    case QuestionGenerator => [
      "- Number each question clearly",
      "- Include sub-questions where appropriate",
      "- Indicate mark allocation per question",
      "- Do not include answers or explanations"]
    case Memorandum => [
      "- Number answers according to the questions",
      "- Provide concise, correct responses",
      "- Include marking guidelines",
      "- Show calculations where applicable "
        + "(Formula -> Substitution -> Final Answer with Units)",
      "- Use South African technical terminology"]
    case WorksheetBuilder => [
      "- Title the worksheet clearly",
      "- Structure questions logically",
      "- Progress difficulty appropriately",
      "- If answers are included, separate clearly at the end"]
    case Rewriter => [
      "- Provide only the rewritten question/content",
      "- Do not include explanations or answers",
      "- Adjust cognitive demand using CAPS-appropriate action verbs "
        + "(Lower: Identify, Middle: Explain, Higher: Analyse)"]
  }

  function FormatBlock(m: ToolMode): string {
    Join(["", "Output format:"] + Bullets(m), "\n")
  }

  /** `p.subTopic || "Not specified"` */
  function SubTopicText(p: GeneratorParams): string {
    if p.subTopic == "" then SubTopicFallback else p.subTopic
  }

  /** `p.totalMarks || "Allocate appropriately"`: zero is the only falsy integer. */
  function TotalMarksText(p: GeneratorParams): string {
    if p.totalMarks == 0 then TotalMarksFallback else IntToDecimal(p.totalMarks)
  }

  /** `p.additionalNotes || <fallback sentence> + p.topic` */
  function MemorandumContext(p: GeneratorParams): string {
    if HasNotes(p) then p.additionalNotes.value else MemorandumFallback + p.topic
  }

  /** The lines of each mode's user-input block; the block starts with a newline. */
  function InputLines(p: GeneratorParams): seq<string> {
    match p.mode
    case QuestionGenerator => [
      "",
      "Generate CAPS-aligned examination questions "
        + "using the following parameters:",
      "Grade: " + p.grade,
      "Subject: " + p.subject,
      "Topic: " + p.topic,
      "Sub-topic: " + SubTopicText(p),
      "Cognitive Level: " + p.cognitiveLevel.Label(),
      "Number of Questions: " + IntToDecimal(p.questionCount),
      "Total Marks: " + TotalMarksText(p),
      "",
      "Use CAPS-appropriate command verbs. "
        + "Ensure realistic NSC-level difficulty."]
    case Memorandum => [
      "",
      "Create a marking memorandum for the following assessment content:",
      "Grade: " + p.grade,
      "Subject: " + p.subject,
      "Marking Style: Strict NSC Standard",
      "",
      "Assessment Questions/Context:",
      MemorandumContext(p)]
    case WorksheetBuilder => [
      "",
      "Generate a CAPS-aligned worksheet using the following parameters:",
      "Grade: " + p.grade,
      "Subject: " + p.subject,
      "Topic: " + p.topic,
      "Difficulty Progression: Mixed (Simple to Complex)",
      "Include Answers: No",
      "",
      "The worksheet must be classroom-ready and printable."]
    case Rewriter => [
      "",
      "Rewrite the provided content to the following specifications:",
      "Grade: " + p.grade,
      "Subject: " + p.subject,
      "Target Cognitive Level: " + p.cognitiveLevel.Label(),
      "",
      "Content to Rewrite:",
      NotesText(p)]
  }

  function UserInputs(p: GeneratorParams): string {
    Join(InputLines(p), "\n")
  }

  // ---------------------------------------------------------------------------
  // Assembly
  // ---------------------------------------------------------------------------

  /** The six sections, in prompt order. */
  function Sections(prose: Prose, p: GeneratorParams): seq<string> {
    [prose.system, SubjectBlock(prose, p.subject), Instruction(p.mode), UserInputs(p), FormatBlock(p.mode), prose.footer]
  }

  /** The finished prompt: a newline, then the six sections separated by
      blank lines. */
  function Assemble(prose: Prose, p: GeneratorParams): string {
    "\n" + Join(Sections(prose, p), "\n\n")
  }

  /** The prompt the application sends: the assembly over the application's prose. */
  function AssemblePrompt(p: GeneratorParams): string {
    Assemble(EduTools, p)
  }

  /** The opening of a prompt whose first three sections are a, b and c. */
  function Lead(a: string, b: string, c: string): string {
    "\n" + a + "\n\n" + b + "\n\n" + c + "\n\n"
  }

  /** The layout written out as one concatenation, as the template literal
      spells it. */
  lemma LayoutIsTemplate(a: string, b: string, c: string, d: string, e: string, f: string)
    ensures "\n" + Join([a, b, c, d, e, f], "\n\n") == "\n" + a + "\n\n" + b + "\n\n" + c + "\n\n" + d + "\n\n" + e + "\n\n" + f
  {
    JoinSix(a, b, c, d, e, f, "\n\n");
  }

  /** The layout opens with the lead and closes with the last section. */
  lemma Layout(a: string, b: string, c: string, d: string, e: string, f: string)
    ensures StartsWith("\n" + Join([a, b, c, d, e, f], "\n\n"), Lead(a, b, c))
    ensures StartsWith("\n" + Join([a, b, c, d, e, f], "\n\n"), "\n" + a + "\n\n")
    ensures EndsWith("\n" + Join([a, b, c, d, e, f], "\n\n"), "\n\n" + f)
  {
    var x := "\n" + Join([a, b, c, d, e, f], "\n\n");
    var head := "\n" + a + "\n\n";
    var lead := Lead(a, b, c);
    JoinSix(a, b, c, d, e, f, "\n\n");
    assert x == lead + (d + "\n\n" + e + "\n\n" + f);
    PrefixOfConcat(lead, d + "\n\n" + e + "\n\n" + f);
    assert x == (lead + d + "\n\n" + e) + ("\n\n" + f);
    SuffixOfConcat(lead + d + "\n\n" + e, "\n\n" + f);
    assert lead == head + (b + "\n\n" + c + "\n\n");
    PrefixOfConcat(head, b + "\n\n" + c + "\n\n");
    StartsWithTransitive(x, lead, head);
  }

  /** Character i of the second section, and character j of the third,
      at their offsets in the layout. */
  lemma LayoutIndex(a: string, b: string, c: string, d: string, e: string, f: string, i: int)
    ensures |"\n" + Join([a, b, c, d, e, f], "\n\n")| == |a| + |b| + |c| + |d| + |e| + |f| + 11
    ensures 0 <= i < |b| ==> ("\n" + Join([a, b, c, d, e, f], "\n\n"))[|a| + 3 + i] == b[i]
    ensures 0 <= i < |c| ==> ("\n" + Join([a, b, c, d, e, f], "\n\n"))[|a| + |b| + 5 + i] == c[i]
  {
    var x := "\n" + Join([a, b, c, d, e, f], "\n\n");
    Layout(a, b, c, d, e, f);
    LayoutIsTemplate(a, b, c, d, e, f);
    assert |x| == |"\n" + a + "\n\n" + b + "\n\n" + c + "\n\n" + d + "\n\n" + e + "\n\n" + f|;
    if 0 <= i < |b| {
      StartsWithIndex(x, Lead(a, b, c), |a| + 3 + i);
    }
    if 0 <= i < |c| {
      StartsWithIndex(x, Lead(a, b, c), |a| + |b| + 5 + i);
    }
  }

  /** The prompt equals the template literal's concatenation. */
  lemma PromptIsTemplate(prose: Prose, p: GeneratorParams)
    ensures Assemble(prose, p) == "\n" + prose.system + "\n\n" + SubjectBlock(prose, p.subject) + "\n\n" + Instruction(p.mode)
                                  + "\n\n" + UserInputs(p) + "\n\n" + FormatBlock(p.mode) + "\n\n" + prose.footer
  {
    LayoutIsTemplate(prose.system, SubjectBlock(prose, p.subject), Instruction(p.mode), UserInputs(p), FormatBlock(p.mode), prose.footer);
  }

  /** Every section appears in the prompt. */
  lemma PromptContainsSection(prose: Prose, p: GeneratorParams, k: int)
    requires 0 <= k < 6
    ensures Contains(Assemble(prose, p), Sections(prose, p)[k])
  {
    JoinContainsPart(Sections(prose, p), "\n\n", k);
    ContainsPrepend("\n", Join(Sections(prose, p), "\n\n"), Sections(prose, p)[k]);
  }

  /** Whatever is found in the user-input block is found in the prompt. */
  lemma InputsInPrompt(prose: Prose, p: GeneratorParams, t: string)
    requires Contains(UserInputs(p), t)
    ensures Contains(Assemble(prose, p), t)
  {
    PromptContainsSection(prose, p, 3);
    ContainsTransitive(Assemble(prose, p), UserInputs(p), t);
  }

  /** Each line of the user-input block, and each pair of neighbouring
      lines with the newline between them, is found in the block. */
  lemma InputLineInInputs(p: GeneratorParams, k: int)
    requires 0 <= k < |InputLines(p)|
    ensures Contains(UserInputs(p), InputLines(p)[k])
  {
    JoinContainsPart(InputLines(p), "\n", k);
  }

  lemma InputLinePairInInputs(p: GeneratorParams, k: int)
    requires 0 <= k && k + 1 < |InputLines(p)|
    ensures Contains(UserInputs(p), InputLines(p)[k] + "\n" + InputLines(p)[k + 1])
  {
    JoinContainsAdjacent(InputLines(p), "\n", k);
  }

  /** The opening (newline, system role, blank line, engine, blank line,
      announcement, blank line) and the closing (blank line, footer) frame
      every prompt. */
  lemma PromptFrame(prose: Prose, p: GeneratorParams)
    ensures StartsWith(Assemble(prose, p), Lead(prose.system, SubjectBlock(prose, p.subject), Instruction(p.mode)))
    ensures StartsWith(Assemble(prose, p), "\n" + prose.system + "\n\n")
    ensures EndsWith(Assemble(prose, p), "\n\n" + prose.footer)
  {
    Layout(prose.system, SubjectBlock(prose, p.subject), Instruction(p.mode), UserInputs(p), FormatBlock(p.mode), prose.footer);
  }

  /** Each mode's prompt holds its own announcement and every one of its
      format bullets. */
  lemma PromptAnnouncesMode(prose: Prose, p: GeneratorParams)
    ensures Contains(Assemble(prose, p), Instruction(p.mode))
    ensures forall k :: 0 <= k < |Bullets(p.mode)| ==> Contains(Assemble(prose, p), Bullets(p.mode)[k])
  {
    PromptContainsSection(prose, p, 2);
    PromptContainsSection(prose, p, 4);
    forall k | 0 <= k < |Bullets(p.mode)|
      ensures Contains(Assemble(prose, p), Bullets(p.mode)[k])
    {
      BulletInFormat(p.mode, k);
      ContainsTransitive(Assemble(prose, p), FormatBlock(p.mode), Bullets(p.mode)[k]);
    }
  }

  lemma BulletInFormat(m: ToolMode, k: int)
    requires 0 <= k < |Bullets(m)|
    ensures Contains(FormatBlock(m), Bullets(m)[k])
  {
    var lines := ["", "Output format:"] + Bullets(m);
    assert lines[k + 2] == Bullets(m)[k];
    JoinContainsPart(lines, "\n", k + 2);
  }

  /** Character 41 of the announcement (the tenth of the mode's name)
      tells the four modes apart. */
  function ModeTag(m: ToolMode): char {
    match m
    case QuestionGenerator => 'G'
    case Memorandum => 'M'
    case WorksheetBuilder => ' '
    case Rewriter => 'R'
  }

  lemma InstructionTag(m: ToolMode)
    ensures |Instruction(m)| > 41 && Instruction(m)[41] == ModeTag(m)
  {
    TitleTag(m);
    assert |ModeAnnouncementLead| == 32;
  }

  lemma TitleTag(m: ToolMode)
    ensures |ModeTitle(m)| > 9 && ModeTitle(m)[9] == ModeTag(m)
  {
    match m
    case QuestionGenerator =>
    case Memorandum =>
    case WorksheetBuilder =>
    case Rewriter =>
  }

  /** Equal prompts come from the same engine and the same mode: a prompt
      never announces a mode other than the one requested, nor an engine
      other than the one its subject selects. */
  lemma PromptDeterminesEngineAndMode(prose: Prose, p: GeneratorParams, q: GeneratorParams)
    requires Assemble(prose, p) == Assemble(prose, q)
    ensures Contains(p.subject, MechTechName) <==> Contains(q.subject, MechTechName)
    ensures p.mode == q.mode
  {
    PromptDeterminesEngine(prose, p, q);
    var k := AnnouncementOffset(prose, p) + 41;
    PromptModeChar(prose, p);
    PromptModeChar(prose, q);
    assert ModeTag(p.mode) == Assemble(prose, p)[k] == ModeTag(q.mode);
    ModeTagInjective(p.mode, q.mode);
  }

  /** Where the announcement goes, no other mode's announcement starts:
      the mode's character there differs from every other mode's. */
  lemma PromptAnnouncesNoOtherMode(prose: Prose, p: GeneratorParams, m: ToolMode)
    requires m != p.mode
    ensures AnnouncementOffset(prose, p) <= |Assemble(prose, p)|
    ensures !StartsWith(Assemble(prose, p)[AnnouncementOffset(prose, p)..], Instruction(m))
  {
    PromptModeChar(prose, p);
    NoAnnouncementAt(Assemble(prose, p), AnnouncementOffset(prose, p), m, p.mode);
  }

  /** Where the announcement starts: after the opening newline, the system
      role, a blank line, the engine block and another blank line. */
  function AnnouncementOffset(prose: Prose, p: GeneratorParams): nat {
    |prose.system| + |SubjectBlock(prose, p.subject)| + 5
  }

  /** A text whose character 41 past k is the tag of mode m' does not
      carry the announcement of any other mode m at k. */
  lemma NoAnnouncementAt(x: string, k: int, m: ToolMode, m': ToolMode)
    requires 0 <= k && k + 41 < |x| && x[k + 41] == ModeTag(m') && m != m'
    ensures !StartsWith(x[k..], Instruction(m))
  {
    InstructionTag(m);
    if StartsWith(x[k..], Instruction(m)) {
      StartsWithAt(x, Instruction(m), k, 41);
      ModeTagInjective(m, m');
    }
  }

  lemma ModeTagInjective(m: ToolMode, m': ToolMode)
    requires ModeTag(m) == ModeTag(m')
    ensures m == m'
  {
  }

  lemma PromptDeterminesEngine(prose: Prose, p: GeneratorParams, q: GeneratorParams)
    requires Assemble(prose, p) == Assemble(prose, q)
    ensures Contains(p.subject, MechTechName) <==> Contains(q.subject, MechTechName)
    ensures SubjectBlock(prose, p.subject) == SubjectBlock(prose, q.subject)
  {
    PromptEngineChar(prose, p);
    PromptEngineChar(prose, q);
  }

  /** The character that names the engine, at its fixed offset. */
  lemma PromptEngineChar(prose: Prose, p: GeneratorParams)
    ensures |Assemble(prose, p)| > |prose.system| + 3 + 18
    ensures Assemble(prose, p)[|prose.system| + 3 + 18] == (if Contains(p.subject, MechTechName) then 'M' else 'G')
  {
    EngineTag(prose, p.subject);
    LayoutIndex(prose.system, SubjectBlock(prose, p.subject), Instruction(p.mode), UserInputs(p), FormatBlock(p.mode), prose.footer, 18);
  }

  /** The character that names the mode, at an offset fixed by the engine. */
  lemma PromptModeChar(prose: Prose, p: GeneratorParams)
    ensures |Assemble(prose, p)| > AnnouncementOffset(prose, p) + 41
    ensures Assemble(prose, p)[AnnouncementOffset(prose, p) + 41] == ModeTag(p.mode)
  {
    InstructionTag(p.mode);
    LayoutIndex(prose.system, SubjectBlock(prose, p.subject), Instruction(p.mode), UserInputs(p), FormatBlock(p.mode), prose.footer, 41);
  }

  // ---------------------------------------------------------------------------
  // What each mode quotes, and what it ignores
  // ---------------------------------------------------------------------------

  /** Question Generator quotes grade, subject, topic, cognitive level and
      both counts; an empty sub-topic reads "Not specified", zero total
      marks read "Allocate appropriately", and the question count is
      printed as given, zero and negatives included. */
  lemma QuestionGeneratorInputs(p: GeneratorParams)
    requires p.mode == QuestionGenerator
    ensures Contains(UserInputs(p), "Grade: " + p.grade)
    ensures Contains(UserInputs(p), "Subject: " + p.subject)
    ensures Contains(UserInputs(p), "Topic: " + p.topic)
    ensures Contains(UserInputs(p), "Cognitive Level: " + p.cognitiveLevel.Label())
    ensures Contains(UserInputs(p), "Number of Questions: " + IntToDecimal(p.questionCount))
    ensures p.subTopic == "" ==> Contains(UserInputs(p), "Sub-topic: " + SubTopicFallback)
    ensures p.subTopic != "" ==> Contains(UserInputs(p), "Sub-topic: " + p.subTopic)
    ensures p.totalMarks == 0 ==> Contains(UserInputs(p), "Total Marks: " + TotalMarksFallback)
    ensures p.totalMarks != 0 ==> Contains(UserInputs(p), "Total Marks: " + IntToDecimal(p.totalMarks))
  {
    var lines := InputLines(p);
    forall k | 2 <= k <= 8 ensures Contains(UserInputs(p), lines[k]) {
      InputLineInInputs(p, k);
    }
    assert lines[2] == "Grade: " + p.grade;
    assert lines[3] == "Subject: " + p.subject;
    assert lines[4] == "Topic: " + p.topic;
    assert lines[5] == "Sub-topic: " + SubTopicText(p);
    assert lines[6] == "Cognitive Level: " + p.cognitiveLevel.Label();
    assert lines[7] == "Number of Questions: " + IntToDecimal(p.questionCount);
    assert lines[8] == "Total Marks: " + TotalMarksText(p);
  }

  /** The same lines, found in the whole prompt. */
  lemma QuestionGeneratorFields(prose: Prose, p: GeneratorParams)
    requires p.mode == QuestionGenerator
    ensures Contains(Assemble(prose, p), "Grade: " + p.grade)
    ensures Contains(Assemble(prose, p), "Subject: " + p.subject)
    ensures Contains(Assemble(prose, p), "Topic: " + p.topic)
    ensures Contains(Assemble(prose, p), "Cognitive Level: " + p.cognitiveLevel.Label())
    ensures Contains(Assemble(prose, p), "Number of Questions: " + IntToDecimal(p.questionCount))
    ensures Contains(Assemble(prose, p), "Sub-topic: " + SubTopicText(p))
    ensures Contains(Assemble(prose, p), "Total Marks: " + TotalMarksText(p))
  {
    QuestionGeneratorInputs(p);
    InputsInPrompt(prose, p, "Grade: " + p.grade);
    InputsInPrompt(prose, p, "Subject: " + p.subject);
    InputsInPrompt(prose, p, "Topic: " + p.topic);
    InputsInPrompt(prose, p, "Cognitive Level: " + p.cognitiveLevel.Label());
    InputsInPrompt(prose, p, "Number of Questions: " + IntToDecimal(p.questionCount));
    InputsInPrompt(prose, p, "Sub-topic: " + SubTopicText(p));
    InputsInPrompt(prose, p, "Total Marks: " + TotalMarksText(p));
  }

  /** Question Generator never reads the notes. */
  lemma QuestionGeneratorIgnoresNotes(prose: Prose, p: GeneratorParams, notes: Option<string>)
    requires p.mode == QuestionGenerator
    ensures Assemble(prose, p.(additionalNotes := notes)) == Assemble(prose, p)
  {
    assert InputLines(p.(additionalNotes := notes)) == InputLines(p);
  }

  /** Memorandum quotes grade and subject, and non-empty notes right after
      its context heading; without notes it asks for a memorandum on the
      topic instead. */
  lemma MemorandumInputs(p: GeneratorParams)
    requires p.mode == Memorandum
    ensures Contains(UserInputs(p), "Grade: " + p.grade)
    ensures Contains(UserInputs(p), "Subject: " + p.subject)
    ensures Contains(UserInputs(p), "Assessment Questions/Context:" + "\n" + MemorandumContext(p))
    ensures HasNotes(p) ==> Contains(UserInputs(p), "Assessment Questions/Context:" + "\n" + p.additionalNotes.value)
    ensures !HasNotes(p) ==> Contains(UserInputs(p), "Assessment Questions/Context:" + "\n" + (MemorandumFallback + p.topic))
  {
    var lines := InputLines(p);
    InputLineInInputs(p, 2);
    InputLineInInputs(p, 3);
    InputLinePairInInputs(p, 6);
    assert lines[2] == "Grade: " + p.grade;
    assert lines[3] == "Subject: " + p.subject;
    assert lines[6] + "\n" + lines[7] == "Assessment Questions/Context:" + "\n" + MemorandumContext(p);
  }

  /** The same lines, found in the whole prompt. */
  lemma MemorandumFields(prose: Prose, p: GeneratorParams)
    requires p.mode == Memorandum
    ensures Contains(Assemble(prose, p), "Grade: " + p.grade)
    ensures Contains(Assemble(prose, p), "Subject: " + p.subject)
    ensures Contains(Assemble(prose, p), "Assessment Questions/Context:" + "\n" + MemorandumContext(p))
  {
    MemorandumInputs(p);
    InputsInPrompt(prose, p, "Grade: " + p.grade);
    InputsInPrompt(prose, p, "Subject: " + p.subject);
    InputsInPrompt(prose, p, "Assessment Questions/Context:" + "\n" + MemorandumContext(p));
  }

  /** Memorandum never reads the cognitive level, the counts or the
      sub-topic, and reads the topic only when there are no notes. */
  lemma MemorandumIgnores(prose: Prose, p: GeneratorParams, level: CognitiveLevel, count: int, marks: int, sub: string, topic: string)
    requires p.mode == Memorandum
    ensures Assemble(prose, p.(cognitiveLevel := level, questionCount := count, totalMarks := marks, subTopic := sub)) == Assemble(prose, p)
    ensures HasNotes(p) ==> Assemble(prose, p.(topic := topic)) == Assemble(prose, p)
  {
    assert InputLines(p.(cognitiveLevel := level, questionCount := count, totalMarks := marks, subTopic := sub)) == InputLines(p);
    if HasNotes(p) {
      assert InputLines(p.(topic := topic)) == InputLines(p);
    }
  }

  /** Worksheet quotes grade, subject and topic. */
  lemma WorksheetInputs(p: GeneratorParams)
    requires p.mode == WorksheetBuilder
    ensures Contains(UserInputs(p), "Grade: " + p.grade)
    ensures Contains(UserInputs(p), "Subject: " + p.subject)
    ensures Contains(UserInputs(p), "Topic: " + p.topic)
  {
    var lines := InputLines(p);
    forall k | 2 <= k <= 4 ensures Contains(UserInputs(p), lines[k]) {
      InputLineInInputs(p, k);
    }
    assert lines[2] == "Grade: " + p.grade;
    assert lines[3] == "Subject: " + p.subject;
    assert lines[4] == "Topic: " + p.topic;
  }

  /** The same lines, found in the whole prompt. */
  lemma WorksheetFields(prose: Prose, p: GeneratorParams)
    requires p.mode == WorksheetBuilder
    ensures Contains(Assemble(prose, p), "Grade: " + p.grade)
    ensures Contains(Assemble(prose, p), "Subject: " + p.subject)
    ensures Contains(Assemble(prose, p), "Topic: " + p.topic)
  {
    WorksheetInputs(p);
    InputsInPrompt(prose, p, "Grade: " + p.grade);
    InputsInPrompt(prose, p, "Subject: " + p.subject);
    InputsInPrompt(prose, p, "Topic: " + p.topic);
  }

  /** Worksheet reads grade, subject and topic and nothing else. */
  lemma WorksheetDependsOnlyOnGradeSubjectTopic(prose: Prose, p: GeneratorParams, q: GeneratorParams)
    requires p.mode == WorksheetBuilder && q.mode == WorksheetBuilder
    requires p.grade == q.grade && p.subject == q.subject && p.topic == q.topic
    ensures Assemble(prose, p) == Assemble(prose, q)
  {
    assert InputLines(p) == InputLines(q);
  }

  /** Rewriter quotes the notes verbatim after "Content to Rewrite:" (an
      absent value prints as "undefined") together with the target level. */
  lemma RewriterInputs(p: GeneratorParams)
    requires p.mode == Rewriter
    ensures Contains(UserInputs(p), "Grade: " + p.grade)
    ensures Contains(UserInputs(p), "Subject: " + p.subject)
    ensures Contains(UserInputs(p), "Target Cognitive Level: " + p.cognitiveLevel.Label())
    ensures Contains(UserInputs(p), "Content to Rewrite:" + "\n" + NotesText(p))
  {
    var lines := InputLines(p);
    forall k | 2 <= k <= 4 ensures Contains(UserInputs(p), lines[k]) {
      InputLineInInputs(p, k);
    }
    InputLinePairInInputs(p, 6);
    assert lines[2] == "Grade: " + p.grade;
    assert lines[3] == "Subject: " + p.subject;
    assert lines[4] == "Target Cognitive Level: " + p.cognitiveLevel.Label();
    assert lines[6] + "\n" + lines[7] == "Content to Rewrite:" + "\n" + NotesText(p);
  }

  /** The same lines, found in the whole prompt. */
  lemma RewriterFields(prose: Prose, p: GeneratorParams)
    requires p.mode == Rewriter
    ensures Contains(Assemble(prose, p), "Grade: " + p.grade)
    ensures Contains(Assemble(prose, p), "Subject: " + p.subject)
    ensures Contains(Assemble(prose, p), "Target Cognitive Level: " + p.cognitiveLevel.Label())
    ensures Contains(Assemble(prose, p), "Content to Rewrite:" + "\n" + NotesText(p))
  {
    RewriterInputs(p);
    InputsInPrompt(prose, p, "Grade: " + p.grade);
    InputsInPrompt(prose, p, "Subject: " + p.subject);
    InputsInPrompt(prose, p, "Target Cognitive Level: " + p.cognitiveLevel.Label());
    InputsInPrompt(prose, p, "Content to Rewrite:" + "\n" + NotesText(p));
  }

  /** Rewriter never reads the topic, the sub-topic or the counts. */
  lemma RewriterIgnores(prose: Prose, p: GeneratorParams, topic: string, sub: string, count: int, marks: int)
    requires p.mode == Rewriter
    ensures Assemble(prose, p.(topic := topic, subTopic := sub, questionCount := count, totalMarks := marks)) == Assemble(prose, p)
  {
    assert InputLines(p.(topic := topic, subTopic := sub, questionCount := count, totalMarks := marks)) == InputLines(p);
  }
}
