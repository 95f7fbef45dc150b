/**
 * The Feynman prompt engine: the ten learning phases and the function
 * that turns a phase and a context dictionary into the generation
 * instruction (backend/feynman_prompts.py).
 *
 * The engine is pure: a dictionary from phase to fragment builder, a
 * fallback builder, and f-string templates with context values spliced
 * in. The fixed wording is a record: `Engine` holds the engine's own
 * text (exact, except that the two long answer-format layouts are
 * abbreviated), and every property below is proved for any wording, so
 * nothing depends on what the fixed text happens to say. The splice
 * points and the text right around them are exact.
 */
module FeynmanPrompts {
  import opened Base
  import opened PyStr

  // ---------------------------------------------------------------- phases

  datatype LearningPhase =
    | Home | QuestionInput | KnowledgeCheck | FirstExplanation | SelfReflection1
    | AiExplanation | SecondExplanation | SelfReflection2 | Evaluation | Retry

  /** The enum member's string value (`phase.value`). */
  function PhaseValue(p: LearningPhase): string {
    match p
    case Home => "home"
    case QuestionInput => "question_input"
    case KnowledgeCheck => "knowledge_check"
    case FirstExplanation => "first_explanation"
    case SelfReflection1 => "self_reflection_1"
    case AiExplanation => "ai_explanation"
    case SecondExplanation => "second_explanation"
    case SelfReflection2 => "self_reflection_2"
    case Evaluation => "evaluation"
    case Retry => "retry"
  }

  /** `LearningPhase(s)`: the member whose value is `s`; None where Python raises ValueError. */
  function ParsePhase(s: string): Option<LearningPhase> {
    if s == "home" then Some(Home)
    else if s == "question_input" then Some(QuestionInput)
    else if s == "knowledge_check" then Some(KnowledgeCheck)
    else if s == "first_explanation" then Some(FirstExplanation)
    else if s == "self_reflection_1" then Some(SelfReflection1)
    else if s == "ai_explanation" then Some(AiExplanation)
    else if s == "second_explanation" then Some(SecondExplanation)
    else if s == "self_reflection_2" then Some(SelfReflection2)
    else if s == "evaluation" then Some(Evaluation)
    else if s == "retry" then Some(Retry)
    else None
  }

  /** Parsing is the exact inverse of `value`: the ten values are pairwise distinct. */
  lemma ParsePhaseInvertsValue(p: LearningPhase, s: string)
    ensures ParsePhase(PhaseValue(p)) == Some(p)
    ensures ParsePhase(s) == Some(p) <==> s == PhaseValue(p)
  {
    match p
    case Home =>
    case QuestionInput =>
    case KnowledgeCheck =>
    case FirstExplanation =>
    case SelfReflection1 =>
    case AiExplanation =>
    case SecondExplanation =>
    case SelfReflection2 =>
    case Evaluation =>
    case Retry =>
  }

  /** The explanation phases, whose messages are stored with `is_explanation`. */
  predicate IsExplanationPhase(p: LearningPhase) {
    p == FirstExplanation || p == SecondExplanation
  }

  // ------------------------------------------------------- context values

  /** A context value that is a `str` or Python's None. */
  datatype PyValue = PyNone | PyText(text: string)

  /** How an f-string renders the value. */
  function Render(v: PyValue): string {
    match v
    case PyNone => "None"
    case PyText(t) => t
  }

  /**
   * The context dictionary. For `concept` and `original_question` an
   * absent key (None here) differs from a key holding Python's None.
   * `knowledge_level` is held as the text `str()` gives for its value.
   * An absent `weak_points`, None and `[]` all behave as `[]`.
   */
  datatype PromptContext = PromptContext(
    concept: Option<PyValue>,
    originalQuestion: Option<PyValue>,
    knowledgeLevel: Option<string>,
    weakPoints: seq<string>)

  /** `context.get(key, '')` */
  function Lookup(entry: Option<PyValue>): PyValue {
    match entry
    case None => PyText("")
    case Some(v) => v
  }

  /** `original_question and original_question != concept` */
  predicate HasAnchor(ctx: PromptContext) {
    var q := Lookup(ctx.originalQuestion);
    q.PyText? && q.text != "" && q != Lookup(ctx.concept)
  }

  function AnchorText(ctx: PromptContext): string {
    Render(Lookup(ctx.originalQuestion))
  }

  /** The same context with `original_question` removed. */
  function WithoutAnchor(ctx: PromptContext): PromptContext {
    ctx.(originalQuestion := None)
  }

  // --------------------------------------------------------- fixed wording

  /** The fixed text of the engine, one field per template. */
  datatype Wording = Wording(
    base: string,
    fallback: string,
    home: string,
    questionInput: string,
    knowledgeCheckGuidance: string,
    firstExplanation: string,
    selfReflection1: string,
    secondExplanation: string,
    selfReflection2: string,
    aiGuidelines: string,
    aiLayout: string,
    evaluationGuidelines: string,
    evaluationLayout: string)

  /** The engine's wording (`base_prompt` and the template bodies). */
  const Engine: Wording := Wording(
    base :=
      "\n당신은 파인만 학습법 전문 AI 튜터입니다.\n학생이 개념을 진정으로 이해할 수 있도록 돕는 것이 목표입니다.\n\n"
      + "핵심 원칙:\n1. 복잡한 개념을 단순하게 설명하도록 유도\n2. 전문 용어 없이 초등학생도 이해할 수 있는 설명 권장\n"
      + "3. 학생의 메타인지 능력 향상 지원\n4. 객관적이고 건설적인 피드백 제공\n",
    fallback := "사용자의 질문에 파인만 학습법 원칙에 따라 답변하세요.",
    home :=
      "\n사용자가 파인만 학습법으로 학습을 시작하려고 합니다.\n친근하게 인사하고 어떤 개념을 학습하고 싶은지 물어보세요.\n"
      + "PDF나 이미지를 업로드하면 더 정확한 학습이 가능함을 안내하세요.\n",
    questionInput :=
      "\n사용자가 학습하고 싶은 개념을 입력했습니다.\n이제 사용자의 현재 지식 수준을 파악해야 합니다.\n"
      + "\"이 개념에 대해 얼마나 알고 계신가요?\" 같은 질문으로 유도하세요.\n",
    knowledgeCheckGuidance :=
      "\n사용자의 지식 수준을 파악하기 위한 단계입니다.\n\n응답 형식:\n- 친근하고 격려하는 톤 사용\n"
      + "- 사용자가 '알고 있다'를 선택하면 설명 준비 안내\n- '모른다'를 선택하면 기초부터 차근차근 설명 준비\n",
    firstExplanation :=
      "\n사용자가 자신이 아는 만큼 개념을 설명했습니다.\n이제 사용자의 설명을 분석해야 합니다.\n\n분석 포인트:\n"
      + "1. 정확한 이해 부분 확인\n2. 오개념이나 부족한 부분 파악\n3. 사용된 언어의 복잡도 평가\n4. 예시나 비유 사용 여부\n\n"
      + "응답하지 말고 분석만 수행하세요.\n다음 단계에서 자기 성찰을 유도할 것입니다.\n",
    selfReflection1 :=
      "\n사용자에게 자기 성찰을 유도하는 단계입니다.\n\n지침:\n- 직접적인 평가나 정답을 제시하지 않음\n"
      + "- 사용자 스스로 부족한 부분을 인식하도록 유도\n"
      + "- \"잘 설명하셨네요. 혹시 설명하면서 확신이 없었거나 막혔던 부분이 있으셨나요?\" 같은 질문 사용\n",
    secondExplanation :=
      "\n사용자가 학습한 내용을 다시 설명하는 단계입니다.\n\n지침:\n- 첫 번째 설명보다 개선되었는지 평가\n"
      + "- 긍정적인 변화를 구체적으로 언급\n- 여전히 부족한 부분이 있다면 부드럽게 지적\n- 격려하면서도 정확한 피드백 제공\n",
    selfReflection2 :=
      "\n두 번째 자기 성찰 단계입니다.\n\n지침:\n- 첫 번째 성찰과 비교하여 발전한 부분 확인\n"
      + "- 메타인지 능력이 향상되었는지 평가\n- 종합 평가를 위한 준비\n",
    aiGuidelines :=
      "**설명 기준:**\n1. 반드시 위 학습 주제/자료와 맥락에 맞게 설명할 것\n"
      + "2. 다의어인 경우 원본 질문의 맥락을 고려하여 적절한 의미로 설명\n3. 사용자가 이미 이해한 부분은 간단히 확인만\n"
      + "4. 부족한 부분을 중점적으로 설명\n5. 구체적인 예시와 비유 사용\n"
      + "6. 전문 용어는 사용자의 수준에 맞추어 적절한 말로 바꾸기\n\n**답변 형식 (정확히 따를 것):**\n\n",
    aiLayout :=
      "\n---\n[핵심 요약, 기본 개념, 상세 설명, 헷갈리는 포인트, 체크포인트 섹션과 주의 사항]\n",
    evaluationGuidelines :=
      "사용자의 두 번의 설명과 자기 성찰을 바탕으로 종합 평가를 제공합니다.\n\n"
      + "**평가 기준:**\n[이해도, 표현력, 응용력, 메타인지 능력, 배경 지식 수준]\n\n**답변 형식 (정확히 따를 것):**\n\n",
    evaluationLayout :=
      "---\n[강점, 영역별 평가, 액션 플랜 섹션과 주의 사항]\n")

  /**
   * The fallback text is nonempty and shorter than every other fixed
   * fragment, so no other builder can produce it.
   */
  predicate FallbackDistinct(w: Wording) {
    0 < |w.fallback|
    && |w.fallback| < |w.knowledgeCheckGuidance|
    && |w.fallback| < |w.firstExplanation|
    && |w.fallback| < |w.selfReflection1|
    && |w.fallback| < |w.secondExplanation|
    && |w.fallback| < |w.selfReflection2|
    && |w.fallback| < |w.aiGuidelines|
    && |w.fallback| < |w.evaluationGuidelines|
  }

  lemma EngineFallbackDistinct()
    ensures FallbackDistinct(Engine)
  {
  }

  /** What every instruction starts with: the base prompt and a blank line. */
  function Preamble(w: Wording): string {
    w.base + "\n\n"
  }

  const DefaultWeakPoints: string := "전반적 이해 필요"

  // ------------------------------------------------ context-dependent parts

  /** The line that names the original question (knowledge check and evaluation). */
  function AnchorNote(q: string): string {
    "\n(원본 질문: \"" + q + "\")"
  }

  /** The disambiguation hint of the AI explanation. */
  function ContextHint(q: string): string {
    "\n\n맥락 정보: 사용자는 \"" + q + "\"라고 질문했습니다."
    + "\n→ 이 맥락에 맞는 의미와 영역에 집중하여 설명하세요."
  }

  const MaterialOpening: string := "\n학습 자료:\n---\n"

  /** "Study material" framing, for a concept longer than 50 characters. */
  function MaterialFraming(c: string): string {
    MaterialOpening + c + "\n---\n위 내용에 대해 설명합니다."
  }

  /** "Topic" framing, for a short concept. */
  function TopicFraming(c: string): string {
    "학습 주제: \"" + c + "\""
  }

  function WeakPointsText(ws: seq<string>): string {
    if ws == [] then DefaultWeakPoints else Join(", ", ws)
  }

  function LevelText(ctx: PromptContext): string {
    match ctx.knowledgeLevel
    case None => "beginner"
    case Some(l) => l
  }

  const LevelLabel: string := "사용자의 현재 이해 수준: "

  function LevelLine(ctx: PromptContext): string {
    "\n\n" + LevelLabel + LevelText(ctx) + "\n부족한 부분: " + WeakPointsText(ctx.weakPoints) + "\n\n"
  }

  function QuestionHead(c: string): string {
    "\n사용자가 \"" + c + "\"에 대해 질문했습니다."
  }

  function KnowledgeCheckText(w: Wording, ctx: PromptContext): string {
    var info := if HasAnchor(ctx) then AnchorNote(AnchorText(ctx)) else "";
    QuestionHead(Render(Lookup(ctx.concept))) + info + w.knowledgeCheckGuidance
  }

  function Subject(c: string): string {
    if |c| > 50 then MaterialFraming(c) else TopicFraming(c)
  }

  function Hint(ctx: PromptContext): string {
    if HasAnchor(ctx) then ContextHint(AnchorText(ctx)) else ""
  }

  /** The title line of the answer layout. */
  function Title(c: string): string {
    "📚 **" + c + "** 설명"
  }

  /** Everything after the level line: guidelines, title and layout. */
  function AiTail(w: Wording, c: string): string {
    w.aiGuidelines + Title(c) + "\n" + w.aiLayout
  }

  function AiText(w: Wording, c: string, hint: string, levelLine: string): string {
    "\n" + (Subject(c) + (hint + (levelLine + AiTail(w, c))))
  }

  /** The AI explanation fragment; `len(None)` raises, so a None concept is an error. */
  function AiExplanationText(w: Wording, ctx: PromptContext): Result<string, PromptError> {
    match Lookup(ctx.concept)
    case PyNone => Err(LengthOfNone)
    case PyText(c) => Ok(AiText(w, c, Hint(ctx), LevelLine(ctx)))
  }

  function ConceptLine(c: string): string {
    "개념: \"" + c + "\""
  }

  function EvaluationHead(c: string): string {
    "\n" + "평가 대상 개념: \"" + c + "\""
  }

  /** Everything after the subject: criteria, heading, concept line and layout. */
  function EvaluationTail(w: Wording, c: string): string {
    "\n\n" + w.evaluationGuidelines + "🎓 **학습 종합 평가**\n\n" + ConceptLine(c) + "\n\n" + w.evaluationLayout
  }

  function EvaluationText(w: Wording, ctx: PromptContext): string {
    var c := Render(Lookup(ctx.concept));
    var info := if HasAnchor(ctx) then AnchorNote(AnchorText(ctx)) else "";
    EvaluationHead(c) + info + EvaluationTail(w, c)
  }

  // ------------------------------------------------------------- dispatch

  /** The fragment builders: the engine's `_*_prompt` methods. */
  datatype Builder =
    | DefaultBuilder | HomeBuilder | QuestionInputBuilder | KnowledgeCheckBuilder
    | FirstExplanationBuilder | SelfReflection1Builder | AiExplanationBuilder
    | SecondExplanationBuilder | SelfReflection2Builder | EvaluationBuilder

  /** `TypeError: object of type 'NoneType' has no len()` */
  datatype PromptError = LengthOfNone

  /** The `prompts` dictionary of `get_prompt_for_phase`. */
  const Table: map<LearningPhase, Builder> := map[
    KnowledgeCheck := KnowledgeCheckBuilder,
    FirstExplanation := FirstExplanationBuilder,
    SelfReflection1 := SelfReflection1Builder,
    AiExplanation := AiExplanationBuilder,
    SecondExplanation := SecondExplanationBuilder,
    SelfReflection2 := SelfReflection2Builder,
    Evaluation := EvaluationBuilder]

  /** The table holds no default builder and leaves out exactly home, question input and retry. */
  lemma TableCoverage(p: LearningPhase)
    ensures p !in Table <==> p in {Home, QuestionInput, Retry}
    ensures p in Table ==> Table[p] !in {DefaultBuilder, HomeBuilder, QuestionInputBuilder}
  {
    match p
    case Home =>
    case QuestionInput =>
    case Retry =>
    case _ => assert p in Table;
  }

  /**
   * `prompts.get(phase, self._default_prompt)`. The home and
   * question-input builders are in no entry and are not the fallback;
   * exactly three phases fall back to the default.
   */
  function Dispatch(p: LearningPhase): (b: Builder)
    ensures b != HomeBuilder && b != QuestionInputBuilder
    ensures b == DefaultBuilder <==> p == Home || p == QuestionInput || p == Retry
  {
    TableCoverage(p);
    if p in Table then Table[p] else DefaultBuilder
  }

  function Build(w: Wording, b: Builder, ctx: PromptContext): Result<string, PromptError> {
    match b
    case DefaultBuilder => Ok(w.fallback)
    case HomeBuilder => Ok(w.home)
    case QuestionInputBuilder => Ok(w.questionInput)
    case KnowledgeCheckBuilder => Ok(KnowledgeCheckText(w, ctx))
    case FirstExplanationBuilder => Ok(w.firstExplanation)
    case SelfReflection1Builder => Ok(w.selfReflection1)
    case AiExplanationBuilder => AiExplanationText(w, ctx)
    case SecondExplanationBuilder => Ok(w.secondExplanation)
    case SelfReflection2Builder => Ok(w.selfReflection2)
    case EvaluationBuilder => Ok(EvaluationText(w, ctx))
  }

  /**
   * `get_prompt_for_phase` over a wording. Every builder is callable, so
   * the result is always the base prompt, a blank line and a fragment;
   * the one error is `len(None)` in the AI explanation.
   */
  function PromptFor(w: Wording, p: LearningPhase, ctx: PromptContext): (r: Result<string, PromptError>)
    ensures r.Ok? ==> StartsWith(r.value, Preamble(w))
    ensures r.Ok? && FallbackDistinct(w) ==> |r.value| > |Preamble(w)|
    ensures r.Err? <==> p == AiExplanation && Lookup(ctx.concept) == PyNone
  {
    match Build(w, Dispatch(p), ctx)
    case Ok(fragment) =>
      assert (Preamble(w) + fragment)[..|Preamble(w)|] == Preamble(w);
      Ok(Preamble(w) + fragment)
    case Err(e) => Err(e)
  }

  /** The engine's `get_prompt_for_phase`. */
  function GetPromptForPhase(p: LearningPhase, ctx: PromptContext): (r: Result<string, PromptError>)
    ensures r.Ok? ==> StartsWith(r.value, Preamble(Engine)) && |r.value| > |Preamble(Engine)|
    ensures r.Err? <==> p == AiExplanation && Lookup(ctx.concept) == PyNone
  {
    EngineFallbackDistinct();
    PromptFor(Engine, p, ctx)
  }

  // ------------------------------------------------------------- properties

  /** Home, question input and retry all receive the fallback fragment, and no other phase does. */
  lemma FallbackPhases(w: Wording, p: LearningPhase, ctx: PromptContext)
    requires FallbackDistinct(w)
    ensures PromptFor(w, p, ctx) == Ok(Preamble(w) + w.fallback) <==> p in {Home, QuestionInput, Retry}
  {
    TableCoverage(p);
    var r := PromptFor(w, p, ctx);
    if r.Ok? && p !in {Home, QuestionInput, Retry} {
      var fragment := Build(w, Dispatch(p), ctx).value;
      assert r.value == Preamble(w) + fragment;
      assert |fragment| > |w.fallback|;
    }
  }

  /** The piece the original question contributes in a phase that reads it. */
  function AnchorPiece(p: LearningPhase, q: string): string {
    if p == AiExplanation then ContextHint(q) else AnchorNote(q)
  }

  /**
   * The original question only ever adds its own piece: in the knowledge
   * check, AI explanation and evaluation phases the instruction with an
   * anchor is the one without, with the note (or hint) inserted at one
   * place; in every other case the question changes nothing.
   */
  lemma AnchorInsertion(w: Wording, p: LearningPhase, ctx: PromptContext)
    ensures PromptFor(w, p, WithoutAnchor(ctx)).Ok? == PromptFor(w, p, ctx).Ok?
    ensures PromptFor(w, p, ctx).Ok? ==>
      var with := PromptFor(w, p, ctx).value;
      var without := PromptFor(w, p, WithoutAnchor(ctx)).value;
      if HasAnchor(ctx) && p in {KnowledgeCheck, AiExplanation, Evaluation}
      then InsertedInto(AnchorPiece(p, AnchorText(ctx)), without, with)
      else with == without
  {
    var bare := WithoutAnchor(ctx);
    assert !HasAnchor(bare) && Lookup(bare.concept) == Lookup(ctx.concept);
    if HasAnchor(ctx) && p == KnowledgeCheck {
      AnchorInKnowledgeCheck(w, ctx);
    } else if HasAnchor(ctx) && p == AiExplanation && Lookup(ctx.concept).PyText? {
      AnchorInAiExplanation(w, ctx);
    } else if HasAnchor(ctx) && p == Evaluation {
      AnchorInEvaluation(w, ctx);
    } else if !(HasAnchor(ctx) && p == AiExplanation) {
      AnchorIgnored(w, p, ctx);
    }
  }

  /** Without an anchor, or in a phase that does not read it, the original question changes nothing. */
  lemma AnchorIgnored(w: Wording, p: LearningPhase, ctx: PromptContext)
    requires !HasAnchor(ctx) || p !in {KnowledgeCheck, AiExplanation, Evaluation}
    ensures PromptFor(w, p, ctx) == PromptFor(w, p, WithoutAnchor(ctx))
  {
    TableCoverage(p);
    assert !HasAnchor(WithoutAnchor(ctx));
  }

  lemma KnowledgeCheckPrompt(w: Wording, ctx: PromptContext)
    ensures PromptFor(w, KnowledgeCheck, ctx) == Ok(Preamble(w) + KnowledgeCheckText(w, ctx))
  {
    assert Dispatch(KnowledgeCheck) == KnowledgeCheckBuilder;
  }

  lemma AiExplanationPrompt(w: Wording, ctx: PromptContext, c: string)
    requires Lookup(ctx.concept) == PyText(c)
    ensures PromptFor(w, AiExplanation, ctx) == Ok(Preamble(w) + AiText(w, c, Hint(ctx), LevelLine(ctx)))
  {
    assert Dispatch(AiExplanation) == AiExplanationBuilder;
  }

  lemma EvaluationPrompt(w: Wording, ctx: PromptContext)
    ensures PromptFor(w, Evaluation, ctx) == Ok(Preamble(w) + EvaluationText(w, ctx))
  {
    assert Dispatch(Evaluation) == EvaluationBuilder;
  }

  lemma AnchorInKnowledgeCheck(w: Wording, ctx: PromptContext)
    requires HasAnchor(ctx)
    ensures InsertedInto(AnchorNote(AnchorText(ctx)),
                         PromptFor(w, KnowledgeCheck, WithoutAnchor(ctx)).value,
                         PromptFor(w, KnowledgeCheck, ctx).value)
  {
    var bare := WithoutAnchor(ctx);
    var head := QuestionHead(Render(Lookup(ctx.concept)));
    var note := AnchorNote(AnchorText(ctx));
    var guidance := w.knowledgeCheckGuidance;
    KnowledgeCheckPrompt(w, ctx);
    KnowledgeCheckPrompt(w, bare);
    assert !HasAnchor(bare) && Lookup(bare.concept) == Lookup(ctx.concept);
    assert KnowledgeCheckText(w, ctx) == (head + note) + guidance;
    assert KnowledgeCheckText(w, bare) == (head + "") + guidance;
    assert head + "" == head;
    InsertedBetween(note, Preamble(w), head, guidance);
  }

  lemma AnchorInAiExplanation(w: Wording, ctx: PromptContext)
    requires HasAnchor(ctx) && Lookup(ctx.concept).PyText?
    ensures InsertedInto(ContextHint(AnchorText(ctx)),
                         PromptFor(w, AiExplanation, WithoutAnchor(ctx)).value,
                         PromptFor(w, AiExplanation, ctx).value)
  {
    var c := Lookup(ctx.concept).text;
    var bare := WithoutAnchor(ctx);
    var tail := LevelLine(ctx) + AiTail(w, c);
    var hint := ContextHint(AnchorText(ctx));
    assert !HasAnchor(bare) && Lookup(bare.concept) == Lookup(ctx.concept);
    assert Hint(bare) == "" && Hint(ctx) == hint && LevelLine(bare) == LevelLine(ctx);
    AiExplanationPrompt(w, ctx, c);
    AiExplanationPrompt(w, bare, c);
    assert "" + tail == tail;
    InsertedDeep(hint, Preamble(w), "\n", Subject(c), tail);
  }

  lemma AnchorInEvaluation(w: Wording, ctx: PromptContext)
    requires HasAnchor(ctx)
    ensures InsertedInto(AnchorNote(AnchorText(ctx)),
                         PromptFor(w, Evaluation, WithoutAnchor(ctx)).value,
                         PromptFor(w, Evaluation, ctx).value)
  {
    var c := Render(Lookup(ctx.concept));
    var bare := WithoutAnchor(ctx);
    var note := AnchorNote(AnchorText(ctx));
    assert !HasAnchor(bare) && Lookup(bare.concept) == Lookup(ctx.concept);
    EvaluationPrompt(w, ctx);
    EvaluationPrompt(w, bare);
    assert EvaluationText(w, ctx) == (EvaluationHead(c) + note) + EvaluationTail(w, c);
    assert EvaluationText(w, bare) == (EvaluationHead(c) + "") + EvaluationTail(w, c);
    assert EvaluationHead(c) + "" == EvaluationHead(c);
    InsertedBetween(note, Preamble(w), EvaluationHead(c), EvaluationTail(w, c));
  }

  lemma MaterialFramingOpens(c: string, rest: string)
    requires |c| > 50
    ensures StartsWith("\n" + (Subject(c) + rest), "\n" + MaterialOpening)
  {
    var close := "\n---\n위 내용에 대해 설명합니다.";
    var after := (c + close) + rest;
    assert Subject(c) == (MaterialOpening + c) + close;
    AppendAssoc(MaterialOpening, c, close);
    AppendAssoc(MaterialOpening, c + close, rest);
    AppendAssoc("\n", MaterialOpening, after);
    StartsWithAppend("\n" + MaterialOpening, after);
  }

  lemma TopicFramingOpens(c: string, rest: string)
    requires |c| <= 50
    ensures !StartsWith("\n" + (Subject(c) + rest), "\n" + MaterialOpening)
    ensures StartsWith("\n" + (Subject(c) + rest), "\n" + TopicFraming(c))
  {
    assert ("\n" + (Subject(c) + rest))[1] == TopicFraming(c)[0] == '학';
    assert ("\n" + MaterialOpening)[1] == '\n';
    AppendAssoc("\n", TopicFraming(c), rest);
    StartsWithAppend("\n" + TopicFraming(c), rest);
  }

  lemma AiTextFraming(w: Wording, c: string, hint: string, levelLine: string)
    ensures StartsWith(AiText(w, c, hint, levelLine), "\n" + MaterialOpening) <==> |c| > 50
    ensures |c| <= 50 ==> StartsWith(AiText(w, c, hint, levelLine), "\n" + TopicFraming(c))
  {
    if |c| > 50 {
      MaterialFramingOpens(c, hint + (levelLine + AiTail(w, c)));
    } else {
      TopicFramingOpens(c, hint + (levelLine + AiTail(w, c)));
    }
  }

  lemma AiTextHasTitle(w: Wording, c: string, hint: string, levelLine: string)
    ensures IsInfix(Title(c), AiText(w, c, hint, levelLine))
  {
    var t := Title(c);
    InfixSelf(t);
    InfixExtendLeft(t, w.aiGuidelines, t);
    InfixExtendRight(t, w.aiGuidelines + t, "\n");
    InfixExtendRight(t, w.aiGuidelines + t + "\n", w.aiLayout);
    InfixExtendLeft(t, levelLine, AiTail(w, c));
    InfixExtendLeft(t, hint, levelLine + AiTail(w, c));
    InfixExtendLeft(t, Subject(c), hint + (levelLine + AiTail(w, c)));
    InfixExtendLeft(t, "\n", Subject(c) + (hint + (levelLine + AiTail(w, c))));
  }

  /**
   * The AI explanation frames its concept as study material exactly when
   * the concept is longer than 50 characters, and as the study topic
   * otherwise; the concept itself is the title of the answer layout.
   */
  lemma AiExplanationFraming(w: Wording, ctx: PromptContext, c: string)
    requires Lookup(ctx.concept) == PyText(c)
    ensures AiExplanationText(w, ctx).Ok?
    ensures StartsWith(AiExplanationText(w, ctx).value, "\n" + MaterialOpening) <==> |c| > 50
    ensures |c| <= 50 ==> StartsWith(AiExplanationText(w, ctx).value, "\n" + TopicFraming(c))
    ensures IsInfix(Title(c), AiExplanationText(w, ctx).value)
  {
    AiTextFraming(w, c, Hint(ctx), LevelLine(ctx));
    AiTextHasTitle(w, c, Hint(ctx), LevelLine(ctx));
  }

  lemma LevelLineParts(ctx: PromptContext)
    ensures IsInfix(LevelLabel + LevelText(ctx), LevelLine(ctx))
    ensures IsInfix(WeakPointsText(ctx.weakPoints), LevelLine(ctx))
  {
    var tag, level, weak := LevelLabel, LevelText(ctx), WeakPointsText(ctx.weakPoints);
    var start, middle, close := "\n\n", "\n부족한 부분: ", "\n\n";
    assert LevelLine(ctx) == ((((start + tag) + level) + middle) + weak) + close;
    InfixSelf(tag + level);
    InfixExtendLeft(tag + level, start, tag + level);
    AppendAssoc(start, tag, level);
    InfixExtendRight(tag + level, (start + tag) + level, middle);
    InfixExtendRight(tag + level, ((start + tag) + level) + middle, weak);
    InfixExtendRight(tag + level, (((start + tag) + level) + middle) + weak, close);
    InfixSelf(weak);
    InfixExtendLeft(weak, ((start + tag) + level) + middle, weak);
    InfixExtendRight(weak, (((start + tag) + level) + middle) + weak, close);
  }

  lemma AiTextHasLevelLine(w: Wording, c: string, hint: string, levelLine: string)
    ensures IsInfix(levelLine, AiText(w, c, hint, levelLine))
  {
    var tail := AiTail(w, c);
    InfixSelf(levelLine);
    InfixExtendRight(levelLine, levelLine, tail);
    InfixExtendLeft(levelLine, hint, levelLine + tail);
    InfixExtendLeft(levelLine, Subject(c), hint + (levelLine + tail));
    InfixExtendLeft(levelLine, "\n", Subject(c) + (hint + (levelLine + tail)));
  }

  /**
   * The learner's level and weak points reach the AI explanation: the level
   * as given (or "beginner"), each weak point by name, or the generic
   * note when there are none.
   */
  lemma AiExplanationPersonalised(w: Wording, ctx: PromptContext)
    requires Lookup(ctx.concept).PyText?
    ensures var r := AiExplanationText(w, ctx).value;
      IsInfix(LevelLabel + LevelText(ctx), r)
      && (ctx.weakPoints == [] ==> IsInfix(DefaultWeakPoints, r))
      && (ctx.weakPoints != [] ==> IsInfix(Join(", ", ctx.weakPoints), r))
      && forall i :: 0 <= i < |ctx.weakPoints| ==> IsInfix(ctx.weakPoints[i], r)
  {
    var r := AiExplanationText(w, ctx).value;
    var weak := WeakPointsText(ctx.weakPoints);
    LevelLineParts(ctx);
    AiTextHasLevelLine(w, Lookup(ctx.concept).text, Hint(ctx), LevelLine(ctx));
    InfixTrans(LevelLabel + LevelText(ctx), LevelLine(ctx), r);
    InfixTrans(weak, LevelLine(ctx), r);
    forall i | 0 <= i < |ctx.weakPoints|
      ensures IsInfix(ctx.weakPoints[i], r)
    {
      JoinHasItem(", ", ctx.weakPoints, i);
      InfixTrans(ctx.weakPoints[i], weak, r);
    }
  }

  /** The evaluation names its concept on the line the answer layout repeats. */
  lemma EvaluationNamesConcept(w: Wording, ctx: PromptContext)
    ensures IsInfix(ConceptLine(Render(Lookup(ctx.concept))), EvaluationText(w, ctx))
  {
    var c := Render(Lookup(ctx.concept));
    var info := if HasAnchor(ctx) then AnchorNote(AnchorText(ctx)) else "";
    var line := ConceptLine(c);
    var lead := ("\n\n" + w.evaluationGuidelines) + "🎓 **학습 종합 평가**\n\n";
    assert EvaluationTail(w, c) == ((lead + line) + "\n\n") + w.evaluationLayout;
    assert EvaluationText(w, ctx) == (EvaluationHead(c) + info) + EvaluationTail(w, c);
    InfixSelf(line);
    InfixExtendLeft(line, lead, line);
    InfixExtendRight(line, lead + line, "\n\n");
    InfixExtendRight(line, (lead + line) + "\n\n", w.evaluationLayout);
    InfixExtendLeft(line, EvaluationHead(c) + info, EvaluationTail(w, c));
  }

  /**
   * Only the AI explanation reads the level and the weak points, and the
   * first explanation, both self-reflections and the second explanation
   * read nothing of the context at all.
   */
  lemma ContextDependence(w: Wording, p: LearningPhase, ctx: PromptContext, other: PromptContext)
    ensures p != AiExplanation ==>
      PromptFor(w, p, ctx) == PromptFor(w, p, ctx.(knowledgeLevel := other.knowledgeLevel, weakPoints := other.weakPoints))
    ensures p in {FirstExplanation, SelfReflection1, SecondExplanation, SelfReflection2} ==>
      PromptFor(w, p, ctx) == PromptFor(w, p, other)
  {
    TableCoverage(p);
    var varied := ctx.(knowledgeLevel := other.knowledgeLevel, weakPoints := other.weakPoints);
    if p == KnowledgeCheck {
      KnowledgeCheckPrompt(w, ctx);
      KnowledgeCheckPrompt(w, varied);
    } else if p == Evaluation {
      EvaluationPrompt(w, ctx);
      EvaluationPrompt(w, varied);
    }
  }
}
