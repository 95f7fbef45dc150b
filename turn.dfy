/**
 * One message of the learning chat's WebSocket (backend/server.py:948-1183)
 * as a step function over the room row, the room's message log and
 * whether the connection is still open. The services the server calls
 * are parameters: the phase flow (`flow_manager.get_next_phase`), the
 * retrieval index (`rag_system.has_pdf`, `search_by_pdf`), and, per turn,
 * the keyword model's reply and the generation endpoint's answer.
 */
module ChatTurn {
  import opened Base
  import opened PyStr
  import opened Records
  import opened FeynmanPrompts
  import ConceptKeyword
  import ResponseStream
  import PromptAssembly

  /** A received text frame after `json.loads`. */
  datatype Inbound =
      /** Not JSON, or JSON that is not an object: the connection ends. */
    | Unparsable
      /** An object with its "type", "choice" and "message" entries, when present. */
    | Payload(kind: Option<string>, choice: Option<string>, message: Option<string>)

  /** The generation endpoint's answer to one request. */
  datatype Generation =
      /** The request raised before a status arrived. */
    | Unreachable(reason: string)
      /** A status and the body's lines; `broken` is an error raised after the last line. */
    | Answer(status: int, lines: seq<ResponseStream.Line>, broken: Option<string>)

  /** Everything the world supplies to one turn. */
  datatype Turn = Turn(
    frame: Inbound,
    now: Timestamp,
    keyword: ConceptKeyword.KeywordReply,
    generation: Generation)

  /**
   * The services fixed for the whole connection. `engine` is the wording
   * of the server's prompt engine (`feynman_engine`), which is
   * `FeynmanPrompts.Engine`; the turn properties hold for any wording.
   */
  datatype Services = Services(
    engine: Wording,
    nextPhase: (LearningPhase, Option<string>) -> LearningPhase,
    hasPdf: (UserId, PdfId) -> bool,
    search: PromptAssembly.Query -> seq<PromptAssembly.Hit>)

  /** A frame sent to the client. */
  datatype OutFrame =
    | RoomMissing
    | PhaseChanged(phase: string)
    | Stream(content: string, phase: string)
    | Complete(phase: string)
    | Failure(content: string)

  /** A request to another service. */
  datatype Call =
    | SearchCall(query: PromptAssembly.Query)
    | KeywordCall(prompt: string)
    | GenerateCall(prompt: string)

  datatype Session = Session(room: RoomRow, log: seq<Message>, open: bool)

  datatype Outcome = Outcome(session: Session, sent: seq<OutFrame>, calls: seq<Call>)

  const InvalidFormat := "Invalid message format"

  /** `room.learning_phase or "home"` */
  function StoredPhase(room: RoomRow): string {
    match room.learningPhase
    case None => "home"
    case Some(v) => if v == "" then "home" else v
  }

  /** The user's message as stored, tagged with the phase it was sent in. */
  function UserMessage(message: string, phase: LearningPhase, now: Timestamp): Message {
    Message(User, message, PhaseValue(phase), IsExplanationPhase(phase), now)
  }

  /** The frames of a HOME turn: the phase change, the reply, the end of the reply. */
  function HomeFrames(reply: string): seq<OutFrame> {
    var kc := PhaseValue(KnowledgeCheck);
    [PhaseChanged(kc), Stream(reply, kc), Complete(kc)]
  }

  /** The fixed reply of a HOME turn around the extracted keyword. */
  function HomeReply(keyword: string): string {
    "'" + keyword + "'에 대해 학습하시는군요! 이 개념에 대해 얼마나 알고 계신가요?"
  }

  /**
   * The context dictionary the server hands to the prompt engine
   * (backend/server.py:1074-1079): the stored concept, which may be None,
   * and the stored knowledge level; no original question and no weak points.
   */
  function ServerContext(room: RoomRow): (ctx: PromptContext)
    ensures !HasAnchor(ctx)
  {
    var concept := match room.currentConcept
      case None => PyNone
      case Some(c) => PyText(c);
    PromptContext(Some(concept), None, Some(IntToDecimal(room.knowledgeLevel)), [])
  }

  /** One stream frame per appended chunk. */
  function StreamFrames(chunks: seq<string>, phase: string): (frames: seq<OutFrame>)
    ensures |frames| == |chunks|
    ensures forall i :: 0 <= i < |chunks| ==> frames[i] == Stream(chunks[i], phase)
  {
    seq(|chunks|, i requires 0 <= i < |chunks| => Stream(chunks[i], phase))
  }

  /** How reading the answer ends once an error after the last line is taken into account. */
  function StreamEnd(folded: ResponseStream.Folded, broken: Option<string>): ResponseStream.End {
    if folded.end == ResponseStream.Exhausted && broken.Some? then ResponseStream.Failed(broken.value)
    else folded.end
  }

  // ---------------------------------------------------------------------
  // The step
  // ---------------------------------------------------------------------

  /** A "phase_transition" frame (backend/server.py:956-972). */
  function TransitionTurn(sv: Services, s: Session, choice: Option<string>, now: Timestamp): Outcome {
    match ParsePhase(StoredPhase(s.room))
    case None => Outcome(s.(open := false), [], [])
    case Some(current) =>
      var next := sv.nextPhase(current, choice);
      var room := Flush(s.room, s.room.(learningPhase := Some(PhaseValue(next))), now);
      Outcome(s.(room := room), [PhaseChanged(PhaseValue(next))], [])
  }

  /**
   * A HOME turn after the user's message is stored (backend/server.py:1019-1064):
   * the raw message becomes the concept, the phase becomes knowledge_check
   * and a fixed reply around the extracted keyword is stored and sent.
   */
  function HomeTurn(s: Session, message: string, t: Turn, calls: seq<Call>): Outcome {
    var kc := PhaseValue(KnowledgeCheck);
    var keyword := ConceptKeyword.ExtractConceptKeyword(message, t.keyword);
    var room1 := Flush(s.room, s.room.(currentConcept := Some(message), learningPhase := Some(kc)), t.now);
    var reply := HomeReply(keyword);
    var room2 := Flush(room1, room1.(updatedAt := t.now), t.now);
    Outcome(
      s.(room := room2, log := s.log + [Message(Assistant, reply, kc, false, t.now)]),
      HomeFrames(reply),
      calls + [KeywordCall(ConceptKeyword.ExtractionPrompt(message))])
  }

  /** The generation request and the reading of its answer (backend/server.py:1086-1183). */
  function GenerateTurn(s: Session, phase: LearningPhase, prompt: string, t: Turn, calls: seq<Call>): Outcome {
    var pv := PhaseValue(phase);
    var calls1 := calls + [GenerateCall(prompt)];
    match t.generation
    case Unreachable(reason) => Outcome(s, [Failure("Error: " + reason)], calls1)
    case Answer(status, lines, broken) =>
      if status != 200 then Outcome(s, [Failure("Ollama error: " + IntToDecimal(status))], calls1)
      else
        var folded := ResponseStream.Fold(lines);
        var frames := StreamFrames(folded.chunks, pv);
        match StreamEnd(folded, broken)
        case Failed(reason) => Outcome(s, frames + [Failure("Error: " + reason)], calls1)
        case _ =>
          var answer := Message(Assistant, ResponseStream.Concat(folded.chunks), pv, false, t.now);
          var room := Flush(s.room, s.room.(updatedAt := t.now), t.now);
          Outcome(s.(room := room, log := s.log + [answer]), frames + [Complete(pv)], calls1)
  }

  /** A frame carrying a message (backend/server.py:975-1183). */
  function MessageTurn(sv: Services, s: Session, message: string, t: Turn): Outcome {
    var calls := Searches(sv, s.room, message);
    match ParsePhase(StoredPhase(s.room))
    case None => Outcome(s.(open := false), [], calls)
    case Some(phase) =>
      var r := ReplyTurn(sv, Logged(s, message, phase, t.now), message, t, phase);
      Outcome(r.session, r.sent, calls + r.calls)
  }

  /**
   * What follows once the user's message is stored (backend/server.py:1019-1183):
   * a HOME turn, or the instruction, the prompt and the generation.
   */
  function ReplyTurn(sv: Services, s: Session, message: string, t: Turn, phase: LearningPhase): Outcome {
    if phase == Home then HomeTurn(s, message, t, [])
    else
      match PromptFor(sv.engine, phase, ServerContext(s.room))
      case Err(_) => Outcome(s.(open := false), [], [])
      case Ok(system) =>
        var block := PromptAssembly.Retrieval(sv.hasPdf, sv.search, s.room, message).0;
        GenerateTurn(s, phase, PromptAssembly.FullPrompt(system, block, message), t, [])
  }

  /** The search a message turn makes, if any: over the room's PDF, with the raw message. */
  function Searches(sv: Services, room: RoomRow, message: string): (calls: seq<Call>)
    ensures |calls| <= 1
    ensures forall c :: c in calls ==>
      room.pdfId.Some? && c == SearchCall(PromptAssembly.Query(room.userId, room.pdfId.value, message, PromptAssembly.SearchLimit))
  {
    var retrieved := PromptAssembly.Retrieval(sv.hasPdf, sv.search, room, message);
    if retrieved.1.Some? then [SearchCall(retrieved.1.value)] else []
  }

  /** The session once the user's message is stored. */
  function Logged(s: Session, message: string, phase: LearningPhase, now: Timestamp): Session {
    s.(log := s.log + [UserMessage(message, phase, now)])
  }

  /** One received frame. A closed connection receives nothing more. */
  function Step(sv: Services, s: Session, t: Turn): Outcome {
    if !s.open then Outcome(s, [], [])
    else
      match t.frame
      case Unparsable => Outcome(s.(open := false), [], [])
      case Payload(kind, choice, message) =>
        if kind == Some("phase_transition") then TransitionTurn(sv, s, choice, t.now)
        else if message.None? then Outcome(s, [Failure(InvalidFormat)], [])
        else MessageTurn(sv, s, message.value, t)
  }

  /** A sequence of frames handled by `step`, the sent frames and calls accumulated. */
  function RunWith(step: (Session, Turn) -> Outcome, s: Session, turns: seq<Turn>): Outcome
    decreases |turns|
  {
    if turns == [] then Outcome(s, [], [])
    else
      var before := RunWith(step, s, turns[..|turns| - 1]);
      var last := step(before.session, turns[|turns| - 1]);
      Outcome(last.session, before.sent + last.sent, before.calls + last.calls)
  }

  function Handler(sv: Services): (Session, Turn) -> Outcome {
    (x: Session, t: Turn) => Step(sv, x, t)
  }

  /** The frames of one connection, handled in order. */
  function Run(sv: Services, s: Session, turns: seq<Turn>): Outcome {
    RunWith(Handler(sv), s, turns)
  }

  /** Handling one more frame. */
  lemma {:induction false} RunSnoc(sv: Services, s: Session, turns: seq<Turn>, i: nat)
    requires i < |turns|
    ensures var before := Run(sv, s, turns[..i]);
      var last := Step(sv, before.session, turns[i]);
      Run(sv, s, turns[..i + 1]) == Outcome(last.session, before.sent + last.sent, before.calls + last.calls)
  {
    assert turns[..i + 1][..i] == turns[..i];
    var before := Run(sv, s, turns[..i]);
    assert Handler(sv)(before.session, turns[i]) == Step(sv, before.session, turns[i]);
  }

  /** One more frame on top of what has been sent and called so far. */
  lemma RunOneMore(sv: Services, s: Session, turns: seq<Turn>, i: nat, sent: seq<OutFrame>, calls: seq<Call>)
    requires i < |turns|
    ensures var before := Run(sv, s, turns[..i]);
      var last := Step(sv, before.session, turns[i]);
      var after := Run(sv, s, turns[..i + 1]);
      after.session == last.session
      && sent + after.sent == (sent + before.sent) + last.sent
      && calls + after.calls == (calls + before.calls) + last.calls
  {
    RunSnoc(sv, s, turns, i);
    var before := Run(sv, s, turns[..i]);
    var last := Step(sv, before.session, turns[i]);
    AppendAssoc(sent, before.sent, last.sent);
    AppendAssoc(calls, before.calls, last.calls);
  }

  /** Once the connection is closed, or the frames run out, nothing more happens. */
  lemma RunStopped(sv: Services, s: Session, turns: seq<Turn>, i: nat)
    requires i <= |turns|
    requires i == |turns| || !Run(sv, s, turns[..i]).session.open
    ensures Run(sv, s, turns) == Run(sv, s, turns[..i])
  {
    if i < |turns| {
      ClosedStaysClosed(sv, Run(sv, s, turns[..i]).session, turns[i..]);
      RunWithStopped(Handler(sv), s, turns[..i], turns[i..]);
      assert turns[..i] + turns[i..] == turns;
    } else {
      assert turns[..i] == turns;
    }
  }

  /** Frames that change nothing after a stretch leave the outcome of that stretch. */
  lemma RunWithStopped(step: (Session, Turn) -> Outcome, s: Session, first: seq<Turn>, second: seq<Turn>)
    requires var a := RunWith(step, s, first); RunWith(step, a.session, second) == Outcome(a.session, [], [])
    ensures RunWith(step, s, first + second) == RunWith(step, s, first)
  {
    RunWithSplit(step, s, first, second);
    var a := RunWith(step, s, first);
    assert a.sent + [] == a.sent && a.calls + [] == a.calls;
  }

  /** Handling two stretches of frames one after the other is handling them together. */
  lemma {:induction false} RunWithSplit(step: (Session, Turn) -> Outcome, s: Session, first: seq<Turn>, second: seq<Turn>)
    ensures var a := RunWith(step, s, first);
      var b := RunWith(step, a.session, second);
      RunWith(step, s, first + second) == Outcome(b.session, a.sent + b.sent, a.calls + b.calls)
    decreases |second|
  {
    if second == [] {
      assert first + second == first;
    } else {
      var n := |second| - 1;
      var whole := first + second;
      RunWithSplit(step, s, first, second[..n]);
      assert whole[..|whole| - 1] == first + second[..n];
      assert whole[|whole| - 1] == second[n];
      var a := RunWith(step, s, first);
      var b0 := RunWith(step, a.session, second[..n]);
      var last := step(b0.session, second[n]);
      AppendAssoc(a.sent, b0.sent, last.sent);
      AppendAssoc(a.calls, b0.calls, last.calls);
    }
  }

  /** The room lookup when the socket opens (backend/server.py:942-946). */
  function Connect(found: Option<RoomRow>, log: seq<Message>): (r: Result<Session, OutFrame>)
    ensures r.Ok? <==> found.Some?
    ensures r.Ok? ==> r.value == Session(found.value, log, true)
    ensures r.Err? ==> r.error == RoomMissing
  {
    match found
    case None => Err(RoomMissing)
    case Some(room) => Ok(Session(room, log, true))
  }

  // ---------------------------------------------------------------------
  // The step, case by case
  // ---------------------------------------------------------------------

  lemma StepOnMessage(sv: Services, s: Session, t: Turn, message: string)
    requires s.open && CarriesMessage(t, message)
    ensures Step(sv, s, t) == MessageTurn(sv, s, message, t)
  {
  }

  /** A message turn when the stored phase is not a phase value: the connection ends. */
  lemma MessageTurnUnknownPhase(sv: Services, s: Session, message: string, t: Turn)
    requires ParsePhase(StoredPhase(s.room)).None?
    ensures MessageTurn(sv, s, message, t) == Outcome(s.(open := false), [], Searches(sv, s.room, message))
  {
  }

  /** A message turn in a phase the room can be in: the searches, then the reply. */
  lemma MessageTurnReplies(sv: Services, s: Session, message: string, t: Turn, phase: LearningPhase)
    requires ParsePhase(StoredPhase(s.room)) == Some(phase)
    ensures var r := ReplyTurn(sv, Logged(s, message, phase, t.now), message, t, phase);
      MessageTurn(sv, s, message, t) == Outcome(r.session, r.sent, Searches(sv, s.room, message) + r.calls)
  {
  }

  lemma ReplyAtHome(sv: Services, s: Session, message: string, t: Turn)
    ensures ReplyTurn(sv, s, message, t, Home) == HomeTurn(s, message, t, [])
  {
  }

  /** A reply whose instruction cannot be built: the connection ends. */
  lemma ReplyNoPrompt(sv: Services, s: Session, message: string, t: Turn, phase: LearningPhase)
    requires phase != Home && PromptFor(sv.engine, phase, ServerContext(s.room)).Err?
    ensures ReplyTurn(sv, s, message, t, phase) == Outcome(s.(open := false), [], [])
  {
  }

  /** A reply that asks the generation endpoint. */
  lemma ReplyGenerates(sv: Services, s: Session, message: string, t: Turn, phase: LearningPhase)
    requires phase != Home && PromptFor(sv.engine, phase, ServerContext(s.room)).Ok?
    ensures ReplyTurn(sv, s, message, t, phase) == GenerateTurn(s, phase, TurnPrompt(sv, s.room, phase, message), t, [])
  {
  }

  /** The prompt of a generating turn: the instruction, the reference block and the user's turn. */
  function TurnPrompt(sv: Services, room: RoomRow, phase: LearningPhase, message: string): string
    requires PromptFor(sv.engine, phase, ServerContext(room)).Ok?
  {
    var system := PromptFor(sv.engine, phase, ServerContext(room)).value;
    PromptAssembly.FullPrompt(system, PromptAssembly.Retrieval(sv.hasPdf, sv.search, room, message).0, message)
  }

  /** The two commits of a HOME turn leave the concept, the phase and the time written. */
  lemma HomeRoom(room: RoomRow, message: string, kc: string, now: Timestamp)
    ensures var room1 := Flush(room, room.(currentConcept := Some(message), learningPhase := Some(kc)), now);
      Flush(room1, room1.(updatedAt := now), now)
      == room.(currentConcept := Some(message), learningPhase := Some(kc), updatedAt := now)
  {
  }

  /** What a HOME turn writes, sends and asks for. */
  lemma HomeTurnFacts(s: Session, message: string, t: Turn, calls: seq<Call>)
    ensures var r := HomeTurn(s, message, t, calls);
      var kc := PhaseValue(KnowledgeCheck);
      var reply := HomeReply(ConceptKeyword.ExtractConceptKeyword(message, t.keyword));
      r.session.open == s.open
      && r.session.room == s.room.(currentConcept := Some(message), learningPhase := Some(kc), updatedAt := t.now)
      && r.session.log == s.log + [Message(Assistant, reply, kc, false, t.now)]
      && r.sent == [PhaseChanged(kc), Stream(reply, kc), Complete(kc)]
      && r.calls == calls + [KeywordCall(ConceptKeyword.ExtractionPrompt(message))]
  {
    HomeRoom(s.room, message, PhaseValue(KnowledgeCheck), t.now);
  }

  /** A HOME turn, given the room, log and frames it leads to. */
  lemma HomeTurnIs(s: Session, message: string, t: Turn, room: RoomRow, log: seq<Message>, sent: seq<OutFrame>)
    requires var kc := PhaseValue(KnowledgeCheck);
      var reply := HomeReply(ConceptKeyword.ExtractConceptKeyword(message, t.keyword));
      room == s.room.(currentConcept := Some(message), learningPhase := Some(kc), updatedAt := t.now)
      && log == s.log + [Message(Assistant, reply, kc, false, t.now)]
      && sent == [PhaseChanged(kc), Stream(reply, kc), Complete(kc)]
    ensures HomeTurn(s, message, t, []) == Outcome(Session(room, log, s.open), sent, [KeywordCall(ConceptKeyword.ExtractionPrompt(message))])
  {
    HomeTurnFacts(s, message, t, []);
  }

  /** The answer message a completed generation stores. */
  function Answered(g: Generation, phase: LearningPhase, now: Timestamp): Message
    requires g.Answer?
  {
    Message(Assistant, ResponseStream.Concat(ResponseStream.Fold(g.lines).chunks), PhaseValue(phase), false, now)
  }

  /** What a generation writes and asks for: the answer only when the reading completes. */
  lemma GenerateTurnFacts(s: Session, phase: LearningPhase, prompt: string, t: Turn, calls: seq<Call>)
    ensures var r := GenerateTurn(s, phase, prompt, t, calls);
      r.session.open == s.open
      && r.calls == calls + [GenerateCall(prompt)]
      && (Completes(t.generation) ==>
            r.session.room == s.room.(updatedAt := t.now)
            && r.session.log == s.log + [Answered(t.generation, phase, t.now)]
            && r.sent == StreamFrames(ResponseStream.Fold(t.generation.lines).chunks, PhaseValue(phase)) + [Complete(PhaseValue(phase))])
      && (!Completes(t.generation) ==> r.session.room == s.room && r.session.log == s.log)
  {
  }

  /**
   * A message frame: the room keeps its other columns, the log gains the
   * user's message and at most one answer, and the only calls are the
   * searches and then at most one keyword or generation request.
   */
  lemma MessageStepFacts(sv: Services, s: Session, t: Turn, message: string)
    requires s.open && CarriesMessage(t, message)
    ensures var r := Step(sv, s, t);
      var room := r.session.room;
      var searches := Searches(sv, s.room, message);
      room == s.room.(learningPhase := room.learningPhase, currentConcept := room.currentConcept, updatedAt := room.updatedAt)
      && (ParsePhase(StoredPhase(s.room)).None? ==> r == Outcome(s.(open := false), [], searches))
      && (ParsePhase(StoredPhase(s.room)).Some? ==>
            var logged := Logged(s, message, ParsePhase(StoredPhase(s.room)).value, t.now).log;
            |logged| <= |r.session.log| <= |logged| + 1 && r.session.log[..|logged|] == logged
            && |searches| <= |r.calls| <= |searches| + 1 && r.calls[..|searches|] == searches)
  {
    StepOnMessage(sv, s, t, message);
    var p := ParsePhase(StoredPhase(s.room));
    if p.None? {
      MessageTurnUnknownPhase(sv, s, message, t);
    } else {
      var logged := Logged(s, message, p.value, t.now);
      MessageTurnReplies(sv, s, message, t, p.value);
      ReplyFacts(sv, logged, message, t, p.value);
    }
  }

  /**
   * A reply keeps the room's other columns, adds at most one message to
   * the log and makes at most one call.
   */
  lemma ReplyFacts(sv: Services, s: Session, message: string, t: Turn, phase: LearningPhase)
    ensures var r := ReplyTurn(sv, s, message, t, phase);
      var room := r.session.room;
      room == s.room.(learningPhase := room.learningPhase, currentConcept := room.currentConcept, updatedAt := room.updatedAt)
      && |s.log| <= |r.session.log| <= |s.log| + 1 && r.session.log[..|s.log|] == s.log
      && |r.calls| <= 1
  {
    if phase == Home {
      ReplyAtHome(sv, s, message, t);
      HomeTurnFacts(s, message, t, []);
    } else if PromptFor(sv.engine, phase, ServerContext(s.room)).Err? {
      ReplyNoPrompt(sv, s, message, t, phase);
    } else {
      ReplyGenerates(sv, s, message, t, phase);
      GenerateTurnFacts(s, phase, TurnPrompt(sv, s.room, phase, message), t, []);
    }
  }

  // ---------------------------------------------------------------------
  // What a turn promises
  // ---------------------------------------------------------------------

  /** A frame that carries a message and is not a phase transition. */
  predicate CarriesMessage(t: Turn, message: string) {
    t.frame.Payload? && t.frame.kind != Some("phase_transition") && t.frame.message == Some(message)
  }

  /**
   * A turn writes only `learning_phase`, `current_concept` and
   * `updated_at`: the owner, the linked PDF, the title, the original
   * question, the knowledge level and the creation time stay as they were.
   */
  lemma {:induction false} StepKeepsOtherColumns(sv: Services, s: Session, t: Turn)
    ensures var r := Step(sv, s, t).session.room;
      r == s.room.(learningPhase := r.learningPhase, currentConcept := r.currentConcept, updatedAt := r.updatedAt)
  {
    if s.open && t.frame.Payload? && t.frame.kind != Some("phase_transition") && t.frame.message.Some? {
      MessageStepFacts(sv, s, t, t.frame.message.value);
    }
  }

  /**
   * The log only grows, by at most the user's message and one answer, and
   * only a message-carrying frame adds to it.
   */
  lemma {:induction false} StepAppendsOnly(sv: Services, s: Session, t: Turn)
    ensures var log := Step(sv, s, t).session.log;
      |s.log| <= |log| <= |s.log| + 2 && log[..|s.log|] == s.log
    ensures Step(sv, s, t).session.log != s.log ==> s.open && exists m :: CarriesMessage(t, m)
  {
    if s.open && t.frame.Payload? && t.frame.kind != Some("phase_transition") && t.frame.message.Some? {
      var message := t.frame.message.value;
      MessageStepFacts(sv, s, t, message);
      assert CarriesMessage(t, message);
      var p := ParsePhase(StoredPhase(s.room));
      if p.Some? {
        var log := Step(sv, s, t).session.log;
        var logged := Logged(s, message, p.value, t.now).log;
        assert logged[..|s.log|] == s.log;
        assert log[..|s.log|] == log[..|logged|][..|s.log|];
      }
    }
  }

  /**
   * A message in a phase the room can be in is stored first, as a user
   * message tagged with that phase, marked as an explanation exactly in
   * the two explanation phases; a generation request, if any, is the last
   * call of the turn.
   */
  lemma {:induction false} MessageStoredFirst(sv: Services, s: Session, t: Turn, message: string, phase: LearningPhase)
    requires s.open && CarriesMessage(t, message)
    requires ParsePhase(StoredPhase(s.room)) == Some(phase)
    ensures var log := Step(sv, s, t).session.log;
      |log| > |s.log| && log[|s.log|] == Message(User, message, PhaseValue(phase), IsExplanationPhase(phase), t.now)
    ensures IsExplanationPhase(phase) <==> phase == FirstExplanation || phase == SecondExplanation
    ensures var calls := Step(sv, s, t).calls;
      forall i :: 0 <= i < |calls| - 1 ==> !calls[i].GenerateCall?
  {
    MessageStepFacts(sv, s, t, message);
    var r := Step(sv, s, t);
    var logged := Logged(s, message, phase, t.now).log;
    assert r.session.log[|s.log|] == r.session.log[..|logged|][|s.log|];
    var searches := Searches(sv, s.room, message);
    forall i | 0 <= i < |r.calls| - 1 ensures !r.calls[i].GenerateCall? {
      assert r.calls[i] == r.calls[..|searches|][i];
      assert r.calls[i] in searches;
    }
  }

  /** A frame without "message" is answered with an error and changes nothing. */
  lemma {:induction false} MissingMessageIgnored(sv: Services, s: Session, t: Turn)
    requires s.open && t.frame.Payload? && t.frame.kind != Some("phase_transition") && t.frame.message.None?
    ensures Step(sv, s, t) == Outcome(s, [Failure(InvalidFormat)], [])
  {
  }

  /** Undecodable input ends the connection, and nothing comes after that. */
  lemma {:induction false} UnparsableCloses(sv: Services, s: Session, t: Turn, later: seq<Turn>)
    requires s.open && t.frame.Unparsable?
    ensures Step(sv, s, t) == Outcome(s.(open := false), [], [])
    ensures Run(sv, s.(open := false), later) == Outcome(s.(open := false), [], [])
  {
    ClosedStaysClosed(sv, s.(open := false), later);
  }

  lemma {:induction false} ClosedStaysClosed(sv: Services, s: Session, turns: seq<Turn>)
    requires !s.open
    ensures Run(sv, s, turns) == Outcome(s, [], [])
    decreases |turns|
  {
    if turns != [] {
      ClosedStaysClosed(sv, s, turns[..|turns| - 1]);
      assert Handler(sv)(s, turns[|turns| - 1]) == Outcome(s, [], []);
    }
  }

  /**
   * A HOME turn stores the raw message as the concept, moves to
   * knowledge_check, stores one reply containing the keyword and asks the
   * keyword model but never the generation endpoint.
   */
  lemma {:induction false} HomeTurnEffects(sv: Services, s: Session, t: Turn, message: string)
    requires s.open && CarriesMessage(t, message)
    requires ParsePhase(StoredPhase(s.room)) == Some(Home)
    ensures var r := Step(sv, s, t);
      r.session.open
      && r.session.room.currentConcept == Some(message)
      && r.session.room.learningPhase == Some("knowledge_check")
      && r.session.room.updatedAt == t.now
      && |r.session.log| == |s.log| + 2
      && r.session.log[|s.log| + 1].role == Assistant
      && r.session.log[|s.log| + 1].phase == "knowledge_check"
      && IsInfix(ConceptKeyword.ExtractConceptKeyword(message, t.keyword), r.session.log[|s.log| + 1].content)
      && r.sent == [PhaseChanged("knowledge_check"), Stream(r.session.log[|s.log| + 1].content, "knowledge_check"),
                    Complete("knowledge_check")]
      && (forall c :: c in r.calls ==> !c.GenerateCall?)
  {
    StepOnMessage(sv, s, t, message);
    var logged := Logged(s, message, Home, t.now);
    MessageTurnReplies(sv, s, message, t, Home);
    ReplyAtHome(sv, logged, message, t);
    HomeTurnFacts(logged, message, t, []);
    assert PhaseValue(KnowledgeCheck) == "knowledge_check";
    var keyword := ConceptKeyword.ExtractConceptKeyword(message, t.keyword);
    InfixAt(keyword, "'", "'에 대해 학습하시는군요! 이 개념에 대해 얼마나 알고 계신가요?");
  }

  /** The answer to a request that went out reads to the end without an exception. */
  predicate Completes(g: Generation) {
    g.Answer? && g.status == 200 && !StreamEnd(ResponseStream.Fold(g.lines), g.broken).Failed?
  }

  /**
   * Outside HOME, once the prompt is built, an answer is stored iff the
   * generation answer completes; it is the concatenation of the streamed
   * chunks, which are the response strings up to the first done record.
   */
  lemma {:induction false} AnswerStoredIffComplete(sv: Services, s: Session, t: Turn, message: string, phase: LearningPhase)
    requires s.open && CarriesMessage(t, message)
    requires ParsePhase(StoredPhase(s.room)) == Some(phase) && phase != Home
    requires PromptFor(sv.engine, phase, ServerContext(s.room)).Ok?
    ensures var r := Step(sv, s, t);
      r.session.open && (|r.session.log| == |s.log| + 2 <==> Completes(t.generation))
    ensures var r := Step(sv, s, t);
      Completes(t.generation) ==>
        var chunks := ResponseStream.Texts(ResponseStream.ThroughDone(t.generation.lines));
        r.session.log[|s.log| + 1] == Message(Assistant, ResponseStream.Concat(chunks), PhaseValue(phase), false, t.now)
        && r.sent == StreamFrames(chunks, PhaseValue(phase)) + [Complete(PhaseValue(phase))]
  {
    StepOnMessage(sv, s, t, message);
    var logged := Logged(s, message, phase, t.now);
    MessageTurnReplies(sv, s, message, t, phase);
    ReplyGenerates(sv, logged, message, t, phase);
    GenerateTurnFacts(logged, phase, TurnPrompt(sv, s.room, phase, message), t, []);
    if t.generation.Answer? {
      ResponseStream.FoldIsTextsThroughDone(t.generation.lines);
    }
  }

  /**
   * The only search is over the room's own PDF, with the raw message as
   * the query and five results; the generation prompt ends with the
   * user's turn.
   */
  lemma {:induction false} RequestsUseRawMessage(sv: Services, s: Session, t: Turn, message: string)
    requires s.open && CarriesMessage(t, message)
    ensures forall c :: c in Step(sv, s, t).calls && c.SearchCall? ==>
      s.room.pdfId.Some?
      && c.query == PromptAssembly.Query(s.room.userId, s.room.pdfId.value, message, PromptAssembly.SearchLimit)
    ensures forall c :: c in Step(sv, s, t).calls && c.GenerateCall? ==>
      EndsWith(c.prompt, PromptAssembly.UserTurn(message))
  {
    StepOnMessage(sv, s, t, message);
    var p := ParsePhase(StoredPhase(s.room));
    if p.None? {
      MessageTurnUnknownPhase(sv, s, message, t);
    } else {
      MessageTurnReplies(sv, s, message, t, p.value);
      ReplyCalls(sv, Logged(s, message, p.value, t.now), message, t, p.value);
    }
  }

  /** A reply searches nothing, and a prompt it sends ends with the user's turn. */
  lemma ReplyCalls(sv: Services, s: Session, message: string, t: Turn, phase: LearningPhase)
    ensures forall c :: c in ReplyTurn(sv, s, message, t, phase).calls ==>
      !c.SearchCall? && (c.GenerateCall? ==> EndsWith(c.prompt, PromptAssembly.UserTurn(message)))
  {
    if phase == Home {
      ReplyAtHome(sv, s, message, t);
      HomeTurnFacts(s, message, t, []);
    } else if PromptFor(sv.engine, phase, ServerContext(s.room)).Err? {
      ReplyNoPrompt(sv, s, message, t, phase);
    } else {
      var system := PromptFor(sv.engine, phase, ServerContext(s.room)).value;
      var block := PromptAssembly.Retrieval(sv.hasPdf, sv.search, s.room, message).0;
      ReplyGenerates(sv, s, message, t, phase);
      GenerateTurnFacts(s, phase, TurnPrompt(sv, s.room, phase, message), t, []);
      PromptAssembly.FullPromptShape(system, block, message);
    }
  }

  /**
   * A transition request sets the phase the flow chooses from the current
   * one and the client's choice, and leaves the log alone.
   */
  lemma {:induction false} TransitionSetsNextPhase(sv: Services, s: Session, t: Turn, current: LearningPhase)
    requires s.open && t.frame.Payload? && t.frame.kind == Some("phase_transition")
    requires ParsePhase(StoredPhase(s.room)) == Some(current)
    ensures var next := sv.nextPhase(current, t.frame.choice);
      var r := Step(sv, s, t);
      r.session.room.learningPhase == Some(PhaseValue(next))
      && r.session.log == s.log && r.session.open
      && r.sent == [PhaseChanged(PhaseValue(next))] && r.calls == []
  {
  }

  /**
   * Whether a completed answer is followed by a stored learning evaluation
   * (backend/server.py:1068-1070, 1150-1160): the analysis is requested
   * only in the two explanation phases, and an evaluation is stored only
   * in the evaluation phase when the analysis is truthy. `analyze` is the
   * truthiness of what `evaluator.analyze_explanation` returns.
   */
  predicate StoresEvaluation(phase: LearningPhase, analyze: string -> bool, message: string) {
    var analysis := IsExplanationPhase(phase) && analyze(message);
    phase == Evaluation && analysis
  }

  /**
   * A refused generation request is reported with its status: two statuses
   * other than 200 lead to the same frames exactly when they are equal.
   */
  lemma StatusErrorNamesStatus(s: Session, phase: LearningPhase, prompt: string, t1: Turn, t2: Turn, calls: seq<Call>)
    requires t1.generation.Answer? && t1.generation.status != 200
    requires t2.generation.Answer? && t2.generation.status != 200
    ensures GenerateTurn(s, phase, prompt, t1, calls).sent == GenerateTurn(s, phase, prompt, t2, calls).sent
            <==> t1.generation.status == t2.generation.status
  {
    var head := "Ollama error: ";
    var a, b := IntToDecimal(t1.generation.status), IntToDecimal(t2.generation.status);
    if GenerateTurn(s, phase, prompt, t1, calls).sent == GenerateTurn(s, phase, prompt, t2, calls).sent {
      assert head + a == head + b;
      assert a == (head + a)[|head|..] == (head + b)[|head|..] == b;
      IntToDecimalInjective(t1.generation.status, t2.generation.status);
    }
  }

  /** No turn ever stores a learning evaluation, whatever the analysis says. */
  lemma {:induction false} NoEvaluationStored(phase: LearningPhase, analyze: string -> bool, message: string)
    ensures !StoresEvaluation(phase, analyze, message)
  {
  }

  /** Over a whole connection the log only grows. */
  lemma {:induction false} RunAppendsOnly(sv: Services, s: Session, turns: seq<Turn>)
    ensures |s.log| <= |Run(sv, s, turns).session.log|
    ensures Run(sv, s, turns).session.log[..|s.log|] == s.log
    decreases |turns|
  {
    if turns != [] {
      var before := Run(sv, s, turns[..|turns| - 1]);
      RunAppendsOnly(sv, s, turns[..|turns| - 1]);
      StepAppendsOnly(sv, before.session, turns[|turns| - 1]);
      assert Run(sv, s, turns).session == Step(sv, before.session, turns[|turns| - 1]).session;
      var log := Run(sv, s, turns).session.log;
      assert log[..|before.session.log|] == before.session.log;
      assert log[..|s.log|] == log[..|before.session.log|][..|s.log|];
    }
  }
}
