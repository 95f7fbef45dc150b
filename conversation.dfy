/**
 * The WebSocket connection of backend/server.py:931-1190 as the server
 * runs it: the loaded room row is updated in place, messages are appended
 * to the room's log, frames are sent and services are called one after
 * the other. Each handled frame is proved to do what `ChatTurn.Step`
 * says, so the turn properties proved there hold of the connection.
 */
module ChatConnection {
  import opened Base
  import opened PyStr
  import opened Records
  import opened FeynmanPrompts
  import ConceptKeyword
  import ResponseStream
  import PromptAssembly
  import opened ChatTurn

  class Conversation {
    var room: RoomRow
    var log: seq<Message>
    var open: bool
    var sent: seq<OutFrame>
    var calls: seq<Call>

    function State(): Session
      reads this
    {
      Session(room, log, open)
    }

    /** The connection after the room was found (backend/server.py:942-946). */
    constructor(found: RoomRow, log0: seq<Message>)
      ensures State() == Session(found, log0, true) && sent == [] && calls == []
    {
      room, log, open := found, log0, true;
      sent, calls := [], [];
    }

    /** One received frame (backend/server.py:949-1183). */
    method HandleFrame(sv: Services, t: Turn)
      modifies this
      ensures State() == Step(sv, old(State()), t).session
      ensures sent == old(sent) + Step(sv, old(State()), t).sent
      ensures calls == old(calls) + Step(sv, old(State()), t).calls
    {
      if !open {
        return;
      }
      match t.frame
      case Unparsable =>
        open := false;
      case Payload(kind, choice, message) =>
        if kind == Some("phase_transition") {
          Transition(sv, choice, t.now);
        } else if message.None? {
          sent := sent + [Failure(InvalidFormat)];
        } else {
          HandleMessage(sv, message.value, t);
        }
    }

    /** backend/server.py:956-972 */
    method Transition(sv: Services, choice: Option<string>, now: Timestamp)
      requires open
      modifies this
      ensures State() == TransitionTurn(sv, old(State()), choice, now).session
      ensures sent == old(sent) + TransitionTurn(sv, old(State()), choice, now).sent
      ensures calls == old(calls)
    {
      var current := ParsePhase(StoredPhase(room));
      if current.None? {
        open := false;
        return;
      }
      var next := sv.nextPhase(current.value, choice);
      var before := room;
      room := room.(learningPhase := Some(PhaseValue(next)));
      room := Flush(before, room, now);
      sent := sent + [PhaseChanged(PhaseValue(next))];
    }

    /** backend/server.py:975-1183 */
    method HandleMessage(sv: Services, message: string, t: Turn)
      requires open
      modifies this
      ensures State() == MessageTurn(sv, old(State()), message, t).session
      ensures sent == old(sent) + MessageTurn(sv, old(State()), message, t).sent
      ensures calls == old(calls) + MessageTurn(sv, old(State()), message, t).calls
    {
      ghost var s := State();
      ghost var calls0 := calls;
      ghost var searches := Searches(sv, room, message);
      var ragContext := "";
      if room.pdfId.Some? && room.pdfId.value != "" && sv.hasPdf(room.userId, room.pdfId.value) {
        var query := PromptAssembly.Query(room.userId, room.pdfId.value, message, PromptAssembly.SearchLimit);
        calls := calls + [SearchCall(query)];
        ragContext := PromptAssembly.BuildReferenceBlock(sv.search(query));
      }
      assert ragContext == PromptAssembly.Retrieval(sv.hasPdf, sv.search, s.room, message).0;
      assert calls == calls0 + searches;
      var parsed := ParsePhase(StoredPhase(room));
      if parsed.None? {
        MessageTurnUnknownPhase(sv, s, message, t);
        open := false;
        return;
      }
      var phase := parsed.value;
      log := log + [UserMessage(message, phase, t.now)];
      MessageTurnReplies(sv, s, message, t, phase);
      ghost var logged := State();
      Reply(sv, message, t, phase, ragContext);
      AppendAssoc(calls0, searches, ReplyTurn(sv, logged, message, t, phase).calls);
    }

    /** backend/server.py:1019-1183, once the user's message is stored. */
    method Reply(sv: Services, message: string, t: Turn, phase: LearningPhase, ragContext: string)
      requires ragContext == PromptAssembly.Retrieval(sv.hasPdf, sv.search, room, message).0
      modifies this
      ensures State() == ReplyTurn(sv, old(State()), message, t, phase).session
      ensures sent == old(sent) + ReplyTurn(sv, old(State()), message, t, phase).sent
      ensures calls == old(calls) + ReplyTurn(sv, old(State()), message, t, phase).calls
    {
      if phase == Home {
        ghost var s := State();
        ReplyAtHome(sv, s, message, t);
        StartLesson(message, t);
        ghost var kc := PhaseValue(KnowledgeCheck);
        ghost var reply := HomeReply(ConceptKeyword.ExtractConceptKeyword(message, t.keyword));
        HomeTurnIs(s, message, t, room, log, HomeFrames(reply));
        return;
      }
      var system := PromptFor(sv.engine, phase, ServerContext(room));
      if system.Err? {
        ReplyNoPrompt(sv, State(), message, t, phase);
        open := false;
        return;
      }
      var prompt := PromptAssembly.FullPrompt(system.value, ragContext, message);
      ReplyGenerates(sv, State(), message, t, phase);
      Generate(phase, prompt, t);
    }

    /** backend/server.py:1019-1064 */
    method StartLesson(message: string, t: Turn)
      modifies this
      ensures room == old(room).(currentConcept := Some(message), learningPhase := Some(PhaseValue(KnowledgeCheck)),
                                 updatedAt := t.now)
      ensures log == old(log) + [Message(Assistant, HomeReply(ConceptKeyword.ExtractConceptKeyword(message, t.keyword)),
                                         PhaseValue(KnowledgeCheck), false, t.now)]
      ensures sent == old(sent) + HomeFrames(HomeReply(ConceptKeyword.ExtractConceptKeyword(message, t.keyword)))
      ensures calls == old(calls) + [KeywordCall(ConceptKeyword.ExtractionPrompt(message))]
      ensures open == old(open)
    {
      calls := calls + [KeywordCall(ConceptKeyword.ExtractionPrompt(message))];
      var keyword := ConceptKeyword.ExtractConceptKeyword(message, t.keyword);
      Greet(message, keyword, t.now);
    }

    /** The HOME turn once the keyword is known: store the concept and the phase, reply. */
    method Greet(message: string, keyword: string, now: Timestamp)
      modifies this
      ensures room == old(room).(currentConcept := Some(message), learningPhase := Some(PhaseValue(KnowledgeCheck)),
                                 updatedAt := now)
      ensures log == old(log) + [Message(Assistant, HomeReply(keyword), PhaseValue(KnowledgeCheck), false, now)]
      ensures sent == old(sent) + HomeFrames(HomeReply(keyword))
      ensures calls == old(calls) && open == old(open)
    {
      ghost var room0, sent0 := room, sent;
      var kc := PhaseValue(KnowledgeCheck);
      var before := room;
      room := room.(currentConcept := Some(message), learningPhase := Some(kc));
      room := Flush(before, room, now);
      sent := sent + [PhaseChanged(kc)];
      var reply := HomeReply(keyword);
      log := log + [Message(Assistant, reply, kc, false, now)];
      before := room;
      room := room.(updatedAt := now);
      room := Flush(before, room, now);
      sent := sent + [Stream(reply, kc)];
      sent := sent + [Complete(kc)];
      assert room == room0.(currentConcept := Some(message), learningPhase := Some(kc), updatedAt := now) by {
        HomeRoom(room0, message, kc, now);
      }
      assert sent == sent0 + HomeFrames(reply);
    }

    /** backend/server.py:1086-1183 */
    method Generate(phase: LearningPhase, prompt: string, t: Turn)
      modifies this
      ensures State() == GenerateTurn(old(State()), phase, prompt, t, []).session
      ensures sent == old(sent) + GenerateTurn(old(State()), phase, prompt, t, []).sent
      ensures calls == old(calls) + GenerateTurn(old(State()), phase, prompt, t, []).calls
    {
      var pv := PhaseValue(phase);
      calls := calls + [GenerateCall(prompt)];
      match t.generation
      case Unreachable(reason) =>
        sent := sent + [Failure("Error: " + reason)];
      case Answer(status, lines, broken) =>
        if status != 200 {
          sent := sent + [Failure("Ollama error: " + IntToDecimal(status))];
          return;
        }
        var response, chunks, end := ResponseStream.AccumulateStream(lines);
        sent := sent + StreamFrames(chunks, pv);
        if end == ResponseStream.Exhausted && broken.Some? {
          end := ResponseStream.Failed(broken.value);
        }
        if end.Failed? {
          sent := sent + [Failure("Error: " + end.reason)];
          return;
        }
        log := log + [Message(Assistant, response, pv, false, t.now)];
        var before := room;
        room := room.(updatedAt := t.now);
        room := Flush(before, room, t.now);
        sent := sent + [Complete(pv)];
    }

    /**
     * The receive loop: frames are handled in order until the connection
     * ends.
     */
    method Serve(sv: Services, turns: seq<Turn>)
      modifies this
      ensures State() == Run(sv, old(State()), turns).session
      ensures sent == old(sent) + Run(sv, old(State()), turns).sent
      ensures calls == old(calls) + Run(sv, old(State()), turns).calls
    {
      ghost var s0, sent0, calls0 := State(), sent, calls;
      var i := 0;
      while i < |turns| && open
        invariant i <= |turns|
        invariant State() == Run(sv, s0, turns[..i]).session
        invariant sent == sent0 + Run(sv, s0, turns[..i]).sent
        invariant calls == calls0 + Run(sv, s0, turns[..i]).calls
        decreases |turns| - i
      {
        RunOneMore(sv, s0, turns, i, sent0, calls0);
        HandleFrame(sv, turns[i]);
        i := i + 1;
      }
      RunStopped(sv, s0, turns, i);
    }
  }
}
