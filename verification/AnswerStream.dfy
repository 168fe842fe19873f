/** A streaming run whose agent is the persona agent: what its events say together. */
module AnswerStreams {
  import opened Text
  import opened Normalization
  import opened TurnRecords
  import opened TurnProtocol
  import opened TurnTheorems
  import opened Coordinators
  import opened Orchestrators
  import PersonaStreams
  import StreamLeaks

  /** The deltas the agent offered, and its result. A result comes without an error exactly when the agent did not fail. */
  predicate FromPersona(script: Script, run: PersonaStreams.Streaming) {
    && script.deltas == run.progress.offered
    && match run.result
       case Failed => !script.answer.Answered?
       case Fallback(_) => script.answer.Answered?
       case Generated(content) => script.answer.Answered? && script.answer.result.message.content == content
  }

  lemma DeltasAppend(a: seq<StreamEvent>, e: StreamEvent)
    ensures DeltasOf(a + [e]) == DeltasOf(a) + if e.AssistantDelta? then [e.text] else []
    ensures DeltasOf([]) == []
  {
    assert (a + [e])[..|a|] == a;
  }

  lemma {:induction false} DeltasOfDeltas(before: seq<StreamEvent>, texts: seq<string>)
    ensures DeltasOf(before + DeltaEvents(texts)) == DeltasOf(before) + texts
  {
    hide DeltasOf;
    var n := |texts| - 1;
    if texts == [] {
      assert before + DeltaEvents(texts) == before;
    } else {
      DeltasOfDeltas(before, texts[..n]);
      DeltasAppend(before + DeltaEvents(texts[..n]), AssistantDelta(texts[n]));
      assert before + DeltaEvents(texts) == before + DeltaEvents(texts[..n]) + [AssistantDelta(texts[n])];
      assert texts == texts[..n] + [texts[n]];
    }
  }

  lemma DeltasOfAnswered(script: Script, content: string)
    requires script.agent.Some?
    ensures DeltasOf(AnsweredTrace(script, content)) == script.deltas
  {
    hide DeltasOf;
    var start, route, found := RequestStarted, RouteSelected(script.intent), AgentSelected(script.agent.value);
    var head := [start, route, found];
    DeltasAppend([], start);
    DeltasAppend([start], route);
    DeltasAppend([start, route], found);
    assert [] + [start] == [start] && [start] + [route] == [start, route] && [start, route] + [found] == head;
    DeltasOfDeltas(head, script.deltas);
    var most := head + DeltaEvents(script.deltas);
    var message, done := MessageCompleted(content, false), Done(DoneCompleted, false);
    DeltasAppend(most, message);
    DeltasAppend(most + [message], done);
    assert AnsweredTrace(script, content) == most + [message] + [done];
  }

  /** The last two events of a run that announced its answer. */
  lemma LastEvents(store: map<ConversationKey, Conversation>, c: Client, result: AgentResult)
    requires ClientOk(store, c) && c.phase == Ended(Closing(result, c.replayed), 2)
    ensures |c.events| >= 2
    ensures c.events[|c.events| - 2].event == MessageCompleted(result.message.content, c.replayed)
    ensures c.events[|c.events| - 1].event == Done(DoneCompleted, c.replayed)
  {
    hide Live, Committed;
    var n, plan := |c.events|, Closing(result, c.replayed);
    assert c.events[n - 2 + 0].event == plan[0] && c.events[n - 2 + 1].event == plan[1];
  }

  /** A generated answer is announced as exactly the deltas that were streamed, and holds no tame claim; when
      the answer is a fallback nothing was streamed before it. */
  lemma MessageIsDeltas(cfg: PersonaStreams.Config, chunks: seq<PersonaStreams.Chunk>, ending: PersonaStreams.Ending,
                        script: Script, deltas: seq<string>, claim: string)
    requires cfg.hasSink && deltas == script.deltas && FromPersona(script, PersonaStreams.Streamed(cfg, chunks, ending))
    requires script.answer.Answered?
    ensures var r := PersonaStreams.Streamed(cfg, chunks, ending).result;
            && (r.Generated? ==> script.answer.result.message.content == Concat(deltas))
            && (r.Fallback? ==> deltas == [])
            && (claim in cfg.claims && StreamLeaks.Tame(NormalizeText(claim)) ==>
                  !Contains(NormalizeText(Concat(deltas)), NormalizeText(claim)))
  {
    hide PersonaStreams.Streamed, Concat, Contains, NormalizeText, StreamLeaks.Tame;
    PersonaStreams.AllOrNothing(cfg, chunks, ending);
    if claim in cfg.claims && StreamLeaks.Tame(NormalizeText(claim)) { StreamLeaks.NeverShown(cfg, chunks, ending, claim); }
  }

  /** Orchestrator.Stream with the persona agent. What is announced as the message, committed and returned is,
      when it was generated, exactly what the deltas before it add up to. */
  method StreamPersona(orchestrator: Orchestrator, req: TurnRequest, requestId: string, script: Script, sink: EventSink,
                       ghost start: World, ghost id: nat, ghost cfg: PersonaStreams.Config,
                       ghost chunks: seq<PersonaStreams.Chunk>, ghost ending: PersonaStreams.Ending, ghost claim: string)
    returns (outcome: StreamReturn, ghost actions: seq<Action>, ghost c: Client)
    requires Inv(start) && id !in start.clients && start == orchestrator.Shared(start.clients)
    requires cfg.hasSink && FromPersona(script, PersonaStreams.Streamed(cfg, chunks, ending))
    modifies orchestrator.coordinator.gate, orchestrator.coordinator.store, sink
    ensures outcome.Returned? && !c.replayed ==>
              var run := PersonaStreams.Streamed(cfg, chunks, ending);
              var content := outcome.result.message.content;
              && |c.events| >= 2 && c.events[|c.events| - 2].event == MessageCompleted(content, false)
              && sink.events == old(sink.events) + c.events
              && CommittedIn(orchestrator.coordinator.store.conversations, req, content)
              && (run.result.Generated? ==> content == Concat(DeltasOf(EventsOf(c.events))))
              && (run.result.Fallback? ==> DeltasOf(EventsOf(c.events)) == [])
              && !run.result.Failed?
              && (run.result.Generated? && claim in cfg.claims && StreamLeaks.Tame(NormalizeText(claim)) ==>
                    !Contains(NormalizeText(content), NormalizeText(claim)))
  {
    hide PersonaStreams.Streamed, Concat, Contains, NormalizeText, StreamLeaks.Tame, Inv, Run, DeltasOf, EventsOf, EndStored,
      AnsweredTrace, EnsureIdentity, ClientOk, CommittedIn, ValidRequest;
    outcome, actions, c := orchestrator.Stream(req, requestId, script, sink, start, id);
    if outcome.Returned? && !c.replayed {
      DeltasOfAnswered(script, outcome.result.message.content);
      MessageIsDeltas(cfg, chunks, ending, script, script.deltas, claim);
      ClientAtEnd(start, actions, orchestrator.Shared(start.clients), id, c);
      LastEvents(orchestrator.coordinator.store.conversations, c, outcome.result);
      AcknowledgedIsCommitted(orchestrator.coordinator.store.conversations, c, |c.events| - 2);
    }
  }

  lemma ClientAtEnd(start: World, actions: seq<Action>, w: World, id: nat, c: Client)
    requires Inv(start) && Run(start, actions) == Put(w, id, c)
    ensures ClientOk(w.store, c)
  {
    hide ClientOk, Run, StoreOk, Owned;
    RunKeeps(start, actions);
    assert Put(w, id, c).clients[id] == c;
  }
}
