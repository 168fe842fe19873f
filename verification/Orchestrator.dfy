/** Orchestrator.Stream as one method over the coordinator, the emitter and the sink, proved to
    take the steps of one streaming client of the turn protocol. */
module Orchestrators {
  import opened Text
  import opened TurnRecords
  import opened TurnProtocol
  import opened TurnTheorems
  import opened Coordinators

  /** What the router, the agents and the store's second access answer during one run. */
  datatype Script = Script(
    begin: Faults,
    intent: string,
    agent: Option<string>,
    deltas: seq<string>,
    answer: Answer,
    readOk: bool,
    saveOk: bool)

  datatype StreamReturn = Returned(result: AgentResult) | FellBack(reason: string) | Errored

  class EventSink {
    var events: seq<Stamped>
    const refuses: nat -> bool

    constructor (refuses: nat -> bool)
      ensures events == [] && this.refuses == refuses
    {
      events := [];
      this.refuses := refuses;
    }

    method Accept(e: Stamped) returns (ok: bool)
      modifies this
      ensures events == old(events) + [e] && ok == !refuses(e.sequence)
    {
      events := events + [e];
      ok := !refuses(e.sequence);
    }
  }

  class StreamEmitter {
    const sink: EventSink
    var sequence: nat

    constructor (sink: EventSink)
      ensures this.sink == sink && sequence == 0
    {
      this.sink, sequence := sink, 0;
    }

    method EmitEvent(e: StreamEvent) returns (ok: bool)
      modifies this, sink
      ensures sequence == old(sequence) + 1
      ensures sink.events == old(sink.events) + [Stamped(sequence, e)]
      ensures ok == !sink.refuses(sequence)
    {
      sequence := sequence + 1;
      ok := sink.Accept(Stamped(sequence, e));
    }
  }

  // ----- The protocol steps behind one call of the coordinator

  lemma RunSnoc(w: World, actions: seq<Action>, a: Action)
    ensures Run(w, actions + [a]) == Apply(Run(w, actions), a)
  {
    assert (actions + [a])[..|actions|] == actions;
  }

  lemma {:induction false} RunConcat(w: World, first: seq<Action>, second: seq<Action>)
    ensures Run(w, first + second) == Run(Run(w, first), second)
  {
    hide Apply;
    if second == [] {
      assert first + second == first;
    } else {
      var n := |second| - 1;
      RunConcat(w, first, second[..n]);
      assert (first + second)[..|first + second| - 1] == first + second[..n];
    }
  }

  function Put(w: World, id: nat, c: Client): World {
    w.(clients := w.clients[id := c])
  }

  lemma ApplyPut(w: World, id: nat, c: Client, s: Step)
    requires !s.Start?
    ensures Apply(Put(w, id, c), Action(id, s)) ==
            match StepEffect(Lookup(w.store, c.Key()), GateKey(c.Key()) in w.gate, c, s)
            case Stay => Put(w, id, c)
            case Local(c') => Put(w, id, c')
            case TakeGate(c') => Put(w.(gate := w.gate + {GateKey(c'.Key())}), id, c')
            case LeaveGate(c') => Put(w.(gate := w.gate - {GateKey(c'.Key())}), id, c')
            case Save(after, c') => Put(w.(store := w.store[c'.Key() := after]), id, c')
  {
    hide StepEffect, GateKey;
    forall c' ensures Put(w, id, c).clients[id := c'] == Put(w, id, c').clients {}
  }

  /** The client after Begin, seen from the steps. */
  ghost function AfterBegin(w: World, c: Client, f: Faults): Client {
    var plan := PlanBegin(Lookup(w.store, c.Key()), c.req, c.requestId);
    if !f.ctxOk || GateKey(c.Key()) in w.gate then c.(phase := Ended([], 0))
    else if !f.loadOk || !f.windowOk || plan.Reject? || (plan.Write? && !f.saveOk) then
      c.(acquired := true, released := true, phase := Ended([], 0))
    else if plan.Replay? then c.(acquired := true, replayed := true, phase := Tail(Closing(plan.result, true), 0))
    else c.(acquired := true, phase := Running(Routing))
  }

  ghost function StoreAfterBegin(w: World, c: Client, f: Faults): map<ConversationKey, Conversation> {
    var plan := PlanBegin(Lookup(w.store, c.Key()), c.req, c.requestId);
    if f.ctxOk && GateKey(c.Key()) !in w.gate && f.loadOk && plan.Write? && f.saveOk then w.store[c.Key() := plan.conversation]
    else w.store
  }

  ghost predicate Ready(c: Client) {
    c.kind == Streaming && c.phase == Entering && !c.acquired && !c.released && !c.replayed
  }

  /** Taking the gate, loading and deciding, up to the release of a session that was not granted. */
  lemma BeginRefines(w: World, id: nat, c: Client, f: Faults) returns (actions: seq<Action>)
    requires Ready(c)
    ensures var c' := AfterBegin(w, c, f);
            Run(Put(w, id, c), actions) ==
              Put(World(if c'.Holds() then w.gate + {GateKey(c.Key())} else w.gate, StoreAfterBegin(w, c, f), w.clients), id, c')
  {
    hide PlanBegin, GateKey, Apply, Run;
    var key, w0 := GateKey(c.Key()), Put(w, id, c);
    actions := OneStep(w0, w0, [], Action(id, TryAcquire(f.ctxOk))) by { EmptyRun(w0); }
    ApplyPut(w, id, c, TryAcquire(f.ctxOk));
    if f.ctxOk && key !in w.gate {
      var w1, c1 := w.(gate := w.gate + {key}), c.(phase := Acquired, acquired := true);
      actions := OneStep(w0, Put(w1, id, c1), actions, Action(id, Load(f.loadOk)));
      ApplyPut(w1, id, c1, Load(f.loadOk));
      if !f.loadOk {
        actions := Unwind(w0, w1, id, c1.(phase := Releasing([])), actions);
        assert (w.gate + {key}) - {key} == w.gate;
      } else {
        var c2 := c1.(phase := Loaded(Lookup(w.store, c.Key())));
        actions := OneStep(w0, Put(w1, id, c2), actions, Action(id, Decide(f.saveOk, f.windowOk)));
        ApplyPut(w1, id, c2, Decide(f.saveOk, f.windowOk));
        var c3 := Decided(c2, c2.phase.copy, f.saveOk, f.windowOk).client;
        var w3 := w1.(store := StoreAfterBegin(w, c, f));
        assert Run(w0, actions) == Put(w3, id, c3);
        if c3.phase.Releasing? {
          actions := Unwind(w0, w3, id, c3, actions);
          assert (w.gate + {key}) - {key} == w.gate;
        }
      }
    }
  }

  lemma EmptyRun(w: World)
    ensures Run(w, []) == w
  {
  }

  lemma OneStep(w: World, cur: World, before: seq<Action>, a: Action) returns (actions: seq<Action>)
    requires Run(w, before) == cur
    ensures Run(w, actions) == Apply(cur, a)
  {
    hide Apply;
    RunSnoc(w, before, a);
    actions := before + [a];
  }

  /** The deferred release, then the end of a client with nothing to announce. */
  lemma Unwind(start: World, w: World, id: nat, c: Client, before: seq<Action>) returns (actions: seq<Action>)
    requires Run(start, before) == Put(w, id, c) && c.phase == Releasing([]) && c.Holds()
    ensures Run(start, actions) == Put(w.(gate := w.gate - {GateKey(c.Key())}), id, c.(released := true, phase := Ended([], 0)))
  {
    hide GateKey, Apply, Run;
    actions := OneStep(start, Put(w, id, c), before, Action(id, ReleaseGate));
    ApplyPut(w, id, c, ReleaseGate);
    var w1, c1 := w.(gate := w.gate - {GateKey(c.Key())}), c.(released := true, phase := Tail([], 0));
    actions := OneStep(start, Put(w1, id, c1), actions, Action(id, EmitTail(true)));
    ApplyPut(w1, id, c1, EmitTail(true));
  }

  ghost function StoreAfterEnd(w: World, c: Client, readOk: bool, saveOk: bool): map<ConversationKey, Conversation>
    requires c.phase.Ending?
    requires PlanFinish(Lookup(w.store, c.Key()), c.req.turnId, c.req.attemptId, c.phase.outcome).Some?
  {
    var after := PlanFinish(Lookup(w.store, c.Key()), c.req.turnId, c.req.attemptId, c.phase.outcome).value;
    if c.phase.outcome.Completed? || (readOk && saveOk) then w.store[c.Key() := after] else w.store
  }

  lemma SaveStep(start: World, w: World, id: nat, c: Client, before: seq<Action>, saveOk: bool)
    returns (actions: seq<Action>)
    requires c.phase.Finishing? && c.phase.copy == Lookup(w.store, c.Key()) && Run(start, before) == Put(w, id, c)
    requires PlanFinish(c.phase.copy, c.req.turnId, c.req.attemptId, c.phase.outcome).Some?
    ensures var after := PlanFinish(c.phase.copy, c.req.turnId, c.req.attemptId, c.phase.outcome).value;
            Run(start, actions) == Put(if c.phase.outcome.Completed? || saveOk then w.(store := w.store[c.Key() := after]) else w,
                                       id, c.(phase := Releasing(c.phase.tail)))
  {
    hide GateKey, Apply, Run, PlanFinish, Lookup;
    actions := OneStep(start, Put(w, id, c), before, Action(id, SaveAgain(saveOk)));
    ApplyPut(w, id, c, SaveAgain(saveOk));
  }

  lemma ReadStep(start: World, w: World, id: nat, c: Client, before: seq<Action>, readOk: bool)
    returns (actions: seq<Action>)
    requires Run(start, before) == Put(w, id, c) && c.phase.Ending?
    ensures Run(start, actions) ==
            Put(w, id, c.(phase := if readOk || c.phase.outcome.Completed?
                                   then Finishing(c.phase.outcome, Lookup(w.store, c.Key()), c.phase.tail)
                                   else Releasing(c.phase.tail)))
  {
    hide GateKey, Apply, Run, Lookup;
    actions := OneStep(start, Put(w, id, c), before, Action(id, ReadAgain(readOk)));
    ApplyPut(w, id, c, ReadAgain(readOk));
  }

  lemma SaveRefines(start: World, w: World, id: nat, c: Client, before: seq<Action>, readOk: bool, saveOk: bool)
    returns (actions: seq<Action>)
    requires Run(start, before) == Put(w, id, c) && c.phase.Ending?
    requires PlanFinish(Lookup(w.store, c.Key()), c.req.turnId, c.req.attemptId, c.phase.outcome).Some?
    ensures Run(start, actions) == Put(w.(store := StoreAfterEnd(w, c, readOk, saveOk)), id, c.(phase := Releasing(c.phase.tail)))
  {
    hide Put, Run, PlanFinish, Lookup;
    actions := ReadStep(start, w, id, c, before, readOk);
    if readOk || c.phase.outcome.Completed? {
      var c1 := c.(phase := Finishing(c.phase.outcome, Lookup(w.store, c.Key()), c.phase.tail));
      actions := SaveStep(start, w, id, c1, actions, saveOk);
    }
  }

  /** Reading again, saving and releasing: one call of Complete, Fail or Cancel. */
  lemma FinishRefines(start: World, w: World, id: nat, c: Client, before: seq<Action>, readOk: bool, saveOk: bool)
    returns (actions: seq<Action>)
    requires Run(start, before) == Put(w, id, c) && c.phase.Ending? && c.Holds()
    requires PlanFinish(Lookup(w.store, c.Key()), c.req.turnId, c.req.attemptId, c.phase.outcome).Some?
    ensures Run(start, actions) == Put(World(w.gate - {GateKey(c.Key())}, StoreAfterEnd(w, c, readOk, saveOk), w.clients), id,
                                       c.(released := true, phase := Tail(c.phase.tail, 0)))
  {
    hide GateKey, Apply, Run, PlanFinish, StoreAfterEnd;
    actions := SaveRefines(start, w, id, c, before, readOk, saveOk);
    var w2, c2 := w.(store := StoreAfterEnd(w, c, readOk, saveOk)), c.(phase := Releasing(c.phase.tail));
    actions := OneStep(start, Put(w2, id, c2), actions, Action(id, ReleaseGate));
    ApplyPut(w2, id, c2, ReleaseGate);
  }

  /** A step that only moves the client. */
  lemma LocalStep(start: World, w: World, id: nat, c: Client, before: seq<Action>, s: Step, c': Client) returns (actions: seq<Action>)
    requires Run(start, before) == Put(w, id, c) && !s.Start?
    requires StepEffect(Lookup(w.store, c.Key()), GateKey(c.Key()) in w.gate, c, s) == Local(c')
    ensures Run(start, actions) == Put(w, id, c')
  {
    hide StepEffect, Apply, Run, GateKey;
    actions := OneStep(start, Put(w, id, c), before, Action(id, s));
    ApplyPut(w, id, c, s);
  }

  /** Sending the next closing event, or noticing there is none left. */
  lemma TailStep(start: World, w: World, id: nat, c: Client, before: seq<Action>, ok: bool) returns (actions: seq<Action>)
    requires Run(start, before) == Put(w, id, c) && c.phase.Tail?
    ensures Run(start, actions) == Put(w, id, TailSent(c, ok).client)
  {
    hide Apply, Run, GateKey, Lookup;
    actions := LocalStep(start, w, id, c, before, EmitTail(ok), TailSent(c, ok).client);
  }

  ghost function Newcomer(req: TurnRequest, requestId: string): Client {
    Client(Streaming, req, requestId, Entering, false, false, false, 0, [])
  }

  lemma StartStep(w: World, id: nat, req: TurnRequest, requestId: string, ok: bool) returns (actions: seq<Action>)
    requires id !in w.clients && ValidRequest(req)
    ensures Run(w, actions) ==
            Put(w, id, Emit(Newcomer(req, requestId), RequestStarted).(phase := if ok then Entering else Ended([], 0)))
  {
    hide ValidRequest;
    EmptyRun(w);
    actions := OneStep(w, w, [], Action(id, Start(Streaming, req, requestId, ok)));
  }

  /** A live attempt can always be ended. */
  lemma EndingFindsItsTurn(start: World, actions: seq<Action>, w: World, id: nat, c: Client)
    requires Inv(start) && Run(start, actions) == Put(w, id, c) && c.phase.Ending?
    ensures PlanFinish(Lookup(w.store, c.Key()), c.req.turnId, c.req.attemptId, c.phase.outcome).Some?
  {
    hide ClientOk, WellFormed, Owned, Run, PlanFinish;
    RunKeeps(start, actions);
    assert Put(w, id, c).clients[id] == c;
    EndingIsLive(w.store, c);
    FinishKeeps(w.store[c.Key()], c.req.turnId, c.req.attemptId, c.phase.outcome);
  }

  lemma EndingIsLive(store: map<ConversationKey, Conversation>, c: Client)
    requires ClientOk(store, c) && c.phase.Ending?
    ensures c.Key() in store && Live(store[c.Key()], c.req.turnId, c.req.attemptId)
  {
    hide Numbered, Sent, Live;
  }

  // ----- A streamed replay does happen

  const NoFaults := Faults(true, true, true, true)

  /** The turn that `first` opened in an empty conversation is completed; asked for again, it is replayed. */
  lemma CompletedThenReplays(first: TurnRequest, again: TurnRequest, result: AgentResult, requestId: string, id: string)
    requires again == first.(attemptId := again.attemptId) && again.attemptId != first.attemptId
    ensures PlanBegin(NoConversation, first, requestId).Write?
    ensures var done := PlanFinish(PlanBegin(NoConversation, first, requestId).conversation, first.turnId, first.attemptId, Completed(result));
            done.Some? && PlanBegin(done.value, again, id) == Replay(result)
  {
    var c := PlanBegin(NoConversation, first, requestId).conversation;
    assert c.messages == [first.message] && TurnIndex(c.turns, first.turnId) == 0;
    var done := PlanFinish(c, first.turnId, first.attemptId, Completed(result)).value;
    assert done.messages[0] == first.message && MessageIndex(done.messages, first.message.id) == 0;
    assert |done.turns[0].attempts| == 1 && done.turns[0].attempts[0].id == first.attemptId;
    assert AttemptIndex(done.turns[0].attempts, again.attemptId) < 0;
  }

  /** A first client's streaming run up to its session. */
  lemma FirstEnters(id: nat, first: TurnRequest, requestId: string) returns (actions: seq<Action>, c: Client)
    requires ValidRequest(first) && PlanBegin(NoConversation, first, requestId).Write?
    ensures var begun := PlanBegin(NoConversation, first, requestId).conversation;
            Run(Start0, actions) == Put(World({GateKey(first.key)}, map[first.key := begun], map[]), id, c)
    ensures c.kind == Streaming && c.req == first && c.requestId == requestId && c.phase == Running(Routing) && c.Holds()
  {
    hide GateKey, Run, PlanBegin, ValidRequest;
    var first' := StartStep(Start0, id, first, requestId, true);
    c := Emit(Newcomer(first, requestId), RequestStarted).(phase := Entering);
    var more := BeginRefines(Start0, id, c, NoFaults);
    RunConcat(Start0, first', more);
    actions, c := first' + more, AfterBegin(Start0, c, NoFaults);
    assert {} + {GateKey(first.key)} == {GateKey(first.key)};
  }

  /** The run goes on to the answer, which is saved. */
  lemma FirstAnswers(w: World, id: nat, c0: Client, before: seq<Action>, result: AgentResult) returns (actions: seq<Action>, c: Client)
    requires Inv(Start0) && Run(Start0, before) == Put(w, id, c0)
    requires c0.kind == Streaming && c0.phase == Running(Routing) && c0.Holds() && !Blank(result.message.id)
    requires PlanFinish(Lookup(w.store, c0.Key()), c0.req.turnId, c0.req.attemptId, Completed(result)).Some?
    ensures var done := PlanFinish(Lookup(w.store, c0.Key()), c0.req.turnId, c0.req.attemptId, Completed(result)).value;
            Run(Start0, actions) == Put(World(w.gate - {GateKey(c0.Key())}, w.store[c0.Key() := done], w.clients), id, c)
  {
    hide GateKey, Run, Put, PlanFinish, Lookup, Inv, Blank;
    var c1 := Emit(c0, RouteSelected("")).(phase := Running(Selecting));
    actions := LocalStep(Start0, w, id, c0, before, EmitRoute("", true), c1);
    var c2 := Emit(c1, AgentSelected("")).(phase := Running(Answering));
    actions := LocalStep(Start0, w, id, c1, actions, SelectAgent(true, "", true), c2);
    var c3 := c2.(phase := AnswerPhase(c2, Answered(result)));
    actions := LocalStep(Start0, w, id, c2, actions, GiveAnswer(Answered(result)), c3);
    actions := FinishRefines(Start0, w, id, c3, actions, true, true);
    c := c3.(released := true, phase := Tail(c3.phase.tail, 0));
  }

  /** Another client asks for the completed turn. */
  lemma SecondReplays(w: World, id: nat, again: TurnRequest, requestId: string, result: AgentResult) returns (actions: seq<Action>)
    requires ValidRequest(again) && id !in w.clients && GateKey(again.key) !in w.gate
    requires PlanBegin(Lookup(w.store, again.key), again, requestId) == Replay(result)
    ensures LockedBy(Run(w, actions), id, again)
  {
    hide GateKey, Run, PlanBegin, ValidRequest, Lookup;
    var begin := StartStep(w, id, again, requestId, true);
    var c := Emit(Newcomer(again, requestId), RequestStarted).(phase := Entering);
    var more := BeginRefines(w, id, c, NoFaults);
    RunConcat(w, begin, more);
    actions := begin + more;
  }

  lemma StartKept()
    ensures Inv(Start0)
  {
  }

  /** Such worlds are reached: one client streams any turn to its answer, a second one asks for the same
      turn with a new attempt id, and holds the key for ever after. */
  lemma ReplayHappens(first: TurnRequest, again: TurnRequest, result: AgentResult, ids: seq<string>) returns (w: World)
    requires |ids| == 2 && ValidRequest(first) && ValidRequest(again) && !Blank(result.message.id)
    requires again == first.(attemptId := again.attemptId) && again.attemptId != first.attemptId
    ensures Reachable(w) && LockedBy(w, 2, again)
  {
    hide GateKey, Run, Put, PlanBegin, PlanFinish, ValidRequest, Inv, LockedBy, Blank;
    StartKept();
    CompletedThenReplays(first, again, result, ids[0], ids[1]);
    var begun := PlanBegin(NoConversation, first, ids[0]).conversation;
    var actions, c := FirstEnters(1, first, ids[0]);
    var w1 := World({GateKey(first.key)}, map[first.key := begun], map[]);
    actions, c := FirstAnswers(w1, 1, c, actions, result);
    var done := PlanFinish(begun, first.turnId, first.attemptId, Completed(result)).value;
    var w2 := World(w1.gate - {GateKey(first.key)}, w1.store[first.key := done], map[]);
    assert Lookup(w2.store, first.key) == done;
    PutOne(w2, 1, c);
    var more := SecondReplays(Put(w2, 1, c), 2, again, ids[1], result);
    RunConcat(Start0, actions, more);
    w := Run(Start0, actions + more);
  }

  lemma PutOne(w: World, id: nat, c: Client)
    ensures Put(w, id, c).store == w.store && Put(w, id, c).gate == w.gate && Put(w, id, c).clients.Keys == w.clients.Keys + {id}
  {
  }

  // ----- The events of a run

  /** The events without their numbers. */
  function EventsOf(events: seq<Stamped>): (r: seq<StreamEvent>)
    ensures |r| == |events| && forall i :: 0 <= i < |r| ==> r[i] == events[i].event
  {
    seq(|events|, i requires 0 <= i < |events| => events[i].event)
  }

  function DeltaEvents(texts: seq<string>): (r: seq<StreamEvent>)
    ensures |r| == |texts| && forall i :: 0 <= i < |r| ==> r[i] == AssistantDelta(texts[i])
  {
    seq(|texts|, i requires 0 <= i < |texts| => AssistantDelta(texts[i]))
  }

  lemma EventsEmit(c: Client, e: StreamEvent)
    ensures EventsOf(Emit(c, e).events) == EventsOf(c.events) + [e]
    ensures EventsOf([]) == []
  {
  }

  lemma DeltaSnoc(texts: seq<string>, i: nat)
    requires i < |texts|
    ensures DeltaEvents(texts[..i + 1]) == DeltaEvents(texts[..i]) + [AssistantDelta(texts[i])]
  {
  }

  lemma NoDeltas()
    ensures DeltaEvents([]) == []
  {
  }

  /** The texts of the assistant_delta events, in order. */
  function DeltasOf(events: seq<StreamEvent>): seq<string> {
    if events == [] then []
    else
      var e := events[|events| - 1];
      DeltasOf(events[..|events| - 1]) + if e.AssistantDelta? then [e.text] else []
  }

  /** The events of a run that has been answered. */
  function AnsweredTrace(script: Script, content: string): seq<StreamEvent>
    requires script.agent.Some?
  {
    [RequestStarted, RouteSelected(script.intent), AgentSelected(script.agent.value)]
    + DeltaEvents(script.deltas) + [MessageCompleted(content, false), Done(DoneCompleted, false)]
  }

  /** The events of a run in which there was no agent, or the agent was canceled or failed. */
  function UnansweredTrace(script: Script): seq<StreamEvent> {
    if script.agent.None? then
      [RequestStarted, RouteSelected(script.intent), ErrorRaised("agent_not_found"), Done(DoneFailed, false)]
    else
      [RequestStarted, RouteSelected(script.intent), AgentSelected(script.agent.value)] + DeltaEvents(script.deltas)
      + if script.answer.AnswerCanceled? then [RunCanceled, Done(DoneCanceled, false)]
        else [ErrorRaised("agent_failed"), Done(DoneFailed, false)]
  }

  /** The trace of an answered run, event by event as it is sent. */
  lemma AnsweredStepwise(script: Script, content: string)
    requires script.agent.Some?
    ensures [RequestStarted] + [RouteSelected(script.intent)] + [AgentSelected(script.agent.value)] + DeltaEvents(script.deltas)
            + [MessageCompleted(content, false), Done(DoneCompleted, false)] == AnsweredTrace(script, content)
  {
    hide DeltaEvents;
    assert [RequestStarted] + [RouteSelected(script.intent)] + [AgentSelected(script.agent.value)]
           == [RequestStarted, RouteSelected(script.intent), AgentSelected(script.agent.value)];
  }

  lemma UnansweredStepwise(script: Script)
    ensures var sent := [RequestStarted] + [RouteSelected(script.intent)];
            UnansweredTrace(script) ==
              if script.agent.None? then sent + [ErrorRaised("agent_not_found"), Done(DoneFailed, false)]
              else
                sent + [AgentSelected(script.agent.value)] + DeltaEvents(script.deltas)
                + if script.answer.AnswerCanceled? then [RunCanceled, Done(DoneCanceled, false)]
                  else [ErrorRaised("agent_failed"), Done(DoneFailed, false)]
  {
    hide DeltaEvents;
    var sent := [RequestStarted] + [RouteSelected(script.intent)];
    if script.agent.Some? {
      assert sent + [AgentSelected(script.agent.value)]
             == [RequestStarted, RouteSelected(script.intent), AgentSelected(script.agent.value)];
    }
  }

  /** How such a run ends its turn. */
  function UnansweredEnd(script: Script): Outcome {
    if script.agent.None? then Failed("agent_not_found")
    else if script.answer.AnswerCanceled? then Canceled
    else Failed("agent_failed")
  }

  ghost predicate EndStored(store: map<ConversationKey, Conversation>, req: TurnRequest, o: Outcome) {
    req.key in store && TurnEnded(store[req.key], req.turnId, req.attemptId, o)
  }

  class Orchestrator {
    const coordinator: Coordinator

    constructor (coordinator: Coordinator)
      ensures this.coordinator == coordinator
    {
      this.coordinator := coordinator;
    }

    /** The shared part of the world, as the objects hold it now. */
    ghost function Shared(clients: map<nat, Client>): World
      reads coordinator.gate, coordinator.store
    {
      World(coordinator.gate.active, coordinator.store.conversations, clients)
    }

    ghost predicate AcceptsAll(sink: EventSink) {
      forall n :: !sink.refuses(n)
    }

    ghost predicate Mirrors(emitter: StreamEmitter, base: seq<Stamped>, c: Client)
      reads emitter, emitter.sink
    {
      emitter.sequence == c.sequence && emitter.sink.events == base + c.events
    }

    /** One closing event. */
    method SendNext(emitter: StreamEmitter, ghost start: World, ghost w: World, ghost id: nat, ghost c: Client,
                    ghost before: seq<Action>, ghost base: seq<Stamped>, e: StreamEvent)
      returns (ok: bool, ghost actions: seq<Action>, ghost c': Client)
      requires Mirrors(emitter, base, c) && c.phase.Tail? && c.phase.sent < |c.phase.plan| && e == c.phase.plan[c.phase.sent]
      requires Run(start, before) == Put(w, id, c)
      modifies emitter, emitter.sink
      ensures Run(start, actions) == Put(w, id, c') && Mirrors(emitter, base, c')
      ensures var plan, k := c.phase.plan, c.phase.sent + 1;
              c' == Emit(c, e).(phase := if ok then Tail(plan, k) else Ended(plan, k))
      ensures AcceptsAll(emitter.sink) ==> ok
      ensures EventsOf(c'.events) == EventsOf(c.events) + [e]
    {
      hide Put, Run, EventsOf;
      ok := emitter.EmitEvent(e);
      c' := TailSent(c, ok).client;
      actions := TailStep(start, w, id, c, before, ok);
      EventsEmit(c, e);
    }

    /** The two closing events of a run, the second only if the sink took the first. */
    method Close(emitter: StreamEmitter, first: StreamEvent, second: StreamEvent,
                 ghost start: World, ghost w: World, ghost id: nat, ghost c: Client, ghost before: seq<Action>,
                 ghost base: seq<Stamped>)
      returns (ok: bool, ghost actions: seq<Action>, ghost c': Client)
      requires Mirrors(emitter, base, c) && c.phase == Tail([first, second], 0)
      requires Run(start, before) == Put(w, id, c)
      modifies emitter, emitter.sink
      ensures Run(start, actions) == Put(w, id, c') && Mirrors(emitter, base, c')
      ensures ok ==> EventsOf(c'.events) == EventsOf(c.events) + [first, second]
      ensures c'.phase == Ended([first, second], if |c'.events| == |c.events| + 2 then 2 else 1)
      ensures c' == c.(sequence := c'.sequence, events := c'.events, phase := c'.phase)
      ensures AcceptsAll(emitter.sink) ==> ok
      ensures ok ==> c'.events == c.events + [Stamped(c.sequence + 1, first), Stamped(c.sequence + 2, second)]
    {
      hide Put, Run, Mirrors, EventsOf;
      ok, actions, c' := SendNext(emitter, start, w, id, c, before, base, first);
      if !ok { return; }
      ghost var c1 := c';
      ok, actions, c' := SendNext(emitter, start, w, id, c1, actions, base, second);
      if ok {
        ghost var c2 := c';
        c' := c2.(phase := Ended(c2.phase.plan, 2));
        actions := TailStep(start, w, id, c2, actions, true);
        SameMirror(emitter, base, c2, c');
      }
    }

    /** What a sink has seen does not depend on the phase. */
    lemma SameMirror(emitter: StreamEmitter, base: seq<Stamped>, c: Client, c': Client)
      requires Mirrors(emitter, base, c) && c'.sequence == c.sequence && c'.events == c.events
      ensures Mirrors(emitter, base, c')
    {
    }

    /** Complete, Fail or Cancel a running session, whatever comes after. */
    method End(session: TurnSession, outcome: Outcome, readOk: bool, saveOk: bool,
               ghost start: World, ghost clients: map<nat, Client>, ghost id: nat, ghost c: Client, ghost before: seq<Action>)
      returns (ok: bool, ghost actions: seq<Action>, ghost c': Client)
      requires session.release.gate == coordinator.gate && !session.releaseDone && session.release.key == GateKey(c.Key())
      requires session.key == c.Key() && session.turnId == c.req.turnId && session.attemptId == c.req.attemptId
      requires Inv(start) && Run(start, before) == Put(Shared(clients), id, c)
      requires c.phase.Ending? && c.phase.outcome == outcome && c.Holds()
      modifies coordinator.gate, coordinator.store, session`releaseDone
      ensures outcome.Completed? ==> ok
      ensures c' == c.(released := true, phase := Tail(c.phase.tail, 0))
      ensures Run(start, actions) == Put(Shared(clients), id, c')
      ensures coordinator.gate.active == old(coordinator.gate.active) - {GateKey(c.Key())}
      ensures outcome.Completed? || (readOk && saveOk) ==> EndStored(coordinator.store.conversations, c.req, outcome)
    {
      ghost var w := Shared(clients);
      ghost var stored := Lookup(coordinator.store.conversations, session.key);
      EndingFindsItsTurn(start, before, w, id, c);
      actions := FinishRefines(start, w, id, c, before, readOk, saveOk);
      c' := c.(released := true, phase := Tail(c.phase.tail, 0));
      if outcome.Completed? {
        ok := coordinator.Complete(session, outcome.result);
      } else {
        ok := coordinator.FinishWithoutAssistant(session, outcome, readOk, saveOk);
      }
      if ok { EndedTurnIsSeen(stored, coordinator.store.conversations[session.key], session.turnId, session.attemptId, outcome); }
    }

    /** The streamed deltas of one agent. */
    method Deltas(emitter: StreamEmitter, deltas: seq<string>, ghost start: World, ghost w: World, ghost id: nat, ghost c: Client,
                  ghost before: seq<Action>, ghost base: seq<Stamped>)
      returns (ghost actions: seq<Action>, ghost c': Client)
      requires Mirrors(emitter, base, c) && c.phase == Running(Answering) && c.kind == Streaming
      requires Run(start, before) == Put(w, id, c)
      modifies emitter, emitter.sink
      ensures Run(start, actions) == Put(w, id, c') && Mirrors(emitter, base, c')
      ensures c' == c.(sequence := c'.sequence, events := c'.events)
      ensures EventsOf(c'.events) == EventsOf(c.events) + DeltaEvents(deltas)
    {
      hide Put, Run, EventsOf, DeltaEvents;
      actions, c' := before, c;
      NoDeltas();
      assert deltas[..0] == [] && EventsOf(c.events) + [] == EventsOf(c.events);
      for i := 0 to |deltas|
        invariant Run(start, actions) == Put(w, id, c') && Mirrors(emitter, base, c')
        invariant c' == c.(sequence := c'.sequence, events := c'.events)
        invariant EventsOf(c'.events) == EventsOf(c.events) + DeltaEvents(deltas[..i])
      {
        ghost var c1 := c';
        EventsEmit(c1, AssistantDelta(deltas[i]));
        DeltaSnoc(deltas, i);
        var _ := emitter.EmitEvent(AssistantDelta(deltas[i]));
        c' := Emit(c1, AssistantDelta(deltas[i]));
        actions := LocalStep(start, w, id, c1, actions, EmitDelta(deltas[i]), c');
      }
      assert deltas[..|deltas|] == deltas;
    }

    /** Calling Begin, seen as steps of the client. */
    method Enter(req: TurnRequest, requestId: string, f: Faults,
                 ghost start: World, ghost id: nat, ghost c: Client, ghost before: seq<Action>)
      returns (session: TurnSession?, ghost actions: seq<Action>, ghost c': Client)
      requires ValidRequest(req) && Ready(c) && c.req == req && c.requestId == requestId
      requires start == Shared(start.clients) && Run(start, before) == Put(start, id, c)
      modifies coordinator.gate, coordinator.store
      ensures session != null <==> old(coordinator.Grants(req, requestId, f))
      ensures session != null ==>
                && fresh(session) && session.release.gate == coordinator.gate && session.release.key == GateKey(req.key)
                && session.key == req.key && session.turnId == req.turnId && session.attemptId == req.attemptId
                && session.requestId == requestId && !session.releaseDone
                && (if old(coordinator.Plan(req, requestId)).Replay?
                    then session.replay == Some(old(coordinator.Plan(req, requestId)).result) else session.replay == None)
      ensures coordinator.gate.active == old(coordinator.gate.active) + if session != null then {GateKey(req.key)} else {}
      ensures Run(start, actions) == Put(Shared(start.clients), id, c')
      ensures c' == c.(phase := c'.phase, acquired := c'.acquired, released := c'.released, replayed := c'.replayed)
      ensures c'.replayed <==> session != null && session.replay.Some?
      ensures session != null ==> c'.Holds()
      ensures c'.phase == if session == null then Ended([], 0)
                          else if session.replay.Some? then Tail(Closing(session.replay.value, true), 0) else Running(Routing)
    {
      hide GateKey, Run, PlanBegin, ValidRequest;
      session := coordinator.Begin(req, requestId, f);
      ghost var more := BeginRefines(start, id, c, f);
      RunConcat(start, before, more);
      actions, c' := before + more, AfterBegin(start, c, f);
    }

    /** One streaming run. It is a run of the protocol by one client, in whatever world it is started:
        the gate, the store and the sink end exactly as that client's steps leave them. */
    method Stream(req: TurnRequest, requestId: string, script: Script, sink: EventSink, ghost start: World, ghost id: nat)
      returns (outcome: StreamReturn, ghost actions: seq<Action>, ghost c: Client)
      requires Inv(start) && id !in start.clients && start == Shared(start.clients)
      modifies coordinator.gate, coordinator.store, sink
      ensures !ValidRequest(req) ==> outcome == Errored && Shared(start.clients) == start && sink.events == old(sink.events)
      ensures ValidRequest(req) ==>
                && Run(start, actions) == Put(Shared(start.clients), id, c)
                && c.kind == Streaming && c.req == req && c.requestId == requestId && c.phase.Ended?
                && sink.events == old(sink.events) + c.events
      ensures outcome.Returned? ==> c.phase == Ended(Closing(outcome.result, c.replayed), 2)
      // an answer carries an id, is what its turn holds, and comes after exactly the agent's deltas
      ensures outcome.Returned? && !c.replayed ==>
                && script.agent.Some? && script.answer.Answered?
                && Identified(script.answer.result, req.turnId, requestId, outcome.result)
                && EndStored(coordinator.store.conversations, req, Completed(outcome.result))
                && EventsOf(c.events) == AnsweredTrace(script, outcome.result.message.content)
      ensures outcome.Returned? && c.replayed ==>
                EventsOf(c.events) == [RequestStarted, MessageCompleted(outcome.result.message.content, true), Done(DoneCompleted, true)]
      ensures ValidRequest(req) ==>
                (c.replayed <==> !sink.refuses(1) && old(coordinator.Grants(req, requestId, script.begin))
                                 && old(coordinator.Plan(req, requestId)).Replay?)
      ensures coordinator.gate.active ==
              old(coordinator.gate.active) + if ValidRequest(req) && c.replayed then {GateKey(req.key)} else {}
      ensures old(coordinator.Grants(req, requestId, script.begin)) && AcceptsAll(sink) ==>
                if old(coordinator.Plan(req, requestId)).Replay? then
                  c.replayed && outcome == Returned(old(coordinator.Plan(req, requestId)).result)
                else if script.agent.Some? && script.answer.Answered? then !c.replayed && outcome.Returned?
                else
                  && outcome == (if script.agent.None? then FellBack("agent_not_found") else Errored)
                  && EventsOf(c.events) == UnansweredTrace(script)
                  && (script.readOk && script.saveOk ==> EndStored(coordinator.store.conversations, req, UnansweredEnd(script)))
      // a sink that refuses the route or the agent fails the turn
      ensures old(coordinator.Grants(req, requestId, script.begin)) && !old(coordinator.Plan(req, requestId)).Replay?
              && !sink.refuses(1) && (sink.refuses(2) || (script.agent.Some? && sink.refuses(3))) ==>
                && !outcome.Returned?
                && (script.readOk && script.saveOk ==> EndStored(coordinator.store.conversations, req, Failed("sink_failed")))
    {
      hide GateKey, Run, Put, PlanBegin, Inv, EnsureIdentity, ValidRequest, EventsOf, DeltaEvents, EndStored,
        Identified;
      EventsEmit(Newcomer(req, requestId), RequestStarted);
      actions := [];
      c := Newcomer(req, requestId);
      if !ValidRequest(req) { return Errored, actions, c; }
      ghost var base := sink.events;
      var emitter := new StreamEmitter(sink);
      var ok := emitter.EmitEvent(RequestStarted);
      actions := StartStep(start, id, req, requestId, ok);
      c := Emit(c, RequestStarted).(phase := if ok then Entering else Ended([], 0));
      if !ok { return Errored, actions, c; }

      var session: TurnSession?;
      session, actions, c := Enter(req, requestId, script.begin, start, id, c, actions);
      if session == null { return Errored, actions, c; }
      if session.replay.Some? {
        var result := session.replay.value;
        ok, actions, c := Close(emitter, MessageCompleted(result.message.content, true), Done(DoneCompleted, true),
                                start, Shared(start.clients), id, c, actions, base);
        return if ok then Returned(result) else Errored, actions, c;
      }
      outcome, actions, c := Answer(emitter, session, script, start, id, c, actions, base);
    }

    /** Announcing the route. */
    method Route(emitter: StreamEmitter, intent: string, ghost start: World, ghost w: World, ghost id: nat, ghost c: Client,
                 ghost before: seq<Action>, ghost base: seq<Stamped>)
      returns (ok: bool, ghost actions: seq<Action>, ghost c': Client)
      requires Mirrors(emitter, base, c) && c.phase == Running(Routing) && c.kind == Streaming
      requires Run(start, before) == Put(w, id, c)
      modifies emitter, emitter.sink
      ensures Run(start, actions) == Put(w, id, c') && Mirrors(emitter, base, c')
      ensures EventsOf(c'.events) == EventsOf(c.events) + [RouteSelected(intent)]
      ensures c'.phase == if ok then Running(Selecting) else Ending(Failed("sink_failed"), [])
      ensures ok <==> !emitter.sink.refuses(old(emitter.sequence) + 1)
      ensures emitter.sequence == old(emitter.sequence) + 1
      ensures c' == c.(sequence := c'.sequence, events := c'.events, phase := c'.phase)
      ensures AcceptsAll(emitter.sink) ==> ok
    {
      hide Put, Run, EventsOf;
      EventsEmit(c, RouteSelected(intent));
      ok := emitter.EmitEvent(RouteSelected(intent));
      c' := Emit(c, RouteSelected(intent)).(phase := if ok then Running(Selecting) else Ending(Failed("sink_failed"), []));
      actions := LocalStep(start, w, id, c, before, EmitRoute(intent, ok), c');
    }

    /** Announcing the agent that was found. */
    method Announce(emitter: StreamEmitter, agent: string, ghost start: World, ghost w: World, ghost id: nat, ghost c: Client,
                    ghost before: seq<Action>, ghost base: seq<Stamped>)
      returns (ok: bool, ghost actions: seq<Action>, ghost c': Client)
      requires Mirrors(emitter, base, c) && c.phase == Running(Selecting) && c.kind == Streaming
      requires Run(start, before) == Put(w, id, c)
      modifies emitter, emitter.sink
      ensures Run(start, actions) == Put(w, id, c') && Mirrors(emitter, base, c')
      ensures EventsOf(c'.events) == EventsOf(c.events) + [AgentSelected(agent)]
      ensures c'.phase == if ok then Running(Answering) else Ending(Failed("sink_failed"), [])
      ensures ok <==> !emitter.sink.refuses(old(emitter.sequence) + 1)
      ensures emitter.sequence == old(emitter.sequence) + 1
      ensures c' == c.(sequence := c'.sequence, events := c'.events, phase := c'.phase)
      ensures AcceptsAll(emitter.sink) ==> ok
    {
      hide Put, Run, EventsOf;
      EventsEmit(c, AgentSelected(agent));
      ok := emitter.EmitEvent(AgentSelected(agent));
      c' := Emit(c, AgentSelected(agent)).(phase := if ok then Running(Answering) else Ending(Failed("sink_failed"), []));
      actions := LocalStep(start, w, id, c, before, SelectAgent(true, agent, ok), c');
    }

    /** The run after Begin: route, agent, answer, end, closing events. */
    method Answer(emitter: StreamEmitter, session: TurnSession, script: Script,
                  ghost start: World, ghost id: nat, ghost c0: Client, ghost before: seq<Action>, ghost base: seq<Stamped>)
      returns (outcome: StreamReturn, ghost actions: seq<Action>, ghost c: Client)
      requires session.release.gate == coordinator.gate && !session.releaseDone && session.release.key == GateKey(c0.Key())
      requires session.key == c0.Key() && session.turnId == c0.req.turnId && session.attemptId == c0.req.attemptId
      requires session.requestId == c0.requestId
      requires Inv(start) && Run(start, before) == Put(Shared(start.clients), id, c0)
      requires c0.phase == Running(Routing) && c0.kind == Streaming && c0.Holds() && !c0.replayed && Mirrors(emitter, base, c0)
      modifies coordinator.gate, coordinator.store, session`releaseDone, emitter, emitter.sink
      ensures Run(start, actions) == Put(Shared(start.clients), id, c) && Mirrors(emitter, base, c)
      ensures c.kind == Streaming && c.req == c0.req && c.requestId == c0.requestId && c.phase.Ended?
      ensures coordinator.gate.active == old(coordinator.gate.active) - {GateKey(c0.Key())}
      ensures outcome.Returned? ==> c.phase == Ended(Closing(outcome.result, c.replayed), 2)
      ensures !c.replayed
      ensures outcome.Returned? ==>
                && script.agent.Some? && script.answer.Answered?
                && Identified(script.answer.result, c0.req.turnId, c0.requestId, outcome.result)
                && EndStored(coordinator.store.conversations, c0.req, Completed(outcome.result))
                && (EventsOf(c0.events) == [RequestStarted] ==>
                      EventsOf(c.events) == AnsweredTrace(script, outcome.result.message.content))
      ensures AcceptsAll(emitter.sink) ==>
                if script.agent.Some? && script.answer.Answered? then outcome.Returned?
                else
                  && outcome == (if script.agent.None? then FellBack("agent_not_found") else Errored)
                  && (EventsOf(c0.events) == [RequestStarted] ==> EventsOf(c.events) == UnansweredTrace(script))
                  && (script.readOk && script.saveOk ==>
                        EndStored(coordinator.store.conversations, c0.req, UnansweredEnd(script)))
      ensures emitter.sink.refuses(old(emitter.sequence) + 1)
              || (script.agent.Some? && emitter.sink.refuses(old(emitter.sequence) + 2)) ==>
                && !outcome.Returned?
                && (script.readOk && script.saveOk ==> EndStored(coordinator.store.conversations, c0.req, Failed("sink_failed")))
    {
      hide Inv, GateKey, Run, Put, EnsureIdentity, EventsOf, DeltaEvents, EndStored, Identified, AnsweredTrace, UnansweredTrace,
        Mirrors;
      UnansweredStepwise(script);
      ghost var w := Shared(start.clients);
      var ok: bool;
      ok, actions, c := Route(emitter, script.intent, start, w, id, c0, before, base);
      if !ok {
        outcome, actions, c := GiveUp(emitter, session, Failed("sink_failed"), script, start, id, c, actions, base);
        return;
      }
      if script.agent == None {
        ghost var c1 := c;
        c := c1.(phase := Ending(Failed("agent_not_found"), Failing("agent_not_found")));
        actions := LocalStep(start, w, id, c1, actions, SelectAgent(false, "", true), c);
        SameMirror(emitter, base, c1, c);
        outcome, actions, c := GiveUp(emitter, session, Failed("agent_not_found"), script, start, id, c, actions, base);
        return;
      }
      ok, actions, c := Announce(emitter, script.agent.value, start, w, id, c, actions, base);
      if !ok {
        outcome, actions, c := GiveUp(emitter, session, Failed("sink_failed"), script, start, id, c, actions, base);
        return;
      }
      actions, c := Deltas(emitter, script.deltas, start, w, id, c, actions, base);
      outcome, actions, c := Conclude(emitter, session, script, start, id, c, actions, base);
      if outcome.Returned? { AnsweredStepwise(script, outcome.result.message.content); }
    }

    /** The agent has answered, failed or was canceled. */
    method Conclude(emitter: StreamEmitter, session: TurnSession, script: Script,
                    ghost start: World, ghost id: nat, ghost c0: Client, ghost before: seq<Action>, ghost base: seq<Stamped>)
      returns (outcome: StreamReturn, ghost actions: seq<Action>, ghost c: Client)
      requires session.release.gate == coordinator.gate && !session.releaseDone && session.release.key == GateKey(c0.Key())
      requires session.key == c0.Key() && session.turnId == c0.req.turnId && session.attemptId == c0.req.attemptId
      requires session.requestId == c0.requestId
      requires Inv(start) && Run(start, before) == Put(Shared(start.clients), id, c0)
      requires c0.phase == Running(Answering) && c0.kind == Streaming && c0.Holds() && !c0.replayed && Mirrors(emitter, base, c0)
      modifies coordinator.gate, coordinator.store, session`releaseDone, emitter, emitter.sink
      ensures Run(start, actions) == Put(Shared(start.clients), id, c) && Mirrors(emitter, base, c)
      ensures c.kind == Streaming && c.req == c0.req && c.requestId == c0.requestId && c.phase.Ended? && !c.replayed
      ensures coordinator.gate.active == old(coordinator.gate.active) - {GateKey(c0.Key())}
      ensures outcome.Returned? ==> c.phase == Ended(Closing(outcome.result, c.replayed), 2)
      ensures outcome.Returned? ==>
                && script.answer.Answered? && Identified(script.answer.result, c0.req.turnId, c0.requestId, outcome.result)
                && EndStored(coordinator.store.conversations, c0.req, Completed(outcome.result))
                && EventsOf(c.events) == EventsOf(c0.events) + Closing(outcome.result, false)
      ensures AcceptsAll(emitter.sink) && script.answer.Answered? ==> outcome.Returned?
      ensures AcceptsAll(emitter.sink) && !script.answer.Answered? ==>
                && outcome == Errored
                && EventsOf(c.events) == EventsOf(c0.events) + (
                     if script.answer.AnswerCanceled? then [RunCanceled, Done(DoneCanceled, false)]
                     else [ErrorRaised("agent_failed"), Done(DoneFailed, false)])
                && (script.readOk && script.saveOk ==>
                      EndStored(coordinator.store.conversations, c0.req,
                                if script.answer.AnswerCanceled? then Canceled else Failed("agent_failed")))
    {
      hide Inv, GateKey, Run, Put, EnsureIdentity, EventsOf, EndStored, Identified;
      c := c0.(phase := AnswerPhase(c0, script.answer));
      actions := LocalStep(start, Shared(start.clients), id, c0, before, GiveAnswer(script.answer), c);
      if script.answer.Answered? {
        var result := EnsureIdentity(script.answer.result, session.turnId, session.requestId);
        EnsureIdentityIdentifies(script.answer.result, session.turnId, session.requestId);
        var ok: bool;
        ok, actions, c := End(session, Completed(result), true, true, start, start.clients, id, c, actions);
        ok, actions, c := Close(emitter, MessageCompleted(result.message.content, false), Done(DoneCompleted, false),
                                start, Shared(start.clients), id, c, actions, base);
        return if ok then Returned(result) else Errored, actions, c;
      }
      var o := if script.answer.AnswerCanceled? then Canceled else Failed("agent_failed");
      outcome, actions, c := GiveUp(emitter, session, o, script, start, id, c, actions, base);
    }

    /** Fail or Cancel, then the closing events the run owes, if any. */
    method GiveUp(emitter: StreamEmitter, session: TurnSession, o: Outcome, script: Script,
                  ghost start: World, ghost id: nat, ghost c0: Client, ghost before: seq<Action>, ghost base: seq<Stamped>)
      returns (outcome: StreamReturn, ghost actions: seq<Action>, ghost c: Client)
      requires session.release.gate == coordinator.gate && !session.releaseDone && session.release.key == GateKey(c0.Key())
      requires session.key == c0.Key() && session.turnId == c0.req.turnId && session.attemptId == c0.req.attemptId
      requires Inv(start) && Run(start, before) == Put(Shared(start.clients), id, c0)
      requires c0.Holds() && Mirrors(emitter, base, c0) && !o.Completed?
      requires c0.phase == Ending(o, if o.Canceled? then [RunCanceled, Done(DoneCanceled, false)]
                                     else if o.code == "sink_failed" then [] else Failing(o.code))
      modifies coordinator.gate, coordinator.store, session`releaseDone, emitter, emitter.sink
      ensures Run(start, actions) == Put(Shared(start.clients), id, c) && Mirrors(emitter, base, c)
      ensures c == c0.(released := true, sequence := c.sequence, events := c.events, phase := c.phase) && c.phase.Ended?
      ensures coordinator.gate.active == old(coordinator.gate.active) - {GateKey(c0.Key())}
      ensures !outcome.Returned?
      ensures script.readOk && script.saveOk ==> EndStored(coordinator.store.conversations, c0.req, o)
      ensures AcceptsAll(emitter.sink) ==>
                && outcome == (if o == Failed("agent_not_found") then FellBack("agent_not_found") else Errored)
                && EventsOf(c.events) == EventsOf(c0.events) + c0.phase.tail
    {
      hide Run, Put, EventsOf, EndStored, Inv, GateKey;
      var ok: bool;
      ok, actions, c := End(session, o, script.readOk, script.saveOk, start, start.clients, id, c0, before);
      if o.Canceled? {
        ok, actions, c := Close(emitter, RunCanceled, Done(DoneCanceled, false),
                                start, Shared(start.clients), id, c, actions, base);
        outcome := Errored;
      } else if o.code == "sink_failed" {
        ghost var c1 := c;
        c := c1.(phase := Ended([], 0));
        actions := LocalStep(start, Shared(start.clients), id, c1, actions, EmitTail(true), c);
        outcome := Errored;
      } else {
        ok, actions, c := Close(emitter, ErrorRaised(o.code), Done(DoneFailed, false),
                                start, Shared(start.clients), id, c, actions, base);
        outcome := if ok && o.code == "agent_not_found" then FellBack(o.code) else Errored;
      }
    }
  }
}
