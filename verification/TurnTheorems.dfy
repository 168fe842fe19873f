/** What holds of every run of the turn protocol: every interleaving of any number of clients. */
module TurnTheorems {
  import opened Text
  import opened TurnRecords
  import opened TurnProtocol

  ghost predicate Reachable(w: World) {
    exists actions :: w == Run(Start0, actions)
  }

  lemma {:induction false} RunKeeps(w: World, actions: seq<Action>)
    requires Inv(w)
    ensures Inv(Run(w, actions))
  {
    if actions != [] {
      RunKeeps(w, actions[..|actions| - 1]);
      ApplyKeeps(Run(w, actions[..|actions| - 1]), actions[|actions| - 1]);
    }
  }

  lemma ReachableInv(w: World)
    requires Reachable(w)
    ensures Inv(w)
  {
    var actions :| w == Run(Start0, actions);
    RunKeeps(Start0, actions);
  }

  lemma ReachableClient(w: World, id: nat)
    requires Reachable(w) && id in w.clients
    ensures ClientOk(w.store, w.clients[id])
  {
    hide ClientOk, Owned, StoreOk;
    ReachableInv(w);
  }

  // ----- Exclusivity

  /** At most one unreleased session a conversation, and the gate is exactly the set of their keys. */
  lemma Exclusivity(w: World)
    requires Reachable(w)
    ensures forall a, b :: a in w.clients && b in w.clients && w.clients[a].Holds() && w.clients[b].Holds() && a != b ==>
                             w.clients[a].Key() != w.clients[b].Key()
    ensures forall key :: key in w.gate <==> exists id :: id in w.clients && w.clients[id].Holds() && GateKey(w.clients[id].Key()) == key
  {
    hide ClientOk, WellFormed;
    ReachableInv(w);
    var owners := Owners(w);
    forall a, b | a in w.clients && b in w.clients && w.clients[a].Holds() && w.clients[b].Holds() && a != b
      ensures w.clients[a].Key() != w.clients[b].Key()
    {
      assert a in owners && b in owners && owners[a] != owners[b];
    }
    forall key ensures key in w.gate <==> exists id :: id in w.clients && w.clients[id].Holds() && GateKey(w.clients[id].Key()) == key {
      if key in w.gate {
        var id :| id in owners && owners[id] == key;
        assert id in w.clients && w.clients[id].Holds() && GateKey(w.clients[id].Key()) == key;
      }
      if id :| id in w.clients && w.clients[id].Holds() && GateKey(w.clients[id].Key()) == key {
        assert id in owners && owners[id] == key;
      }
    }
  }

  lemma GateBusyExactlyWhenHeld(w: World, k: ConversationKey)
    requires Owned(w.gate, Owners(w)) && ValidKey(k)
    requires forall id :: id in w.clients ==> ValidKey(w.clients[id].Key())
    ensures GateKey(k) in w.gate <==> exists other :: other in w.clients && w.clients[other].Holds() && w.clients[other].Key() == k
  {
    hide ValidKey, GateKey;
    var owners := Owners(w);
    if GateKey(k) in w.gate {
      var other :| other in owners && owners[other] == GateKey(k);
      GateKeyInjective(w.clients[other].Key(), k);
    }
    if other :| other in w.clients && w.clients[other].Holds() && w.clients[other].Key() == k {
      assert other in owners;
    }
  }

  /** Begin is refused as busy exactly when a session of the same conversation is unreleased:
      other conversations, tenants and users never get in its way. */
  lemma BusyExactlyWhenHeld(w: World, id: nat)
    requires Reachable(w) && id in w.clients && w.clients[id].phase == Entering
    ensures id in Apply(w, Action(id, TryAcquire(true))).clients
    ensures !Apply(w, Action(id, TryAcquire(true))).clients[id].Holds() <==>
            exists other :: other in w.clients && w.clients[other].Holds() && w.clients[other].Key() == w.clients[id].Key()
  {
    hide ClientOk, WellFormed, GateKey, Owners, ValidKey, Owned;
    ReachableInv(w);
    forall i | i in w.clients ensures ValidKey(w.clients[i].Key()) { ValidClient(w.store, w.clients[i]); }
    ValidClient(w.store, w.clients[id]);
    GateBusyExactlyWhenHeld(w, w.clients[id].Key());
  }

  lemma ValidClient(store: map<ConversationKey, Conversation>, c: Client)
    requires ClientOk(store, c)
    ensures ValidKey(c.Key()) && (c.phase.Entering? ==> !c.acquired && !c.released)
  {
    hide Numbered, Sent, LiveIn;
  }

  /** A running session's turn is stored open, with the session's attempt generating. */
  lemma RunningTurnIsOpen(w: World, id: nat)
    requires Reachable(w) && id in w.clients && w.clients[id].phase.Running?
    ensures w.clients[id].Holds() && LiveIn(w.store, w.clients[id].req)
  {
    hide Reachable, Sent, Numbered, Owned, Live;
    ReachableClient(w, id);
  }

  /** Releasing again does nothing at all, so it can never free a newer holder. */
  lemma ReleaseTwice(w: World, id: nat)
    requires Reachable(w) && id in w.clients && w.clients[id].released
    ensures Apply(w, Action(id, CallRelease)) == w && Apply(w, Action(id, ReleaseGate)) == w
  {
    hide Reachable, Sent, Numbered, Owned, Live;
    ReachableClient(w, id);
  }

  // ----- Conversations over time

  ghost predicate StoreGrew(before: map<ConversationKey, Conversation>, after: map<ConversationKey, Conversation>) {
    forall k :: k in before ==> k in after && Grew(before[k], after[k])
  }

  lemma NothingGrew(c: Conversation)
    ensures Grew(c, c)
  {
  }

  lemma NothingHappened(c: Client)
    ensures SameClient(c, c)
  {
  }

  lemma ApplyGrows(w: World, a: Action)
    requires Inv(w)
    ensures StoreGrew(w.store, Apply(w, a).store)
    ensures forall id :: id in w.clients ==> id in Apply(w, a).clients && SameClient(w.clients[id], Apply(w, a).clients[id])
  {
    hide ClientOk, WellFormed, Owned, StepEffect, Begun, Grew, SameClient;
    forall k | k in w.store ensures Grew(w.store[k], w.store[k]) { NothingGrew(w.store[k]); }
    forall id | id in w.clients ensures SameClient(w.clients[id], w.clients[id]) { NothingHappened(w.clients[id]); }
    if a.client in w.clients && !a.step.Start? {
      var c := w.clients[a.client];
      StepEffectOk(w.store, GateKey(c.Key()) in w.gate, c, a.step);
      StepKeepsKey(c, StepEffect(Lookup(w.store, c.Key()), GateKey(c.Key()) in w.gate, c, a.step), w.store);
    } else if a.step.Start? {
      BegunOk(w.store, a.step);
    }
  }

  lemma StepKeepsKey(c: Client, e: Effect, store: map<ConversationKey, Conversation>)
    requires exists busy :: EffectOk(store, busy, c, e)
    ensures e.Save? ==> e.client.Key() == c.Key()
  {
    hide ClientOk, WellFormed, Grew;
  }

  lemma {:induction false} RunGrows(w: World, actions: seq<Action>)
    requires Inv(w)
    ensures StoreGrew(w.store, Run(w, actions).store)
    ensures forall id :: id in w.clients ==> id in Run(w, actions).clients && SameClient(w.clients[id], Run(w, actions).clients[id])
  {
    hide ClientOk, WellFormed, Owned, Apply, Inv;
    if actions != [] {
      var w1 := Run(w, actions[..|actions| - 1]);
      RunGrows(w, actions[..|actions| - 1]);
      RunKeeps(w, actions[..|actions| - 1]);
      ApplyGrows(w1, actions[|actions| - 1]);
      forall k | k in w.store ensures k in Run(w, actions).store && Grew(w.store[k], Run(w, actions).store[k]) {
        GrewTransitive(w.store[k], w1.store[k], Run(w, actions).store[k]);
      }
    }
  }

  /** Conservation: whatever the retries, failures and replays, every message is accounted for by
      one turn, user messages are never lost, and nothing stored is ever removed or rewritten. */
  lemma ConversationsConserved(w: World, actions: seq<Action>, k: ConversationKey)
    requires Reachable(w) && k in w.store
    ensures k in Run(w, actions).store
    ensures var before, after := w.store[k], Run(w, actions).store[k];
            && before.messages <= after.messages
            && TurnIdsDistinct(after.turns) && UserMessagesPresent(after) && Conserved(after)
            && |after.messages| == |after.turns| + CompletedTurns(after.turns)
            && |before.turns| <= |after.turns|
            && (forall i :: 0 <= i < |before.turns| ==> TurnGrew(before.turns[i], after.turns[i]))
  {
    hide ClientOk, Owned, TurnGrew, TurnWellFormed;
    ReachableInv(w);
    RunGrows(w, actions);
    RunKeeps(w, actions);
  }

  /** Exactly once: no later step of any client changes a completed turn. */
  lemma CompletedTurnIsFrozen(w: World, actions: seq<Action>, k: ConversationKey, i: nat)
    requires Reachable(w) && k in w.store && i < |w.store[k].turns| && w.store[k].turns[i].status == TurnCompleted
    ensures k in Run(w, actions).store && i < |Run(w, actions).store[k].turns|
    ensures Run(w, actions).store[k].turns[i] == w.store[k].turns[i]
  {
    hide ClientOk, Owned, WellFormed;
    ReachableInv(w);
    RunGrows(w, actions);
    assert TurnGrew(w.store[k].turns[i], Run(w, actions).store[k].turns[i]);
  }

  /** A completed turn carries exactly one completed attempt and its result. */
  lemma CompletedTurnHasOneAnswer(w: World, k: ConversationKey, i: nat)
    requires Reachable(w) && k in w.store && i < |w.store[k].turns|
    ensures var t := w.store[k].turns[i];
            && (t.status == TurnCompleted <==> t.result.Some?)
            && (t.status == TurnCompleted <==> exists a :: 0 <= a < |t.attempts| && t.attempts[a].status == AttemptCompleted)
            && (forall a, b :: 0 <= a < b < |t.attempts| ==> t.attempts[a].id != t.attempts[b].id)
            && (forall a, b :: 0 <= a < b < |t.attempts| && t.attempts[a].status == AttemptCompleted ==>
                                 t.attempts[b].status != AttemptCompleted)
  {
    hide ClientOk, Owned, Conserved, UserMessagesPresent, TurnIdsDistinct;
    ReachableInv(w);
    assert WellFormed(w.store[k]);
    assert TurnWellFormed(w.store[k].turns[i]);
  }

  // ----- Replay

  /** The message id of a new turn is free, or was first used for the same content. */
  predicate MessageIdUsable(messages: seq<Message>, m: Message) {
    var i := MessageIndex(messages, m.id);
    i < 0 || messages[i].content == m.content
  }

  /** The turn the request names is completed, and its attempt id has not been used on it. */
  predicate CompletedAndFresh(c: Conversation, r: TurnRequest) {
    var i := TurnIndex(c.turns, r.turnId);
    i >= 0 && c.turns[i].status == TurnCompleted && AttemptIndex(c.turns[i].attempts, r.attemptId) < 0
  }

  lemma OpenedTurnKept(c0: Conversation, r0: TurnRequest, requestId0: string, c: Conversation)
    requires TurnIndex(c0.turns, r0.turnId) < 0
    requires Grew(PlanBegin(c0, r0, requestId0).conversation, c)
    ensures TurnIndex(c.turns, r0.turnId) == |c0.turns|
    ensures c.turns[|c0.turns|].userMessageId == r0.message.id
    ensures c0.messages + [r0.message] <= c.messages
  {
    var c1 := PlanBegin(c0, r0, requestId0).conversation;
    var n := |c0.turns|;
    assert c1.turns[n].id == r0.turnId && c1.turns[n].userMessageId == r0.message.id;
    assert forall j :: 0 <= j < n ==> c1.turns[j] == c0.turns[j];
    assert TurnIndex(c1.turns, r0.turnId) == n;
    TurnIndexStable(c1, c, r0.turnId);
    assert TurnGrew(c1.turns[n], c.turns[n]);
  }

  lemma FirstContent(before: seq<Message>, m: Message, messages: seq<Message>)
    requires before + [m] <= messages
    ensures var i := MessageIndex(messages, m.id);
            i >= 0 && (messages[i].content == m.content <==> MessageIdUsable(before, m))
  {
    FirstIndexKept(before, m, m.id);
    MessageIndexStable(before + [m], messages, m.id);
    var i := MessageIndex(before + [m], m.id);
    assert messages[i] == (before + [m])[i];
  }

  lemma CompletedHasResult(c: Conversation, turnId: string)
    requires WellFormed(c) && TurnIndex(c.turns, turnId) >= 0 && c.turns[TurnIndex(c.turns, turnId)].status == TurnCompleted
    ensures StoredResult(c, turnId).Some?
  {
    hide Conserved, UserMessagesPresent, TurnIdsDistinct;
    assert TurnWellFormed(c.turns[TurnIndex(c.turns, turnId)]);
  }

  /** Once the turn that r0 opened on c0 is completed in c, a request for it with the original
      content and a fresh attempt is answered by the stored result, exactly when the message id
      of r0 was usable at the time; otherwise it is refused for ever. */
  lemma {:induction false} ReplayExactly(c0: Conversation, r0: TurnRequest, requestId0: string,
                                         c: Conversation, r: TurnRequest, requestId: string)
    requires TurnIndex(c0.turns, r0.turnId) < 0
    requires WellFormed(c) && Grew(PlanBegin(c0, r0, requestId0).conversation, c)
    requires r.turnId == r0.turnId && r.message.content == r0.message.content
    requires CompletedAndFresh(c, r)
    ensures if MessageIdUsable(c0.messages, r0.message)
            then StoredResult(c, r.turnId).Some? && PlanBegin(c, r, requestId) == Replay(StoredResult(c, r.turnId).value)
            else PlanBegin(c, r, requestId) == Reject(TurnContentMismatch)
  {
    hide Grew, WellFormed, MessageIdUsable;
    OpenedTurnKept(c0, r0, requestId0, c);
    FirstContent(c0.messages, r0.message, c.messages);
    CompletedHasResult(c, r.turnId);
  }

  /** The condition is needed: two turns sharing one message id, with different contents. */
  lemma SharedMessageIdLosesReplay(key: ConversationKey)
    ensures var first := TurnRequest(key, "turn-1", "a1", Message("m", User, "one"));
            var second := TurnRequest(key, "turn-2", "a1", Message("m", User, "two"));
            var c1 := PlanBegin(NoConversation, first, "r1").conversation;
            var c2 := PlanBegin(c1, second, "r2").conversation;
            var answer := AgentResult("agent", Message("answer", Assistant, "done"));
            var c3 := PlanFinish(c2, "turn-2", "a1", Completed(answer));
            c3.Some? && PlanBegin(c3.value, second.(attemptId := "a2"), "r3") == Reject(TurnContentMismatch)
  {
    var first := TurnRequest(key, "turn-1", "a1", Message("m", User, "one"));
    var second := TurnRequest(key, "turn-2", "a1", Message("m", User, "two"));
    var c1 := PlanBegin(NoConversation, first, "r1").conversation;
    assert c1.turns[0].id == "turn-1" && "turn-1"[5] != "turn-2"[5];
    assert TurnIndex(c1.turns, "turn-2") < 0;
    var c2 := PlanBegin(c1, second, "r2").conversation;
    var answer := AgentResult("agent", Message("answer", Assistant, "done"));
    EmptyWellFormed();
    BeginKeeps(NoConversation, first, "r1");
    BeginKeeps(c1, second, "r2");
    SecondIsRefused(c1, second, AgentResult("agent", Message("answer", Assistant, "done")));
  }

  lemma SecondIsRefused(c1: Conversation, second: TurnRequest, answer: AgentResult)
    requires TurnIndex(c1.turns, second.turnId) < 0 && !MessageIdUsable(c1.messages, second.message)
    requires second.attemptId == "a1"
    requires var c2 := PlanBegin(c1, second, "r2").conversation;
             WellFormed(c2) && Live(c2, second.turnId, "a1")
    ensures var c2 := PlanBegin(c1, second, "r2").conversation;
            var c3 := PlanFinish(c2, second.turnId, "a1", Completed(answer));
            c3.Some? && PlanBegin(c3.value, second.(attemptId := "a2"), "r3") == Reject(TurnContentMismatch)
  {
    hide WellFormed, Grew, MessageIdUsable;
    var c2 := PlanBegin(c1, second, "r2").conversation;
    FinishKeeps(c2, second.turnId, "a1", Completed(answer));
    var c3 := PlanFinish(c2, second.turnId, "a1", Completed(answer)).value;
    var n := |c1.turns|;
    assert c2.turns[n].id == second.turnId;
    assert forall j :: 0 <= j < n ==> c2.turns[j] == c1.turns[j];
    assert TurnIndex(c2.turns, second.turnId) == n;
    assert |c3.turns[n].attempts| == 1 && c3.turns[n].attempts[0].id == "a1";
    assert AttemptIndex(c3.turns[n].attempts, "a2") < 0 by { assert "a1"[1] != "a2"[1]; }
    ReplayExactly(c1, second, "r2", c3, second.(attemptId := "a2"), "r3");
  }

  /** In any run: client a opens a turn, and much later client b, having loaded the conversation
      with that turn completed, asks for it again. It gets the stored answer, and nothing is saved. */
  lemma ReplayInEveryRun(w0: World, a: nat, windowOk: bool, actions: seq<Action>, b: nat, saveOk: bool)
    requires Reachable(w0) && a in w0.clients && w0.clients[a].phase.Loaded?
    requires TurnIndex(w0.clients[a].phase.copy.turns, w0.clients[a].req.turnId) < 0
    requires var w := Run(Apply(w0, Action(a, Decide(true, windowOk))), actions);
             && b in w.clients && w.clients[b].phase.Loaded?
             && w.clients[b].req.key == w0.clients[a].req.key && w.clients[b].req.turnId == w0.clients[a].req.turnId
             && w.clients[b].req.message.content == w0.clients[a].req.message.content
             && CompletedAndFresh(w.clients[b].phase.copy, w.clients[b].req)
    ensures var w := Run(Apply(w0, Action(a, Decide(true, windowOk))), actions);
            var c, result := w.clients[b], StoredResult(w.clients[b].phase.copy, w.clients[b].req.turnId);
            var w' := Apply(w, Action(b, Decide(saveOk, true)));
            && w'.store == w.store && b in w'.clients
            && if MessageIdUsable(w0.clients[a].phase.copy.messages, w0.clients[a].req.message)
               then result.Some? && w'.clients[b].phase ==
                      if c.kind == Direct then Replaying(result.value) else Tail(Closing(result.value, true), 0)
               else w'.clients[b].phase == Releasing([])
  {
    hide ClientOk, WellFormed, Owned, Grew, MessageIdUsable, CompletedAndFresh, StoredResult, PlanBegin;
    var c0, r0, requestId := w0.clients[a].phase.copy, w0.clients[a].req, w0.clients[a].requestId;
    var w1 := Apply(w0, Action(a, Decide(true, windowOk)));
    var w := Run(w1, actions);
    ReachableInv(w0);
    ApplyKeeps(w0, Action(a, Decide(true, windowOk)));
    RunKeeps(w1, actions);
    RunGrows(w1, actions);
    LoadedCopy(w0, a);
    LoadedCopy(w, b);
    NewTurnIsWritten(c0, r0, requestId);
    assert w1.store[r0.key] == PlanBegin(c0, r0, requestId).conversation;
    ReplayExactly(c0, r0, requestId, w.store[r0.key], w.clients[b].req, w.clients[b].requestId);
  }

  /** In any run: client a opened a turn, and later client b, whatever has become of the turn, has loaded the
      conversation and asks for it. It gets a session exactly when its content is that of the turn's first message
      and its attempt id is unused: the stored answer of a completed turn, and otherwise the turn reopened. If it
      gets none, nothing is saved and it only has to release. */
  lemma BeginInEveryRun(w0: World, a: nat, windowOk: bool, actions: seq<Action>, b: nat, saveOk: bool)
    requires Reachable(w0) && a in w0.clients && w0.clients[a].phase.Loaded?
    requires TurnIndex(w0.clients[a].phase.copy.turns, w0.clients[a].req.turnId) < 0
    requires var w := Run(Apply(w0, Action(a, Decide(true, windowOk))), actions);
             && b in w.clients && w.clients[b].phase.Loaded?
             && w.clients[b].req.key == w0.clients[a].req.key && w.clients[b].req.turnId == w0.clients[a].req.turnId
    ensures var first, messages := w0.clients[a].req.message, w0.clients[a].phase.copy.messages;
            var w := Run(Apply(w0, Action(a, Decide(true, windowOk))), actions);
            var w' := Apply(w, Action(b, Decide(saveOk, true)));
            var c := w.clients[b];
            var i := TurnIndex(c.phase.copy.turns, c.req.turnId);
            && i >= 0 && b in w'.clients
            && var t := c.phase.copy.turns[i];
               var same := FirstContentIs(c.phase.copy.messages, t.userMessageId, c.req.message.content);
               var granted := same && !AttemptUsed(t, c.req.attemptId);
               && (MessageIdUsable(messages, first) ==> (same <==> c.req.message.content == first.content))
               && (!granted ==> w'.store == w.store && w'.clients[b].phase == Releasing([]))
               && (granted && t.status == TurnCompleted ==>
                     && w'.store == w.store && t.result.Some?
                     && w'.clients[b].phase == if c.kind == Direct then Replaying(t.result.value) else Tail(Closing(t.result.value, true), 0))
               && (granted && t.status != TurnCompleted && !saveOk ==> w'.store == w.store && w'.clients[b].phase == Releasing([]))
               && (granted && t.status != TurnCompleted && saveOk ==>
                     && w'.clients[b].phase == Running(if c.kind == Direct then Answering else Routing)
                     && c.req.key in w'.store && w'.store == w.store[c.req.key := w'.store[c.req.key]]
                     && w'.store[c.req.key].messages == c.phase.copy.messages
                     && OnlyTurn(c.phase.copy.turns, w'.store[c.req.key].turns, i)
                     && Reopened(t, w'.store[c.req.key].turns[i], c.req.attemptId, c.requestId))
  {
    hide ClientOk, WellFormed, Owned, Grew, MessageIdUsable, PlanBegin, FirstContentIs, AttemptUsed, Reopened, OnlyTurn, Run;
    var c0, r0 := w0.clients[a].phase.copy, w0.clients[a].req;
    var w1 := Apply(w0, Action(a, Decide(true, windowOk)));
    var w := Run(w1, actions);
    TurnStaysOpened(w0, a, windowOk, actions);
    LoadedCopy(w, b);
    var c := w.clients[b];
    OpenedTurnKept(c0, r0, w0.clients[a].requestId, c.phase.copy);
    OpenedContent(c0.messages, r0.message, c.phase.copy.messages, c.req.message.content);
    StoredTurnWellFormed(c.phase.copy, c.req.turnId);
    BeginOnStoredTurn(c.phase.copy, c.req, c.requestId);
  }

  lemma TurnStaysOpened(w0: World, a: nat, windowOk: bool, actions: seq<Action>)
    requires Reachable(w0) && a in w0.clients && w0.clients[a].phase.Loaded?
    requires TurnIndex(w0.clients[a].phase.copy.turns, w0.clients[a].req.turnId) < 0
    ensures var c0, r0, requestId := w0.clients[a].phase.copy, w0.clients[a].req, w0.clients[a].requestId;
            var w := Run(Apply(w0, Action(a, Decide(true, windowOk))), actions);
            && Inv(w) && r0.key in w.store && WellFormed(w.store[r0.key])
            && Grew(PlanBegin(c0, r0, requestId).conversation, w.store[r0.key])
  {
    hide ClientOk, WellFormed, Owned, Grew, PlanBegin;
    var c0, r0, requestId := w0.clients[a].phase.copy, w0.clients[a].req, w0.clients[a].requestId;
    var w1 := Apply(w0, Action(a, Decide(true, windowOk)));
    ReachableInv(w0);
    ApplyKeeps(w0, Action(a, Decide(true, windowOk)));
    RunKeeps(w1, actions);
    RunGrows(w1, actions);
    LoadedCopy(w0, a);
    NewTurnIsWritten(c0, r0, requestId);
    assert w1.store[r0.key] == PlanBegin(c0, r0, requestId).conversation;
  }

  lemma OpenedContent(before: seq<Message>, m: Message, messages: seq<Message>, content: string)
    requires before + [m] <= messages
    ensures MessageIdUsable(before, m) ==> (FirstContentIs(messages, m.id, content) <==> content == m.content)
  {
    FirstContent(before, m, messages);
    var i := MessageIndex(messages, m.id);
    assert messages[i].id == m.id;
  }

  lemma StoredTurnWellFormed(c: Conversation, turnId: string)
    requires WellFormed(c) && TurnIndex(c.turns, turnId) >= 0
    ensures var t := c.turns[TurnIndex(c.turns, turnId)]; t.status == TurnCompleted <==> t.result.Some?
  {
    hide Conserved, UserMessagesPresent, TurnIdsDistinct;
    assert TurnWellFormed(c.turns[TurnIndex(c.turns, turnId)]);
  }

  lemma LoadedCopy(w: World, id: nat)
    requires Inv(w) && id in w.clients && w.clients[id].phase.Loaded?
    ensures w.clients[id].phase.copy == Lookup(w.store, w.clients[id].Key())
  {
    hide WellFormed, Owned, Numbered, Sent;
    assert ClientOk(w.store, w.clients[id]);
  }

  lemma NewTurnIsWritten(c: Conversation, r: TurnRequest, requestId: string)
    requires TurnIndex(c.turns, r.turnId) < 0
    ensures PlanBegin(c, r, requestId).Write?
  {
  }

  // ----- Streaming runs

  /** The shape of a streaming run's events: numbered from 1 without gaps, at most one done and only
      at the end, at most one message_completed, and done{completed} only right after it. */
  ghost predicate EventsInOrder(events: seq<Stamped>) {
    && (forall i :: 0 <= i < |events| ==> events[i].sequence == i + 1)
    && (forall i :: 0 <= i < |events| && events[i].event.Done? ==> i == |events| - 1)
    && (forall i, j :: 0 <= i < j < |events| && events[i].event.MessageCompleted? ==> !events[j].event.MessageCompleted?)
    && (forall i :: 0 <= i < |events| && events[i].event.Done? && events[i].event.status == DoneCompleted ==>
                      i > 0 && events[i - 1].event.MessageCompleted? && events[i - 1].event.replayed == events[i].event.replayed)
  }

  lemma SentInOrder(events: seq<Stamped>, plan: seq<StreamEvent>, sent: nat)
    requires Numbered(events, |events|) && Sent(events, plan, sent) && PlanShape(plan)
    ensures EventsInOrder(events)
    ensures forall i :: 0 <= i < |events| && events[i].event.MessageCompleted? ==>
                          sent > 0 && i == |events| - sent && events[i].event == plan[0] && Announces(plan)
  {
    forall i | 0 <= i < |events| && !Quiet(events[i].event)
      ensures i >= |events| - sent && events[i].event == plan[i - (|events| - sent)]
    {
      var j := i - (|events| - sent);
      assert j >= 0;
      assert events[|events| - sent + j].event == plan[j];
    }
  }

  lemma StreamEventsInOrder(w: World, id: nat)
    requires Reachable(w) && id in w.clients
    ensures EventsInOrder(w.clients[id].events)
  {
    hide Reachable, Owned, Live, EventsInOrder;
    ReachableClient(w, id);
    var c := w.clients[id];
    if c.phase.Tail? || c.phase.Ended? { SentInOrder(c.events, c.phase.plan, c.phase.sent); }
    else { SentInOrder(c.events, [], 0); }
  }

  lemma AcknowledgedIsCommitted(store: map<ConversationKey, Conversation>, c: Client, i: nat)
    requires ClientOk(store, c) && i < |c.events| && c.events[i].event.MessageCompleted?
    ensures CommittedIn(store, c.req, c.events[i].event.content)
  {
    hide Live, Committed, EventsInOrder;
    if c.phase.Tail? || c.phase.Ended? {
      SentInOrder(c.events, c.phase.plan, c.phase.sent);
    } else {
      assert false;
    }
  }

  /** Commit before acknowledge: from the moment message_completed is emitted, and whatever the other
      clients do from then on, the store holds that turn completed with exactly that content. */
  lemma CommittedBeforeAcknowledged(w: World, actions: seq<Action>, id: nat, i: nat)
    requires Reachable(w) && id in w.clients && i < |w.clients[id].events|
    requires w.clients[id].events[i].event.MessageCompleted?
    ensures CommittedIn(w.store, w.clients[id].req, w.clients[id].events[i].event.content)
    ensures CommittedIn(Run(w, actions).store, w.clients[id].req, w.clients[id].events[i].event.content)
  {
    hide ClientOk, Inv, Committed, Grew, SameClient;
    var c := w.clients[id];
    ReachableClient(w, id);
    AcknowledgedIsCommitted(w.store, c, i);
    ReachableInv(w);
    RunGrows(w, actions);
    CommittedGrows(w.store[c.req.key], Run(w, actions).store[c.req.key], c.req.turnId, c.events[i].event.content);
  }

  /** A run of Orchestrator.Stream that took the gate gives it back by its end exactly when it is not a replay. */
  lemma GateFreedUnlessReplay(w: World, id: nat)
    requires Reachable(w) && id in w.clients
    requires w.clients[id].kind == Streaming && w.clients[id].phase.Ended? && w.clients[id].acquired
    ensures w.clients[id].Holds() <==> w.clients[id].replayed
  {
    hide Reachable, Owned, Live, Sent, Numbered;
    ReachableClient(w, id);
  }

  ghost predicate LockedBy(w: World, id: nat, req: TurnRequest) {
    id in w.clients && w.clients[id].req == req && w.clients[id].kind == Streaming && w.clients[id].replayed && w.clients[id].Holds()
  }

  lemma StaysLocked(w: World, a: Action, id: nat, req: TurnRequest)
    requires Inv(w) && LockedBy(w, id, req)
    ensures LockedBy(Apply(w, a), id, req)
  {
    hide WellFormed, Owned, Live, Sent, Numbered, Decided, Entered, ReadBack, SavedAgain, Streamed, Handled, Begun;
    assert ClientOk(w.store, w.clients[id]);
    if a.client != id && a.client in w.clients && !a.step.Start? {
      assert Apply(w, a).clients[id] == w.clients[id] by { hide StepEffect; }
    }
  }

  lemma {:induction false} StaysLockedForever(w: World, actions: seq<Action>, id: nat, req: TurnRequest)
    requires Inv(w) && LockedBy(w, id, req)
    ensures LockedBy(Run(w, actions), id, req)
  {
    hide Inv, Apply, LockedBy;
    if actions != [] {
      StaysLockedForever(w, actions[..|actions| - 1], id, req);
      RunKeeps(w, actions[..|actions| - 1]);
      StaysLocked(Run(w, actions[..|actions| - 1]), actions[|actions| - 1], id, req);
    }
  }

  lemma ReplayHolds(store: map<ConversationKey, Conversation>, c: Client)
    requires ClientOk(store, c) && c.kind == Streaming && c.replayed
    ensures c.Holds()
  {
    hide Numbered, Sent, LiveIn;
  }

  /** The price of the replay branch: after one streamed replay the conversation is refused as busy
      to every other client, in every continuation of the run. */
  lemma ReplayLocksConversation(w: World, actions: seq<Action>, id: nat, other: nat)
    requires Reachable(w) && id in w.clients && w.clients[id].kind == Streaming && w.clients[id].replayed
    requires other != id && other in Run(w, actions).clients
    requires Run(w, actions).clients[other].Key() == w.clients[id].Key()
    ensures !Run(w, actions).clients[other].Holds()
    ensures Run(w, actions).clients[other].phase == Entering ==>
              Apply(Run(w, actions), Action(other, TryAcquire(true))).clients[other].phase == Ended([], 0)
  {
    hide ClientOk, StoreOk, Run;
    var w' := Run(w, actions);
    ReachableInv(w);
    ReachableClient(w, id);
    ReplayHolds(w.store, w.clients[id]);
    StaysLockedForever(w, actions, id, w.clients[id].req);
    RunKeeps(w, actions);
    assert id in Owners(w');
    assert w'.clients[other].Holds() ==> other in Owners(w');
  }
}
