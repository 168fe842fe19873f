/** The coordinator as the repository runs it: objects updated in place, proved against the
    decisions of TurnRecords. Failures of the context, the store and the window builder are
    parameters of the call. */
module Coordinators {
  import opened Text
  import opened TurnRecords
  import opened TurnProtocol

  /** Which outside calls of one Begin succeed. */
  datatype Faults = Faults(ctxOk: bool, loadOk: bool, saveOk: bool, windowOk: bool)

  class ActiveConversationGate {
    var active: set<string>

    constructor ()
      ensures active == {}
    {
      active := {};
    }

    method TryAcquire(key: string) returns (release: GateRelease?, ok: bool)
      modifies this
      ensures ok <==> key !in old(active)
      ensures active == old(active) + {key}
      ensures ok ==> release != null && fresh(release) && release.gate == this && release.key == key
    {
      if key in active {
        return null, false;
      }
      active := active + {key};
      release := new GateRelease(this, key);
      ok := true;
    }
  }

  /** The closure TryAcquire hands out. */
  class GateRelease {
    const gate: ActiveConversationGate
    const key: string

    constructor (gate: ActiveConversationGate, key: string)
      ensures this.gate == gate && this.key == key
    {
      this.gate := gate;
      this.key := key;
    }

    method Run()
      modifies gate
      ensures gate.active == old(gate.active) - {key}
    {
      gate.active := gate.active - {key};
    }
  }

  class ConversationStore {
    var conversations: map<ConversationKey, Conversation>

    constructor ()
      ensures conversations == map[]
    {
      conversations := map[];
    }
  }

  class TurnSession {
    const key: ConversationKey
    const turnId: string
    const attemptId: string
    const requestId: string
    const release: GateRelease
    var replay: Option<AgentResult>
    var releaseDone: bool

    constructor (req: TurnRequest, requestId: string, release: GateRelease)
      ensures key == req.key && turnId == req.turnId && attemptId == req.attemptId
      ensures this.requestId == requestId && this.release == release
      ensures replay == None && !releaseDone
    {
      key, turnId, attemptId := req.key, req.turnId, req.attemptId;
      this.requestId, this.release := requestId, release;
      replay, releaseDone := None, false;
    }

    /** Only the first call reaches the gate. */
    method Release()
      modifies this`releaseDone, release.gate
      ensures releaseDone
      ensures release.gate.active == if old(releaseDone) then old(release.gate.active) else old(release.gate.active) - {release.key}
    {
      if !releaseDone {
        releaseDone := true;
        release.Run();
      }
    }
  }

  method FindTurnIndex(turns: seq<Turn>, id: string) returns (index: int)
    ensures index == TurnIndex(turns, id)
  {
    for i := 0 to |turns|
      invariant forall j :: 0 <= j < i ==> turns[j].id != id
    {
      if turns[i].id == id { return i; }
    }
    return -1;
  }

  method FindAttempt(attempts: seq<Attempt>, id: string) returns (index: int)
    ensures index == AttemptIndex(attempts, id)
  {
    for i := 0 to |attempts|
      invariant forall j :: 0 <= j < i ==> attempts[j].id != id
    {
      if attempts[i].id == id { return i; }
    }
    return -1;
  }

  /** ensureTurnContentMatches: the first message with the turn's user message id decides. */
  method EnsureTurnContentMatches(messages: seq<Message>, turn: Turn, content: string) returns (error: Option<BeginError>)
    ensures var m := MessageIndex(messages, turn.userMessageId);
            error == if m < 0 then Some(TurnUserMessageMissing)
                     else if messages[m].content != content then Some(TurnContentMismatch) else None
  {
    for i := 0 to |messages|
      invariant forall j :: 0 <= j < i ==> messages[j].id != turn.userMessageId
    {
      if messages[i].id == turn.userMessageId {
        assert MessageIndex(messages, turn.userMessageId) == i;
        if messages[i].content != content { return Some(TurnContentMismatch); }
        return None;
      }
    }
    return Some(TurnUserMessageMissing);
  }

  /** The switch of Begin over the loaded conversation. */
  method PlanTurn(loaded: Conversation, req: TurnRequest, requestId: string) returns (plan: BeginPlan)
    ensures plan == PlanBegin(loaded, req, requestId)
  {
    var conversation := loaded;
    var index := FindTurnIndex(conversation.turns, req.turnId);
    if index >= 0 {
      var turn := conversation.turns[index];
      var mismatch := EnsureTurnContentMatches(conversation.messages, turn, req.message.content);
      if mismatch.Some? { return Reject(mismatch.value); }
      var used := FindAttempt(turn.attempts, req.attemptId);
      if used >= 0 { return Reject(AttemptExists); }
      if turn.status == TurnCompleted && turn.result.Some? { return Replay(turn.result.value); }
      turn := turn.(status := TurnOpen);
      turn := turn.(attempts := turn.attempts + [Attempt(req.attemptId, Generating, requestId, "")]);
      conversation := conversation.(turns := conversation.turns[index := turn]);
    } else {
      conversation := conversation.(messages := conversation.messages + [req.message]);
      conversation := conversation.(turns := conversation.turns
        + [Turn(req.turnId, req.message.id, "", TurnOpen, [Attempt(req.attemptId, Generating, requestId, "")], None)]);
    }
    return Write(conversation);
  }

  class Coordinator {
    const store: ConversationStore
    const gate: ActiveConversationGate

    constructor (store: ConversationStore, gate: ActiveConversationGate)
      ensures this.store == store && this.gate == gate
    {
      this.store, this.gate := store, gate;
    }

    ghost predicate Enters(req: TurnRequest, f: Faults)
      reads gate
    {
      ValidRequest(req) && f.ctxOk && GateKey(req.key) !in gate.active
    }

    ghost function Plan(req: TurnRequest, requestId: string): BeginPlan
      reads store
    {
      PlanBegin(Lookup(store.conversations, req.key), req, requestId)
    }

    ghost predicate Saves(req: TurnRequest, requestId: string, f: Faults)
      reads store, gate
    {
      Enters(req, f) && f.loadOk && Plan(req, requestId).Write? && f.saveOk
    }

    ghost predicate Grants(req: TurnRequest, requestId: string, f: Faults)
      reads store, gate
    {
      Enters(req, f) && f.loadOk && f.windowOk && (Plan(req, requestId).Replay? || Saves(req, requestId, f))
    }

    /** A session is granted exactly when Begin got all the way; otherwise the gate is as before.
        The conversation is saved exactly when the plan writes one and the store accepts it. */
    method Begin(req: TurnRequest, requestId: string, f: Faults) returns (session: TurnSession?)
      modifies store, gate
      ensures session != null <==> old(Grants(req, requestId, f))
      ensures gate.active == old(gate.active) + if old(Grants(req, requestId, f)) then {GateKey(req.key)} else {}
      ensures store.conversations == if old(Saves(req, requestId, f))
                                     then old(store.conversations)[req.key := old(Plan(req, requestId)).conversation]
                                     else old(store.conversations)
      ensures session != null ==>
                && fresh(session) && session.release.gate == gate && session.release.key == GateKey(req.key)
                && session.key == req.key && session.turnId == req.turnId && session.attemptId == req.attemptId
                && session.requestId == requestId && !session.releaseDone
                && (if old(Plan(req, requestId)).Replay? then session.replay == Some(old(Plan(req, requestId)).result)
                    else session.replay == None)
      // the same without the plan: who gets a session, when it is a replay, and what is saved
      ensures session != null <==>
                && ValidRequest(req) && f.ctxOk && GateKey(req.key) !in old(gate.active) && f.loadOk && f.windowOk
                && old(Acceptable(Lookup(store.conversations, req.key), req))
                && (f.saveOk || old(AlreadyAnswered(Lookup(store.conversations, req.key), req)))
      ensures session != null ==>
                session.replay == if old(AlreadyAnswered(Lookup(store.conversations, req.key), req))
                                  then old(StoredResult(Lookup(store.conversations, req.key), req.turnId)) else None
      ensures session != null && session.replay.Some? ==> store.conversations == old(store.conversations)
      ensures session != null && session.replay.None? ==>
                && req.key in store.conversations
                && OpensTurn(old(Lookup(store.conversations, req.key)), store.conversations[req.key], req, requestId)
      ensures store.conversations != old(store.conversations) ==>
                && req.key in store.conversations
                && OpensTurn(old(Lookup(store.conversations, req.key)), store.conversations[req.key], req, requestId)
    {
      BeginExactly(Lookup(store.conversations, req.key), req, requestId);
      hide PlanBegin, ValidRequest, Acceptable, AlreadyAnswered, OpensTurn, GateKey, Lookup;
      if !ValidRequest(req) || !f.ctxOk { return null; }
      var release, ok := gate.TryAcquire(GateKey(req.key));
      if !ok { return null; }
      session := new TurnSession(req, requestId, release);
      if !f.loadOk {
        session.Release();
        return null;
      }
      var plan := PlanTurn(Lookup(store.conversations, req.key), req, requestId);
      match plan {
        case Reject(_) =>
          session.Release();
          return null;
        case Replay(result) =>
          if !f.windowOk {
            session.Release();
            return null;
          }
          session.replay := Some(result);
          return;
        case Write(conversation) =>
          if !f.saveOk {
            session.Release();
            return null;
          }
          store.conversations := store.conversations[req.key := conversation];
          if !f.windowOk {
            session.Release();
            return null;
          }
      }
    }

    ghost function Finished(session: TurnSession, o: Outcome): Option<Conversation>
      reads store
    {
      PlanFinish(Lookup(store.conversations, session.key), session.turnId, session.attemptId, o)
    }

    /** The conversation of the session is stored with its turn ended. */
    ghost predicate Ended(before: Conversation, session: TurnSession, o: Outcome)
      reads store
    {
      && session.key in store.conversations
      && EndsTurn(before, store.conversations[session.key], session.turnId, session.attemptId, o)
    }

    /** Complete saves the answer, the completed turn and its attempt together, and always releases. */
    method Complete(session: TurnSession, result: AgentResult) returns (ok: bool)
      requires session.release.gate == gate && !session.releaseDone
      modifies store, gate, session`releaseDone
      ensures session.releaseDone && gate.active == old(gate.active) - {session.release.key}
      ensures ok <==> old(Finished(session, Completed(result))).Some?
      ensures ok ==> Ended(old(Lookup(store.conversations, session.key)), session, Completed(result))
      ensures store.conversations == if ok then old(store.conversations)[session.key := old(Finished(session, Completed(result))).value]
                                     else old(store.conversations)
    {
      var conversation := Lookup(store.conversations, session.key);
      var index := FindTurnIndex(conversation.turns, session.turnId);
      if index < 0 {
        session.Release();
        return false;
      }
      var turn := conversation.turns[index];
      var a := FindAttempt(turn.attempts, session.attemptId);
      if a < 0 {
        session.Release();
        return false;
      }
      FinishExactly(conversation, session.turnId, session.attemptId, Completed(result));
      hide EndedAs, OnlyTurn;
      turn := turn.(attempts := turn.attempts[a := turn.attempts[a].(status := AttemptCompleted)]);
      turn := turn.(status := TurnCompleted);
      turn := turn.(assistantMessageId := result.message.id);
      turn := turn.(result := Some(result));
      conversation := conversation.(turns := conversation.turns[index := turn]);
      conversation := conversation.(messages := conversation.messages + [result.message]);
      store.conversations := store.conversations[session.key := conversation];
      session.Release();
      return true;
    }

    /** Fail and Cancel mark the turn and the attempt, add no message, and always release. */
    method FinishWithoutAssistant(session: TurnSession, o: Outcome, readOk: bool, saveOk: bool) returns (ok: bool)
      requires session.release.gate == gate && !session.releaseDone && !o.Completed?
      modifies store, gate, session`releaseDone
      ensures session.releaseDone && gate.active == old(gate.active) - {session.release.key}
      ensures ok <==> readOk && saveOk && old(Finished(session, o)).Some?
      ensures ok ==> Ended(old(Lookup(store.conversations, session.key)), session, o)
      ensures store.conversations == if ok then old(store.conversations)[session.key := old(Finished(session, o)).value]
                                     else old(store.conversations)
    {
      if !readOk {
        session.Release();
        return false;
      }
      var conversation := Lookup(store.conversations, session.key);
      var index := FindTurnIndex(conversation.turns, session.turnId);
      if index < 0 {
        session.Release();
        return false;
      }
      var turn := conversation.turns[index];
      var a := FindAttempt(turn.attempts, session.attemptId);
      if a < 0 {
        session.Release();
        return false;
      }
      FinishExactly(conversation, session.turnId, session.attemptId, o);
      hide EndedAs, OnlyTurn;
      var attemptStatus, code := AttemptCanceled, "canceled";
      turn := turn.(status := TurnCanceled);
      if o.Failed? {
        turn := turn.(status := TurnFailed);
        attemptStatus, code := AttemptFailed, o.code;
      }
      turn := turn.(attempts := turn.attempts[a := turn.attempts[a].(status := attemptStatus, errorCode := code)]);
      conversation := conversation.(turns := conversation.turns[index := turn]);
      if saveOk {
        store.conversations := store.conversations[session.key := conversation];
      }
      session.Release();
      return saveOk;
    }
  }
}
