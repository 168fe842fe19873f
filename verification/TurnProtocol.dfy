/** Any number of clients racing through the coordinator, some of them streaming runs of the
    orchestrator, as one state machine. Every step is a single access to the gate or the store,
    or a local action of one client; failures of the store, the window and the sink are choices
    the step carries, so a run is a sequence of steps and nothing else is left open. */
module TurnProtocol {
  import opened Text
  import opened TurnRecords

  // ----- Events of a streaming run

  datatype DoneStatus = DoneCompleted | DoneFailed | DoneCanceled

  datatype StreamEvent =
    | RequestStarted
    | RouteSelected(intent: string)
    | AgentSelected(agent: string)
    | AssistantDelta(text: string)
    | MessageCompleted(content: string, replayed: bool)
    | ErrorRaised(code: string)
    | RunCanceled
    | Done(status: DoneStatus, replayed: bool)

  datatype Stamped = Stamped(sequence: nat, event: StreamEvent)

  // ----- Clients

  /** A Direct client calls the coordinator itself; a Streaming one is a run of Orchestrator.Stream. */
  datatype Kind = Direct | Streaming

  datatype Stage = Routing | Selecting | Answering

  datatype Phase =
    | Entering                                                            // Begin has not taken the gate
    | Acquired                                                            // gate taken, nothing loaded
    | Loaded(copy: Conversation)                                          // local copy of the conversation
    | Running(stage: Stage)                                               // Begin returned a session
    | Replaying(result: AgentResult)                                      // Begin returned a replay to a Direct client
    | Ending(outcome: Outcome, tail: seq<StreamEvent>)                    // Complete, Fail or Cancel called
    | Finishing(outcome: Outcome, copy: Conversation, tail: seq<StreamEvent>) // it read the conversation again
    | Releasing(tail: seq<StreamEvent>)                                   // only the deferred release is left
    | Tail(plan: seq<StreamEvent>, sent: nat)                             // closing events
    | Ended(plan: seq<StreamEvent>, sent: nat)

  datatype Client = Client(
    kind: Kind,
    req: TurnRequest,
    requestId: string,
    phase: Phase,
    acquired: bool,
    released: bool,   // the once-flag of the session's release closure
    replayed: bool,
    sequence: nat,
    events: seq<Stamped>)
  {
    predicate Holds() { acquired && !released }
    function Key(): ConversationKey { req.key }
  }

  datatype World = World(gate: set<string>, store: map<ConversationKey, Conversation>, clients: map<nat, Client>)

  datatype Answer = Answered(result: AgentResult) | AnswerCanceled | AnswerFailed

  datatype Step =
    | Start(kind: Kind, req: TurnRequest, requestId: string, ok: bool)
    | TryAcquire(ok: bool)
    | Load(ok: bool)
    | Decide(saveOk: bool, windowOk: bool)
    | EmitRoute(intent: string, ok: bool)
    | SelectAgent(found: bool, agent: string, ok: bool)
    | EmitDelta(text: string)
    | GiveAnswer(answer: Answer)
    | Finish(outcome: Outcome)
    | ReadAgain(ok: bool)
    | SaveAgain(ok: bool)
    | ReleaseGate
    | CallRelease
    | EmitTail(ok: bool)

  datatype Action = Action(client: nat, step: Step)

  const Start0 := World({}, map[], map[])

  function Lookup(store: map<ConversationKey, Conversation>, k: ConversationKey): Conversation {
    if k in store then store[k] else NoConversation
  }

  function Emit(c: Client, e: StreamEvent): Client {
    c.(sequence := c.sequence + 1, events := c.events + [Stamped(c.sequence + 1, e)])
  }

  function EnsureIdentity(result: AgentResult, turnId: string, requestId: string): AgentResult {
    if !Blank(result.message.id) then result
    else
      var role := if result.message.role == OtherRole("") then Assistant else result.message.role;
      result.(message := result.message.(id := "assistant-" + turnId + "-" + requestId, role := role))
  }

  /** How an announced result differs from what the agent gave: a message with an id is kept as it is; one
      without gets an id made of the turn and the request, and the assistant's role if it has none. */
  predicate Identified(given: AgentResult, turnId: string, requestId: string, r: AgentResult) {
    && !Blank(r.message.id)
    && r.agentName == given.agentName && r.message.content == given.message.content
    && if exists i :: 0 <= i < |given.message.id| && !IsSpace(given.message.id[i]) then r == given
       else
         && r.message.id == "assistant-" + turnId + "-" + requestId
         && (given.message.role != OtherRole("") ==> r.message.role == given.message.role)
         && (given.message.role == OtherRole("") ==> r.message.role == Assistant)
  }

  lemma EnsureIdentityIdentifies(given: AgentResult, turnId: string, requestId: string)
    ensures Identified(given, turnId, requestId, EnsureIdentity(given, turnId, requestId))
  {
    if Blank(given.message.id) {
      var id := "assistant-" + turnId + "-" + requestId;
      assert id[0] == 'a';
      NotBlank(id, 0);
    }
  }

  function Closing(result: AgentResult, replayed: bool): seq<StreamEvent> {
    [MessageCompleted(result.message.content, replayed), Done(DoneCompleted, replayed)]
  }

  function Failing(code: string): seq<StreamEvent> {
    [ErrorRaised(code), Done(DoneFailed, false)]
  }

  // ----- One step of one client

  /** All that one step can do: move the client, and besides that touch the gate or the store once. */
  datatype Effect =
    | Stay
    | Local(client: Client)
    | TakeGate(client: Client)
    | LeaveGate(client: Client)
    | Save(conversation: Conversation, client: Client)

  function Begun(s: Step): Effect
    requires s.Start?
  {
    if !ValidRequest(s.req) then Stay
    else
      var c := Client(s.kind, s.req, s.requestId, Entering, false, false, false, 0, []);
      if s.kind == Direct then Local(c)
      else Local(Emit(c, RequestStarted).(phase := if s.ok then Entering else Ended([], 0)))
  }

  function Entered(busy: bool, c: Client, ok: bool): Effect {
    if !ok || busy then Local(c.(phase := Ended([], 0)))
    else TakeGate(c.(phase := Acquired, acquired := true))
  }

  function Decided(c: Client, copy: Conversation, saveOk: bool, windowOk: bool): Effect {
    match PlanBegin(copy, c.req, c.requestId)
    case Reject(_) => Local(c.(phase := Releasing([])))
    case Replay(result) =>
      if !windowOk then Local(c.(phase := Releasing([])))
      else if c.kind == Direct then Local(c.(phase := Replaying(result), replayed := true))
      else Local(c.(phase := Tail(Closing(result, true), 0), replayed := true))
    case Write(after) =>
      if !saveOk then Local(c.(phase := Releasing([])))
      else Save(after, c.(phase := if !windowOk then Releasing([]) else Running(if c.kind == Direct then Answering else Routing)))
  }

  function AnswerPhase(c: Client, answer: Answer): Phase {
    match answer
    case Answered(r) =>
      var result := EnsureIdentity(r, c.req.turnId, c.requestId);
      Ending(Completed(result), Closing(result, false))
    case AnswerCanceled => Ending(Canceled, [RunCanceled, Done(DoneCanceled, false)])
    case AnswerFailed => Ending(Failed("agent_failed"), Failing("agent_failed"))
  }

  function Streamed(c: Client, s: Step): Effect
    requires c.phase.Running?
  {
    match c.phase.stage
    case Routing =>
      if !s.EmitRoute? then Stay
      else Local(Emit(c, RouteSelected(s.intent)).(phase := if s.ok then Running(Selecting) else Ending(Failed("sink_failed"), [])))
    case Selecting =>
      if !s.SelectAgent? then Stay
      else if !s.found then Local(c.(phase := Ending(Failed("agent_not_found"), Failing("agent_not_found"))))
      else Local(Emit(c, AgentSelected(s.agent)).(phase := if s.ok then Running(Answering) else Ending(Failed("sink_failed"), [])))
    case Answering =>
      if s.EmitDelta? then Local(Emit(c, AssistantDelta(s.text)))
      else if s.GiveAnswer? then Local(c.(phase := AnswerPhase(c, s.answer)))
      else Stay
  }

  /** A Direct client with a running session ends it, or just releases it. */
  function Handled(c: Client, s: Step): Effect {
    if s.Finish? then Local(c.(phase := Ending(s.outcome, [])))
    else if s.CallRelease? then Released(c, Ended([], 0))
    else Stay
  }

  function ReadBack(stored: Conversation, c: Client, ok: bool): Effect
    requires c.phase.Ending?
  {
    if !ok && !c.phase.outcome.Completed? then Local(c.(phase := Releasing(c.phase.tail)))
    else Local(c.(phase := Finishing(c.phase.outcome, stored, c.phase.tail)))
  }

  function SavedAgain(c: Client, ok: bool): Effect
    requires c.phase.Finishing?
  {
    var p := PlanFinish(c.phase.copy, c.req.turnId, c.req.attemptId, c.phase.outcome);
    if p.None? then Local(c.(phase := Releasing([])))
    else if !ok && !c.phase.outcome.Completed? then Local(c.(phase := Releasing(c.phase.tail)))
    else Save(p.value, c.(phase := Releasing(c.phase.tail)))
  }

  /** TurnSession.Release: the closure runs once, so only the first call touches the gate. */
  function Released(c: Client, next: Phase): Effect {
    if !c.Holds() then Stay else LeaveGate(c.(released := true, phase := next))
  }

  function TailSent(c: Client, ok: bool): Effect
    requires c.phase.Tail?
  {
    var plan, k := c.phase.plan, c.phase.sent;
    if k < |plan| then Local(Emit(c, plan[k]).(phase := if ok then Tail(plan, k + 1) else Ended(plan, k + 1)))
    else Local(c.(phase := Ended(plan, k)))
  }

  /** The effect of a step on the client that takes it; a step that is not enabled stays. */
  function StepEffect(stored: Conversation, busy: bool, c: Client, s: Step): Effect {
    match c.phase
    case Entering => if s.TryAcquire? then Entered(busy, c, s.ok) else Stay
    case Acquired => if s.Load? then Local(c.(phase := if s.ok then Loaded(stored) else Releasing([]))) else Stay
    case Loaded(copy) => if s.Decide? then Decided(c, copy, s.saveOk, s.windowOk) else Stay
    case Running(_) => if c.kind == Streaming then Streamed(c, s) else Handled(c, s)
    case Replaying(_) => if s.CallRelease? then Released(c, Ended([], 0)) else Stay
    case Ending(_, _) => if s.ReadAgain? then ReadBack(stored, c, s.ok) else Stay
    case Finishing(_, _, _) => if s.SaveAgain? then SavedAgain(c, s.ok) else Stay
    case Releasing(tail) => if s.ReleaseGate? then Released(c, Tail(tail, 0)) else Stay
    case Tail(_, _) => if s.EmitTail? then TailSent(c, s.ok) else Stay
    case Ended(_, _) => if s.CallRelease? && c.kind == Direct then Released(c, c.phase) else Stay
  }

  function Commit(w: World, id: nat, e: Effect): World {
    match e
    case Stay => w
    case Local(c) => w.(clients := w.clients[id := c])
    case TakeGate(c) => w.(gate := w.gate + {GateKey(c.Key())}, clients := w.clients[id := c])
    case LeaveGate(c) => w.(gate := w.gate - {GateKey(c.Key())}, clients := w.clients[id := c])
    case Save(after, c) => w.(store := w.store[c.Key() := after], clients := w.clients[id := c])
  }

  function EffectOf(w: World, a: Action): Effect {
    if a.step.Start? then (if a.client in w.clients then Stay else Begun(a.step))
    else if a.client !in w.clients then Stay
    else
      var c := w.clients[a.client];
      StepEffect(Lookup(w.store, c.Key()), GateKey(c.Key()) in w.gate, c, a.step)
  }

  function Apply(w: World, a: Action): World {
    Commit(w, a.client, EffectOf(w, a))
  }

  function Run(w: World, actions: seq<Action>): World {
    if actions == [] then w else Apply(Run(w, actions[..|actions| - 1]), actions[|actions| - 1])
  }

  // ----- What every reachable world keeps

  ghost predicate Quiet(e: StreamEvent) {
    !e.MessageCompleted? && !e.Done?
  }

  ghost predicate Numbered(events: seq<Stamped>, sequence: nat) {
    |events| == sequence && forall i :: 0 <= i < |events| ==> events[i].sequence == i + 1
  }

  ghost predicate PlanShape(plan: seq<StreamEvent>) {
    plan != [] ==>
      && |plan| == 2
      && (|| (plan[0].MessageCompleted? && plan[1] == Done(DoneCompleted, plan[0].replayed))
          || (plan[0].ErrorRaised? && plan[1] == Done(DoneFailed, false))
          || (plan[0].RunCanceled? && plan[1] == Done(DoneCanceled, false)))
  }

  /** The events end with the first `sent` events of the plan and are quiet before them. */
  ghost predicate Sent(events: seq<Stamped>, plan: seq<StreamEvent>, sent: nat) {
    && sent <= |plan| && sent <= |events|
    && (forall i :: 0 <= i < |events| - sent ==> Quiet(events[i].event))
    && (forall j :: 0 <= j < sent ==> events[|events| - sent + j].event == plan[j])
  }

  ghost predicate Announces(plan: seq<StreamEvent>) {
    plan != [] && plan[0].MessageCompleted?
  }

  ghost predicate CommittedIn(store: map<ConversationKey, Conversation>, req: TurnRequest, content: string) {
    req.key in store && Committed(store[req.key], req.turnId, content)
  }

  ghost predicate Backed(store: map<ConversationKey, Conversation>, req: TurnRequest, plan: seq<StreamEvent>) {
    Announces(plan) ==> CommittedIn(store, req, plan[0].content)
  }

  ghost predicate TailFits(outcome: Outcome, tail: seq<StreamEvent>) {
    && PlanShape(tail)
    && (Announces(tail) ==> outcome.Completed? && outcome.result.message.content == tail[0].content)
  }

  ghost predicate LiveIn(store: map<ConversationKey, Conversation>, req: TurnRequest) {
    req.key in store && Live(store[req.key], req.turnId, req.attemptId)
  }

  /** A session that is over has given the gate back, except for a replay made by Orchestrator.Stream. */
  ghost predicate GateDue(c: Client) {
    c.released <==> !(c.kind == Streaming && c.replayed)
  }

  /** What a client knows about the shared store, phase by phase. */
  ghost predicate PhaseOk(store: map<ConversationKey, Conversation>, c: Client) {
    match c.phase
    case Entering => !c.acquired
    case Acquired => c.Holds()
    case Loaded(copy) => c.Holds() && copy == Lookup(store, c.Key())
    case Running(_) => c.Holds() && LiveIn(store, c.req)
    case Replaying(result) => c.Holds() && c.kind == Direct && CommittedIn(store, c.req, result.message.content)
    case Ending(o, tail) => c.Holds() && LiveIn(store, c.req) && TailFits(o, tail)
    case Finishing(o, copy, tail) => c.Holds() && LiveIn(store, c.req) && copy == store[c.Key()] && TailFits(o, tail)
    case Releasing(tail) => c.Holds() && PlanShape(tail) && Backed(store, c.req, tail)
    case Tail(plan, _) => c.acquired && GateDue(c) && PlanShape(plan) && Backed(store, c.req, plan)
    case Ended(plan, _) => (c.acquired ==> GateDue(c)) && PlanShape(plan) && Backed(store, c.req, plan)
  }

  function PlanOf(p: Phase): seq<StreamEvent> {
    match p
    case Ending(_, tail) => tail
    case Finishing(_, _, tail) => tail
    case Releasing(tail) => tail
    case Tail(plan, _) => plan
    case Ended(plan, _) => plan
    case _ => []
  }

  ghost predicate ClientOk(store: map<ConversationKey, Conversation>, c: Client) {
    && ValidRequest(c.req)
    && (c.released ==> c.acquired)
    && (c.replayed ==> c.acquired && (c.phase.Replaying? || c.phase.Tail? || c.phase.Ended?))
    && Numbered(c.events, c.sequence)
    && (c.kind == Direct ==> c.events == [] && PlanOf(c.phase) == [])
    && (if c.phase.Tail? || c.phase.Ended? then Sent(c.events, c.phase.plan, c.phase.sent) else Sent(c.events, [], 0))
    && PhaseOk(store, c)
  }

  /** The gate keys held by unreleased sessions, by client. */
  function Owners(w: World): map<nat, string> {
    map id | id in w.clients && w.clients[id].Holds() :: GateKey(w.clients[id].Key())
  }

  /** The gate is the set of keys held, and no two clients hold the same key. */
  ghost predicate Owned(gate: set<string>, owners: map<nat, string>) {
    && (forall id :: id in owners ==> owners[id] in gate)
    && (forall key :: key in gate ==> exists id :: id in owners && owners[id] == key)
    && (forall a, b :: a in owners && b in owners && a != b ==> owners[a] != owners[b])
  }

  ghost predicate StoreOk(store: map<ConversationKey, Conversation>) {
    forall k :: k in store ==> WellFormed(store[k])
  }

  ghost predicate ClientsOk(w: World) {
    forall id :: id in w.clients ==> ClientOk(w.store, w.clients[id])
  }

  ghost predicate Inv(w: World) {
    StoreOk(w.store) && ClientsOk(w) && Owned(w.gate, Owners(w))
  }

  lemma OwnedAdd(gate: set<string>, owners: map<nat, string>, id: nat, key: string)
    requires Owned(gate, owners) && id !in owners && key !in gate
    ensures Owned(gate + {key}, owners[id := key])
  {
    var owners' := owners[id := key];
    forall k | k in gate + {key} ensures exists i :: i in owners' && owners'[i] == k {
      if k == key { assert id in owners' && owners'[id] == k; }
      else { var i :| i in owners && owners[i] == k; assert i in owners' && owners'[i] == k; }
    }
  }

  lemma OwnedRemove(gate: set<string>, owners: map<nat, string>, id: nat)
    requires Owned(gate, owners) && id in owners
    ensures Owned(gate - {owners[id]}, owners - {id})
  {
    var owners' := owners - {id};
    forall k | k in gate - {owners[id]} ensures exists i :: i in owners' && owners'[i] == k {
      var i :| i in owners && owners[i] == k;
      assert i in owners' && owners'[i] == k;
    }
  }

  // ----- What an effect must respect, seen by one client

  ghost predicate SameClient(c: Client, c': Client) {
    && c'.kind == c.kind && c'.req == c.req && c'.requestId == c.requestId
    && (c.acquired ==> c'.acquired) && (c.released ==> c'.released)
    && |c.events| <= |c'.events| && (forall i :: 0 <= i < |c.events| ==> c'.events[i] == c.events[i])
  }

  ghost predicate EffectOk(store: map<ConversationKey, Conversation>, busy: bool, c: Client, e: Effect) {
    match e
    case Stay => true
    case Local(c') => SameClient(c, c') && (c'.Holds() <==> c.Holds()) && ClientOk(store, c')
    case TakeGate(c') => SameClient(c, c') && !busy && !c.Holds() && c'.Holds() && ClientOk(store, c')
    case LeaveGate(c') => SameClient(c, c') && c.Holds() && !c'.Holds() && ClientOk(store, c')
    case Save(after, c') =>
      && SameClient(c, c') && c.Holds() && c'.Holds()
      && WellFormed(after) && Grew(Lookup(store, c.Key()), after)
      && ClientOk(store[c.Key() := after], c')
  }

  /** An effect that does not take the gate is allowed whether or not the gate is busy. */
  ghost predicate FreeEffectOk(store: map<ConversationKey, Conversation>, c: Client, e: Effect) {
    !e.TakeGate? && EffectOk(store, true, c, e)
  }

  lemma EmitSent(c: Client, e: StreamEvent, plan: seq<StreamEvent>, sent: nat)
    requires Numbered(c.events, c.sequence) && Sent(c.events, plan, sent)
    requires if sent < |plan| then e == plan[sent] else plan == [] && Quiet(e)
    ensures Numbered(Emit(c, e).events, Emit(c, e).sequence)
    ensures Sent(Emit(c, e).events, plan, if sent < |plan| then sent + 1 else sent)
    ensures SameClient(c, Emit(c, e))
  {
    var events := Emit(c, e).events;
    assert forall i :: 0 <= i < |c.events| ==> events[i] == c.events[i];
  }

  lemma BegunOk(store: map<ConversationKey, Conversation>, s: Step)
    requires s.Start?
    ensures Begun(s).Stay? || (Begun(s).Local? && ClientOk(store, Begun(s).client) && !Begun(s).client.Holds())
  {
    EmitSent(Client(s.kind, s.req, s.requestId, Entering, false, false, false, 0, []), RequestStarted, [], 0);
  }

  lemma EmptyWellFormed()
    ensures WellFormed(NoConversation)
  {
  }

  lemma PlanBeginReplay(c: Conversation, req: TurnRequest, requestId: string)
    ensures PlanBegin(c, req, requestId).Replay? ==>
              Committed(c, req.turnId, PlanBegin(c, req, requestId).result.message.content)
  {
  }

  lemma DecidedOk(store: map<ConversationKey, Conversation>, c: Client, copy: Conversation, saveOk: bool, windowOk: bool)
    requires StoreOk(store) && ClientOk(store, c) && c.phase == Loaded(copy)
    ensures FreeEffectOk(store, c, Decided(c, copy, saveOk, windowOk))
  {
    hide PlanBegin, WellFormed, Live, Grew;
    PlanBeginReplay(copy, c.req, c.requestId);
    if PlanBegin(copy, c.req, c.requestId).Write? {
      assert WellFormed(copy) by { EmptyWellFormed(); }
      BeginKeeps(copy, c.req, c.requestId);
    }
  }

  lemma StreamedOk(store: map<ConversationKey, Conversation>, c: Client, s: Step)
    requires ClientOk(store, c) && c.phase.Running? && c.kind == Streaming
    ensures FreeEffectOk(store, c, Streamed(c, s))
  {
    hide Live, Numbered, Sent, Committed;
    match c.phase.stage
    case Routing => if s.EmitRoute? { EmitSent(c, RouteSelected(s.intent), [], 0); }
    case Selecting => if s.SelectAgent? { EmitSent(c, AgentSelected(s.agent), [], 0); }
    case Answering => if s.EmitDelta? { EmitSent(c, AssistantDelta(s.text), [], 0); }
  }

  lemma SavedAgainOk(store: map<ConversationKey, Conversation>, c: Client, ok: bool)
    requires StoreOk(store) && ClientOk(store, c) && c.phase.Finishing?
    ensures FreeEffectOk(store, c, SavedAgain(c, ok))
    ensures PlanFinish(c.phase.copy, c.req.turnId, c.req.attemptId, c.phase.outcome).Some?
  {
    hide PlanFinish, WellFormed, Live, Grew;
    FinishKeeps(c.phase.copy, c.req.turnId, c.req.attemptId, c.phase.outcome);
  }

  lemma TailSentOk(store: map<ConversationKey, Conversation>, c: Client, ok: bool)
    requires ClientOk(store, c) && c.phase.Tail?
    ensures FreeEffectOk(store, c, TailSent(c, ok))
  {
    hide Numbered, Sent, Committed;
    var plan, k := c.phase.plan, c.phase.sent;
    if k < |plan| { EmitSent(c, plan[k], plan, k); }
  }

  lemma ReleasedOk(store: map<ConversationKey, Conversation>, c: Client, next: Phase)
    requires ClientOk(store, c)
    requires match c.phase
             case Running(_) => c.kind == Direct && next == Ended([], 0)
             case Replaying(_) => next == Ended([], 0)
             case Ended(_, _) => c.kind == Direct && next == c.phase
             case Releasing(tail) => next == Tail(tail, 0)
             case _ => false
    ensures FreeEffectOk(store, c, Released(c, next))
  {
    hide Live, Committed;
  }

  lemma HandledOk(store: map<ConversationKey, Conversation>, c: Client, s: Step)
    requires ClientOk(store, c) && c.phase.Running? && c.kind == Direct
    ensures FreeEffectOk(store, c, Handled(c, s))
  {
    hide Live, Committed;
    if s.CallRelease? { ReleasedOk(store, c, Ended([], 0)); }
  }

  lemma ReadBackOk(store: map<ConversationKey, Conversation>, c: Client, ok: bool)
    requires ClientOk(store, c) && c.phase.Ending?
    ensures FreeEffectOk(store, c, ReadBack(Lookup(store, c.Key()), c, ok))
  {
    hide Live, Committed;
  }

  lemma EnteredOk(store: map<ConversationKey, Conversation>, busy: bool, c: Client, ok: bool)
    requires ClientOk(store, c) && c.phase.Entering?
    ensures EffectOk(store, busy, c, Entered(busy, c, ok))
  {
    hide Live, Committed;
  }

  lemma LoadedOk(store: map<ConversationKey, Conversation>, c: Client, phase: Phase)
    requires ClientOk(store, c) && c.phase.Acquired?
    requires phase == Loaded(Lookup(store, c.Key())) || phase == Releasing([])
    ensures FreeEffectOk(store, c, Local(c.(phase := phase)))
  {
    hide Live, Committed;
  }

  lemma StepEffectOk(store: map<ConversationKey, Conversation>, busy: bool, c: Client, s: Step)
    requires StoreOk(store) && ClientOk(store, c)
    ensures EffectOk(store, busy, c, StepEffect(Lookup(store, c.Key()), busy, c, s))
  {
    hide Entered, Decided, Streamed, Handled, ReadBack, SavedAgain, TailSent, Released;
    hide StoreOk, ClientOk, Lookup, SameClient, WellFormed, Grew;
    match c.phase
    case Entering => if s.TryAcquire? { EnteredOk(store, busy, c, s.ok); }
    case Acquired => if s.Load? { LoadedOk(store, c, if s.ok then Loaded(Lookup(store, c.Key())) else Releasing([])); }
    case Loaded(copy) => if s.Decide? { DecidedOk(store, c, copy, s.saveOk, s.windowOk); }
    case Running(_) => if c.kind == Streaming { StreamedOk(store, c, s); } else { HandledOk(store, c, s); }
    case Replaying(_) => if s.CallRelease? { ReleasedOk(store, c, Ended([], 0)); }
    case Ending(_, _) => if s.ReadAgain? { ReadBackOk(store, c, s.ok); }
    case Finishing(_, _, _) => if s.SaveAgain? { SavedAgainOk(store, c, s.ok); }
    case Releasing(tail) => if s.ReleaseGate? { ReleasedOk(store, c, Tail(tail, 0)); }
    case Tail(_, _) => if s.EmitTail? { TailSentOk(store, c, s.ok); }
    case Ended(_, _) => if s.CallRelease? && c.kind == Direct { ReleasedOk(store, c, c.phase); }
  }

  // ----- Committing an effect keeps the invariant

  lemma {:induction false} CommittedGrows(before: Conversation, after: Conversation, turnId: string, content: string)
    requires Grew(before, after) && Committed(before, turnId, content)
    ensures Committed(after, turnId, content)
  {
    TurnIndexStable(before, after, turnId);
    var i := TurnIndex(before.turns, turnId);
    assert TurnGrew(before.turns[i], after.turns[i]);
  }

  lemma BystanderKeeps(store: map<ConversationKey, Conversation>, other: Client, k: ConversationKey, after: Conversation)
    requires ClientOk(store, other)
    requires Grew(Lookup(store, k), after)
    requires other.Key() == k ==> !other.Holds()
    ensures ClientOk(store[k := after], other)
  {
    if other.Key() == k {
      if (other.phase.Tail? || other.phase.Ended?) && Announces(other.phase.plan) {
        CommittedGrows(store[k], after, other.req.turnId, other.phase.plan[0].content);
      }
    } else {
      assert Lookup(store[k := after], other.Key()) == Lookup(store, other.Key());
    }
  }

  lemma OwnersTake(w: World, id: nat, c: Client)
    requires c.Holds()
    ensures Owners(Commit(w, id, TakeGate(c))) == Owners(w)[id := GateKey(c.Key())]
  {
  }

  lemma OwnersLeave(w: World, id: nat, c: Client)
    requires !c.Holds()
    ensures Owners(Commit(w, id, LeaveGate(c))) == Owners(w) - {id}
  {
  }

  lemma OwnersStay(w: World, id: nat, e: Effect)
    requires e.Local? || e.Save?
    requires if id in w.clients then e.client.Key() == w.clients[id].Key() && (e.client.Holds() <==> w.clients[id].Holds())
             else !e.client.Holds()
    ensures Owners(Commit(w, id, e)) == Owners(w)
  {
  }

  lemma CommitOwners(w: World, id: nat, c: Client, e: Effect)
    requires Owned(w.gate, Owners(w)) && id in w.clients && w.clients[id] == c
    requires EffectOk(w.store, GateKey(c.Key()) in w.gate, c, e)
    ensures Owned(Commit(w, id, e).gate, Owners(Commit(w, id, e)))
  {
    hide ClientOk, WellFormed, Grew, Owned;
    match e
    case Stay =>
    case TakeGate(c') => OwnedAdd(w.gate, Owners(w), id, GateKey(c.Key())); OwnersTake(w, id, c');
    case LeaveGate(c') => OwnedRemove(w.gate, Owners(w), id); OwnersLeave(w, id, c');
    case Local(_) => OwnersStay(w, id, e);
    case Save(_, _) => OwnersStay(w, id, e);
  }

  lemma CommitClients(w: World, id: nat, c: Client, e: Effect)
    requires ClientsOk(w) && id in w.clients && w.clients[id] == c
    requires Owned(w.gate, Owners(w))
    requires EffectOk(w.store, GateKey(c.Key()) in w.gate, c, e)
    ensures ClientsOk(Commit(w, id, e))
  {
    hide ClientOk, WellFormed, Grew;
    var w' := Commit(w, id, e);
    forall i | i in w'.clients ensures ClientOk(w'.store, w'.clients[i]) {
      if i != id && e.Save? {
        assert w.clients[i].Holds() ==> i in Owners(w) && id in Owners(w) && Owners(w)[i] != Owners(w)[id];
        BystanderKeeps(w.store, w.clients[i], c.Key(), e.conversation);
      }
    }
  }

  lemma CommitStore(w: World, id: nat, c: Client, e: Effect)
    requires StoreOk(w.store) && EffectOk(w.store, GateKey(c.Key()) in w.gate, c, e)
    ensures StoreOk(Commit(w, id, e).store)
  {
    hide ClientOk, WellFormed, Grew;
  }

  lemma ApplyKeeps(w: World, a: Action)
    requires Inv(w)
    ensures Inv(Apply(w, a))
  {
    hide ClientOk, StoreOk, Owned, StepEffect, Begun;
    var id := a.client;
    if a.step.Start? && id !in w.clients {
      BegunOk(w.store, a.step);
      if EffectOf(w, a).Local? { OwnersStay(w, id, EffectOf(w, a)); }
    } else if id in w.clients && !a.step.Start? {
      var c := w.clients[id];
      StepEffectOk(w.store, GateKey(c.Key()) in w.gate, c, a.step);
      CommitOwners(w, id, c, EffectOf(w, a));
      CommitClients(w, id, c, EffectOf(w, a));
      CommitStore(w, id, c, EffectOf(w, a));
    }
  }
}
