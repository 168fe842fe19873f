/** The stored conversation: turns, attempts and messages, and the decisions the
    coordinator takes on one loaded copy of it. */
module TurnRecords {
  import opened Text

  datatype Role = System | User | Assistant | Tool | OtherRole(name: string)

  datatype Message = Message(id: string, role: Role, content: string)

  datatype AgentResult = AgentResult(agentName: string, message: Message)

  datatype TurnStatus = TurnOpen | TurnCompleted | TurnFailed | TurnCanceled

  datatype AttemptStatus = Generating | AttemptCompleted | AttemptFailed | AttemptCanceled

  datatype Attempt = Attempt(id: string, status: AttemptStatus, requestId: string, errorCode: string)

  datatype Turn = Turn(
    id: string,
    userMessageId: string,
    assistantMessageId: string,
    status: TurnStatus,
    attempts: seq<Attempt>,
    result: Option<AgentResult>)

  datatype Conversation = Conversation(messages: seq<Message>, turns: seq<Turn>)

  datatype ConversationKey = ConversationKey(tenantId: string, userId: string, conversationId: string)

  datatype TurnRequest = TurnRequest(key: ConversationKey, turnId: string, attemptId: string, message: Message)

  /** How the holder of a session ends it. */
  datatype Outcome = Completed(result: AgentResult) | Failed(code: string) | Canceled

  datatype BeginError =
    | InvalidRequest
    | ConversationBusy
    | StoreUnavailable
    | WindowUnavailable
    | TurnContentMismatch
    | TurnUserMessageMissing
    | AttemptExists

  /** What Begin does with the conversation it loaded: refuse, replay, or save a new version. */
  datatype BeginPlan = Reject(error: BeginError) | Replay(result: AgentResult) | Write(conversation: Conversation)

  const NoConversation := Conversation([], [])

  // ----- Request validation and the gate key

  predicate IdCharacter(c: char) {
    'A' <= c <= 'Z' || 'a' <= c <= 'z' || '0' <= c <= '9' || c == '.' || c == '_' || c == '-'
  }

  predicate ValidContractId(v: string) {
    v != "" && v != "." && v != ".." && forall i :: 0 <= i < |v| ==> IdCharacter(v[i])
  }

  predicate ValidKey(k: ConversationKey) {
    ValidContractId(k.tenantId) && ValidContractId(k.userId) && ValidContractId(k.conversationId)
  }

  predicate ValidRequest(r: TurnRequest) {
    && ValidKey(r.key)
    && ValidContractId(r.turnId) && ValidContractId(r.attemptId) && ValidContractId(r.message.id)
    && r.message.role == User
    && !Blank(r.message.content)
  }

  /** An id by its character codes: digits, upper and lower case letters, and 45 '-', 46 '.', 95 '_'. */
  predicate ProperId(v: string) {
    && 0 < |v| && v != "." && v != ".."
    && forall i :: 0 <= i < |v| ==>
         var n := v[i] as int; 48 <= n <= 57 || 65 <= n <= 90 || 97 <= n <= 122 || n == 45 || n == 46 || n == 95
  }

  /** Which requests are let in: five usable ids, a user's message, and some character in it that is not white space. */
  lemma RequestsExactly(r: TurnRequest)
    ensures ValidRequest(r) <==>
            && (forall id :: id in {r.key.tenantId, r.key.userId, r.key.conversationId, r.turnId, r.attemptId, r.message.id} ==> ProperId(id))
            && r.message.role == User
            && exists i :: 0 <= i < |r.message.content| && r.message.content[i] as int !in {9, 10, 11, 12, 13, 32}
  {
    forall id ensures ValidContractId(id) <==> ProperId(id) { IdsExactly(id); }
    hide ProperId, ValidContractId;
  }

  lemma IdsExactly(v: string)
    ensures ValidContractId(v) <==> ProperId(v)
  {
  }

  function GateKey(k: ConversationKey): string {
    k.tenantId + "/" + k.userId + "/" + k.conversationId
  }

  /** Two strings free of slashes, each followed by a slash, agree only if they are equal. */
  lemma SlashEndsField(a: string, b: string, restA: string, restB: string)
    requires '/' !in a && '/' !in b
    requires a + "/" + restA == b + "/" + restB
    ensures a == b && restA == restB
  {
    var whole := a + "/" + restA;
    assert whole[|a|] == '/' && whole[|b|] == '/';
    assert a == whole[..|a|] && b == whole[..|b|];
    assert restA == whole[|a| + 1..] && restB == whole[|b| + 1..];
  }

  lemma GateKeyInjective(a: ConversationKey, b: ConversationKey)
    requires ValidKey(a) && ValidKey(b)
    ensures GateKey(a) == GateKey(b) <==> a == b
  {
    if GateKey(a) == GateKey(b) {
      var restA := a.userId + "/" + a.conversationId;
      var restB := b.userId + "/" + b.conversationId;
      assert GateKey(a) == a.tenantId + "/" + restA;
      assert GateKey(b) == b.tenantId + "/" + restB;
      SlashEndsField(a.tenantId, b.tenantId, restA, restB);
      SlashEndsField(a.userId, b.userId, a.conversationId, b.conversationId);
    }
  }

  // ----- Look-ups: the first entry with the id, or -1

  function TurnIndex(turns: seq<Turn>, id: string): (i: int)
    ensures -1 <= i < |turns|
    ensures i >= 0 ==> turns[i].id == id
    ensures forall j :: 0 <= j < (if i >= 0 then i else |turns|) ==> turns[j].id != id
  {
    if turns == [] then -1
    else if turns[0].id == id then 0
    else
      var i := TurnIndex(turns[1..], id);
      assert forall j :: 0 < j < |turns| ==> turns[j] == turns[1..][j - 1];
      if i < 0 then -1 else i + 1
  }

  function AttemptIndex(attempts: seq<Attempt>, id: string): (i: int)
    ensures -1 <= i < |attempts|
    ensures i >= 0 ==> attempts[i].id == id
    ensures forall j :: 0 <= j < (if i >= 0 then i else |attempts|) ==> attempts[j].id != id
  {
    if attempts == [] then -1
    else if attempts[0].id == id then 0
    else
      var i := AttemptIndex(attempts[1..], id);
      assert forall j :: 0 < j < |attempts| ==> attempts[j] == attempts[1..][j - 1];
      if i < 0 then -1 else i + 1
  }

  function MessageIndex(messages: seq<Message>, id: string): (i: int)
    ensures -1 <= i < |messages|
    ensures i >= 0 ==> messages[i].id == id
    ensures forall j :: 0 <= j < (if i >= 0 then i else |messages|) ==> messages[j].id != id
  {
    if messages == [] then -1
    else if messages[0].id == id then 0
    else
      var i := MessageIndex(messages[1..], id);
      assert forall j :: 0 < j < |messages| ==> messages[j] == messages[1..][j - 1];
      if i < 0 then -1 else i + 1
  }

  // ----- The decisions

  function OpenAttempt(attemptId: string, requestId: string): Attempt {
    Attempt(attemptId, Generating, requestId, "")
  }

  function PlanBegin(c: Conversation, req: TurnRequest, requestId: string): BeginPlan {
    var i := TurnIndex(c.turns, req.turnId);
    if i >= 0 then
      var turn := c.turns[i];
      var m := MessageIndex(c.messages, turn.userMessageId);
      if m < 0 then Reject(TurnUserMessageMissing)
      else if c.messages[m].content != req.message.content then Reject(TurnContentMismatch)
      else if AttemptIndex(turn.attempts, req.attemptId) >= 0 then Reject(AttemptExists)
      else if turn.status == TurnCompleted && turn.result.Some? then Replay(turn.result.value)
      else
        var reopened := turn.(status := TurnOpen,
                              attempts := turn.attempts + [OpenAttempt(req.attemptId, requestId)]);
        Write(c.(turns := c.turns[i := reopened]))
    else
      var newTurn := Turn(req.turnId, req.message.id, "", TurnOpen, [OpenAttempt(req.attemptId, requestId)], None);
      Write(Conversation(c.messages + [req.message], c.turns + [newTurn]))
  }

  function TurnStatusOf(o: Outcome): TurnStatus {
    match o case Completed(_) => TurnCompleted case Failed(_) => TurnFailed case Canceled => TurnCanceled
  }

  function EndedAttempt(a: Attempt, o: Outcome): Attempt {
    match o
    case Completed(_) => a.(status := AttemptCompleted)
    case Failed(code) => a.(status := AttemptFailed, errorCode := code)
    case Canceled => a.(status := AttemptCanceled, errorCode := "canceled")
  }

  function EndedTurn(t: Turn, a: nat, o: Outcome): Turn
    requires a < |t.attempts|
  {
    var ended := t.(status := TurnStatusOf(o), attempts := t.attempts[a := EndedAttempt(t.attempts[a], o)]);
    if o.Completed? then ended.(assistantMessageId := o.result.message.id, result := Some(o.result)) else ended
  }

  /** Complete, Fail and Cancel on the conversation just read; None when the turn or the attempt is missing. */
  function PlanFinish(c: Conversation, turnId: string, attemptId: string, o: Outcome): Option<Conversation> {
    var i := TurnIndex(c.turns, turnId);
    if i < 0 then None
    else
      var a := AttemptIndex(c.turns[i].attempts, attemptId);
      if a < 0 then None
      else
        Some(Conversation(
          if o.Completed? then c.messages + [o.result.message] else c.messages,
          c.turns[i := EndedTurn(c.turns[i], a, o)]))
  }

  // ----- What the decisions are, case by case

  predicate AttemptUsed(t: Turn, attemptId: string) {
    exists k :: 0 <= k < |t.attempts| && t.attempts[k].id == attemptId
  }

  /** The first message with the turn's user message id has the content. */
  predicate FirstContentIs(messages: seq<Message>, id: string, content: string) {
    exists m :: 0 <= m < |messages| && messages[m].id == id && messages[m].content == content
                && forall j :: 0 <= j < m ==> messages[j].id != id
  }

  predicate AnyMessage(messages: seq<Message>, id: string) {
    exists m :: 0 <= m < |messages| && messages[m].id == id
  }

  /** Nothing but turn i differs. */
  predicate OnlyTurn(before: seq<Turn>, after: seq<Turn>, i: nat) {
    |after| == |before| && forall k :: 0 <= k < |before| && k != i ==> after[k] == before[k]
  }

  /** Begin on a turn that is stored, whatever its status: a session exists exactly when the first message with
      the turn's user message id has the content of the request and the attempt id is not used on the turn; it is
      a replay exactly when the turn is completed and has a result, and otherwise reopens the turn. */
  lemma BeginOnStoredTurn(c: Conversation, req: TurnRequest, requestId: string)
    requires TurnIndex(c.turns, req.turnId) >= 0
    ensures var i := TurnIndex(c.turns, req.turnId);
            var t, p := c.turns[i], PlanBegin(c, req, requestId);
            var same := FirstContentIs(c.messages, t.userMessageId, req.message.content);
            && (!p.Reject? <==> same && !AttemptUsed(t, req.attemptId))
            && (p.Replay? <==> !p.Reject? && t.status == TurnCompleted && t.result.Some?)
            && (p.Replay? ==> t.result == Some(p.result))
            && (!AnyMessage(c.messages, t.userMessageId) ==> p == Reject(TurnUserMessageMissing))
            && (AnyMessage(c.messages, t.userMessageId) && !same ==> p == Reject(TurnContentMismatch))
            && (same && AttemptUsed(t, req.attemptId) ==> p == Reject(AttemptExists))
            && (p.Write? ==> p.conversation.messages == c.messages && OnlyTurn(c.turns, p.conversation.turns, i)
                             && Reopened(t, p.conversation.turns[i], req.attemptId, requestId))
  {
    var i := TurnIndex(c.turns, req.turnId);
    var t := c.turns[i];
    var m := MessageIndex(c.messages, t.userMessageId);
    var a := AttemptIndex(t.attempts, req.attemptId);
    if m >= 0 { assert c.messages[m].id == t.userMessageId; }
  }

  /** The turn has one more attempt, which is generating, and is open; nothing else of it changed. */
  predicate Reopened(before: Turn, after: Turn, attemptId: string, requestId: string) {
    && after.id == before.id && after.userMessageId == before.userMessageId
    && after.assistantMessageId == before.assistantMessageId && after.result == before.result
    && after.status == TurnOpen
    && |after.attempts| == |before.attempts| + 1 && after.attempts[..|before.attempts|] == before.attempts
    && var a := after.attempts[|before.attempts|];
       a.id == attemptId && a.status == Generating && a.requestId == requestId && a.errorCode == ""
  }

  /** Begin on a turn that is not stored always opens it: its message and an open turn with one attempt are
      appended, and nothing else changes. */
  lemma BeginOnNewTurn(c: Conversation, req: TurnRequest, requestId: string)
    requires forall i :: 0 <= i < |c.turns| ==> c.turns[i].id != req.turnId
    ensures var p := PlanBegin(c, req, requestId);
            && p.Write?
            && |p.conversation.messages| == |c.messages| + 1 && p.conversation.messages[..|c.messages|] == c.messages
            && p.conversation.messages[|c.messages|] == req.message
            && |p.conversation.turns| == |c.turns| + 1 && p.conversation.turns[..|c.turns|] == c.turns
            && OpenedBy(p.conversation.turns[|c.turns|], req, requestId)
  {
  }

  /** A request may get a session: its turn is new, or has its content and does not know its attempt. */
  predicate Acceptable(c: Conversation, req: TurnRequest) {
    var i := TurnIndex(c.turns, req.turnId);
    i >= 0 ==> FirstContentIs(c.messages, c.turns[i].userMessageId, req.message.content) && !AttemptUsed(c.turns[i], req.attemptId)
  }

  predicate AlreadyAnswered(c: Conversation, req: TurnRequest) {
    var i := TurnIndex(c.turns, req.turnId);
    i >= 0 && c.turns[i].status == TurnCompleted && c.turns[i].result.Some?
  }

  /** The result of the turn with that id, if there is one. */
  function StoredResult(c: Conversation, turnId: string): Option<AgentResult> {
    var i := TurnIndex(c.turns, turnId);
    if i < 0 then None else c.turns[i].result
  }

  /** What Begin saves: a new turn with its message, or the old turn reopened. */
  predicate OpensTurn(c: Conversation, after: Conversation, req: TurnRequest, requestId: string) {
    var i := TurnIndex(c.turns, req.turnId);
    if i >= 0 then
      after.messages == c.messages && OnlyTurn(c.turns, after.turns, i) && Reopened(c.turns[i], after.turns[i], req.attemptId, requestId)
    else
      && |after.messages| == |c.messages| + 1 && after.messages[..|c.messages|] == c.messages
      && after.messages[|c.messages|] == req.message
      && |after.turns| == |c.turns| + 1 && after.turns[..|c.turns|] == c.turns
      && OpenedBy(after.turns[|c.turns|], req, requestId)
  }

  predicate OpenedBy(t: Turn, req: TurnRequest, requestId: string) {
    && t.id == req.turnId && t.userMessageId == req.message.id && t.assistantMessageId == ""
    && t.status == TurnOpen && t.result == None && |t.attempts| == 1
    && t.attempts[0].id == req.attemptId && t.attempts[0].status == Generating
    && t.attempts[0].requestId == requestId && t.attempts[0].errorCode == ""
  }

  lemma BeginExactly(c: Conversation, req: TurnRequest, requestId: string)
    ensures var p := PlanBegin(c, req, requestId);
            && (!p.Reject? <==> Acceptable(c, req))
            && (p.Replay? <==> Acceptable(c, req) && AlreadyAnswered(c, req))
            && (p.Replay? ==> StoredResult(c, req.turnId) == Some(p.result))
            && (p.Write? ==> OpensTurn(c, p.conversation, req, requestId))
  {
    hide PlanBegin, FirstContentIs, AttemptUsed, Reopened, OnlyTurn;
    if TurnIndex(c.turns, req.turnId) >= 0 { BeginOnStoredTurn(c, req, requestId); } else { BeginOnNewTurn(c, req, requestId); }
  }

  /** How an ended turn and its attempt differ from before, for each of the three ends. */
  predicate EndedAs(before: Turn, after: Turn, a: nat, o: Outcome) {
    && after.id == before.id && after.userMessageId == before.userMessageId
    && |after.attempts| == |before.attempts| && a < |before.attempts|
    && (forall k :: 0 <= k < |before.attempts| && k != a ==> after.attempts[k] == before.attempts[k])
    && var x, y := before.attempts[a], after.attempts[a];
       && y.id == x.id && y.requestId == x.requestId
       && match o
          case Completed(result) =>
            && after.status == TurnCompleted && after.assistantMessageId == result.message.id && after.result == Some(result)
            && y.status == AttemptCompleted && y.errorCode == x.errorCode
          case Failed(code) =>
            && after.status == TurnFailed && after.assistantMessageId == before.assistantMessageId && after.result == before.result
            && y.status == AttemptFailed && y.errorCode == code
          case Canceled =>
            && after.status == TurnCanceled && after.assistantMessageId == before.assistantMessageId && after.result == before.result
            && y.status == AttemptCanceled && y.errorCode == "canceled"
  }

  /** Complete appends exactly its answer, Fail and Cancel no message; turn and attempt end as the outcome says
      and nothing else changes. */
  lemma FinishExactly(c: Conversation, turnId: string, attemptId: string, o: Outcome)
    ensures var i := TurnIndex(c.turns, turnId);
            var p := PlanFinish(c, turnId, attemptId, o);
            && (p.Some? <==> i >= 0 && AttemptIndex(c.turns[i].attempts, attemptId) >= 0)
            && (p.Some? ==>
                  && p.value.messages == (if o.Completed? then c.messages + [o.result.message] else c.messages)
                  && OnlyTurn(c.turns, p.value.turns, i)
                  && EndedAs(c.turns[i], p.value.turns[i], AttemptIndex(c.turns[i].attempts, attemptId), o))
  {
  }

  /** The stored conversation is the earlier one with the turn and the attempt ended; a completed turn's answer
      is its last message, and nothing else is different. */
  predicate EndsTurn(before: Conversation, after: Conversation, turnId: string, attemptId: string, o: Outcome) {
    var i := TurnIndex(before.turns, turnId);
    && i >= 0
    && after.messages == (if o.Completed? then before.messages + [o.result.message] else before.messages)
    && OnlyTurn(before.turns, after.turns, i)
    && AttemptIndex(before.turns[i].attempts, attemptId) >= 0
    && EndedAs(before.turns[i], after.turns[i], AttemptIndex(before.turns[i].attempts, attemptId), o)
  }

  predicate AttemptIs(t: Turn, attemptId: string, status: AttemptStatus) {
    var a := AttemptIndex(t.attempts, attemptId); a >= 0 && t.attempts[a].status == status
  }

  predicate AttemptCodeIs(t: Turn, attemptId: string, code: string) {
    var a := AttemptIndex(t.attempts, attemptId); a >= 0 && t.attempts[a].errorCode == code
  }

  /** The conversation as it stands after the attempt has ended the turn. */
  predicate TurnEnded(c: Conversation, turnId: string, attemptId: string, o: Outcome) {
    var i := TurnIndex(c.turns, turnId);
    && i >= 0
    && var t := c.turns[i];
       match o
       case Completed(result) =>
         && t.status == TurnCompleted && t.assistantMessageId == result.message.id && t.result == Some(result)
         && AttemptIs(t, attemptId, AttemptCompleted)
         && c.messages != [] && c.messages[|c.messages| - 1] == result.message
       case Failed(code) => t.status == TurnFailed && AttemptIs(t, attemptId, AttemptFailed) && AttemptCodeIs(t, attemptId, code)
       case Canceled => t.status == TurnCanceled && AttemptIs(t, attemptId, AttemptCanceled) && AttemptCodeIs(t, attemptId, "canceled")
  }

  lemma EndedTurnIsSeen(before: Conversation, after: Conversation, turnId: string, attemptId: string, o: Outcome)
    requires EndsTurn(before, after, turnId, attemptId, o)
    ensures TurnEnded(after, turnId, attemptId, o)
  {
    var i := TurnIndex(before.turns, turnId);
    var t := after.turns[i];
    var a := AttemptIndex(before.turns[i].attempts, attemptId);
    TurnIndexIs(after.turns, turnId, i);
    AttemptIndexIs(t.attempts, attemptId, a);
  }

  lemma TurnIndexIs(turns: seq<Turn>, id: string, i: nat)
    requires i < |turns| && turns[i].id == id && forall k :: 0 <= k < i ==> turns[k].id != id
    ensures TurnIndex(turns, id) == i
  {
  }

  lemma AttemptIndexIs(attempts: seq<Attempt>, id: string, a: nat)
    requires a < |attempts| && attempts[a].id == id && forall k :: 0 <= k < a ==> attempts[k].id != id
    ensures AttemptIndex(attempts, id) == a
  {
  }

  // ----- What every stored conversation keeps

  /** How many stored messages carry the id. */
  function Stored(messages: seq<Message>, id: string): nat {
    if messages == [] then 0
    else Stored(messages[..|messages| - 1], id) + if messages[|messages| - 1].id == id then 1 else 0
  }

  /** The messages with the id that a turn accounts for: its user message, and its answer once it is completed. */
  function TurnAccounts(t: Turn, id: string): nat {
    (if t.userMessageId == id then 1 else 0) + (if t.status == TurnCompleted && t.assistantMessageId == id then 1 else 0)
  }

  function Accounted(turns: seq<Turn>, id: string): nat {
    if turns == [] then 0 else Accounted(turns[..|turns| - 1], id) + TurnAccounts(turns[|turns| - 1], id)
  }

  function IfCompleted(t: Turn): nat {
    if t.status == TurnCompleted then 1 else 0
  }

  function CompletedTurns(turns: seq<Turn>): nat {
    if turns == [] then 0 else CompletedTurns(turns[..|turns| - 1]) + IfCompleted(turns[|turns| - 1])
  }

  predicate TurnWellFormed(t: Turn) {
    && t.attempts != []
    && (forall i, j :: 0 <= i < j < |t.attempts| ==> t.attempts[i].id != t.attempts[j].id)
    && (t.status == TurnCompleted <==> t.result.Some?)
    && (t.status == TurnCompleted ==> t.assistantMessageId == t.result.value.message.id)
    // exactly one attempt produced the answer of a completed turn, and no attempt of another turn did
    && (forall i, j :: 0 <= i < j < |t.attempts| && t.attempts[i].status == AttemptCompleted ==>
                         t.attempts[j].status != AttemptCompleted)
    && (t.status == TurnCompleted <==> exists i :: 0 <= i < |t.attempts| && t.attempts[i].status == AttemptCompleted)
  }

  predicate TurnIdsDistinct(turns: seq<Turn>) {
    forall i, j :: 0 <= i < j < |turns| ==> turns[i].id != turns[j].id
  }

  predicate AllTurnsWellFormed(turns: seq<Turn>) {
    forall i :: 0 <= i < |turns| ==> TurnWellFormed(turns[i])
  }

  predicate UserMessagesPresent(c: Conversation) {
    forall i :: 0 <= i < |c.turns| ==> MessageIndex(c.messages, c.turns[i].userMessageId) >= 0
  }

  ghost predicate WellFormed(c: Conversation) {
    && TurnIdsDistinct(c.turns)
    && AllTurnsWellFormed(c.turns)
    && UserMessagesPresent(c)
    && Conserved(c)
  }

  /** Conservation: every stored message is a turn's user message or a completed turn's answer, and
      each of those is stored once. */
  ghost predicate Conserved(c: Conversation) {
    && (forall id :: Stored(c.messages, id) == Accounted(c.turns, id))
    && |c.messages| == |c.turns| + CompletedTurns(c.turns)
  }

  /** The only ways a turn may differ from an earlier version of itself. */
  predicate TurnGrew(before: Turn, after: Turn) {
    && before.id == after.id
    && before.userMessageId == after.userMessageId
    && |before.attempts| <= |after.attempts|
    && (forall i :: 0 <= i < |before.attempts| ==> before.attempts[i].id == after.attempts[i].id)
    && (before.status == TurnCompleted ==> after == before)
  }

  /** Messages and turns are only ever appended, and a completed turn is frozen. */
  predicate Grew(before: Conversation, after: Conversation) {
    && before.messages <= after.messages
    && |before.turns| <= |after.turns|
    && (forall i :: 0 <= i < |before.turns| ==> TurnGrew(before.turns[i], after.turns[i]))
  }

  /** A turn that is being answered by the given attempt. */
  predicate Live(c: Conversation, turnId: string, attemptId: string) {
    var i := TurnIndex(c.turns, turnId);
    && i >= 0
    && c.turns[i].status == TurnOpen
    && AttemptIndex(c.turns[i].attempts, attemptId) >= 0
    && c.turns[i].attempts[AttemptIndex(c.turns[i].attempts, attemptId)].status == Generating
  }

  predicate Committed(c: Conversation, turnId: string, content: string) {
    var i := TurnIndex(c.turns, turnId);
    i >= 0 && c.turns[i].status == TurnCompleted && c.turns[i].result.Some? && c.turns[i].result.value.message.content == content
  }

  // ----- Proofs about single decisions

  lemma {:induction false} FirstIndexKept(messages: seq<Message>, m: Message, id: string)
    ensures MessageIndex(messages, id) >= 0 ==> MessageIndex(messages + [m], id) == MessageIndex(messages, id)
    ensures MessageIndex(messages, id) < 0 ==>
              MessageIndex(messages + [m], id) == if m.id == id then |messages| else -1
  {
    var i, j := MessageIndex(messages, id), MessageIndex(messages + [m], id);
    assert forall k :: 0 <= k < |messages| ==> (messages + [m])[k] == messages[k];
    assert (messages + [m])[|messages|] == m;
    if i >= 0 {
      assert (messages + [m])[i].id == id;
    } else {
      assert m.id == id ==> (messages + [m])[|messages|].id == id;
    }
  }

  lemma {:induction false} AccountedUpdate(turns: seq<Turn>, i: nat, t: Turn, id: string)
    requires i < |turns|
    ensures Accounted(turns[i := t], id) + TurnAccounts(turns[i], id) == Accounted(turns, id) + TurnAccounts(t, id)
    ensures CompletedTurns(turns[i := t]) + IfCompleted(turns[i]) == CompletedTurns(turns) + IfCompleted(t)
  {
    var n := |turns| - 1;
    var after := turns[i := t];
    if i == n {
      assert after[..n] == turns[..n];
    } else {
      assert after[..n] == turns[..n][i := t] && after[n] == turns[n];
      AccountedUpdate(turns[..n], i, t, id);
    }
  }

  /** Replacing a turn and appending the messages it newly accounts for conserves messages. */
  lemma {:induction false} ReplacedTurnConserved(c: Conversation, i: nat, t: Turn, messages: seq<Message>)
    requires Conserved(c) && i < |c.turns| && t.userMessageId == c.turns[i].userMessageId
    requires c.turns[i].status != TurnCompleted
    requires t.status != TurnCompleted ==> messages == c.messages
    requires t.status == TurnCompleted ==> |messages| == |c.messages| + 1 && c.messages == messages[..|c.messages|]
                                           && messages[|c.messages|].id == t.assistantMessageId
    ensures Conserved(Conversation(messages, c.turns[i := t]))
  {
    forall id ensures Stored(messages, id) == Accounted(c.turns[i := t], id) {
      AccountedUpdate(c.turns, i, t, id);
    }
    AccountedUpdate(c.turns, i, t, "");
  }

  lemma GrewTransitive(a: Conversation, b: Conversation, c: Conversation)
    requires Grew(a, b) && Grew(b, c)
    ensures Grew(a, c)
  {
  }

  lemma {:induction false} TurnIndexStable(before: Conversation, after: Conversation, id: string)
    requires Grew(before, after)
    requires TurnIndex(before.turns, id) >= 0
    ensures TurnIndex(after.turns, id) == TurnIndex(before.turns, id)
  {
    var i, j := TurnIndex(before.turns, id), TurnIndex(after.turns, id);
    assert TurnGrew(before.turns[i], after.turns[i]);
    assert 0 <= j <= i;
    assert TurnGrew(before.turns[j], after.turns[j]);
  }

  lemma {:induction false} MessageIndexStable(before: seq<Message>, after: seq<Message>, id: string)
    requires before <= after
    requires MessageIndex(before, id) >= 0
    ensures MessageIndex(after, id) == MessageIndex(before, id)
  {
    var i, j := MessageIndex(before, id), MessageIndex(after, id);
    assert after[i] == before[i];
    assert 0 <= j <= i;
    assert after[j] == before[j];
  }

  lemma {:induction false} GrewUserMessagesPresent(before: Conversation, after: Conversation)
    requires UserMessagesPresent(before) && before.messages <= after.messages && |before.turns| <= |after.turns|
    requires forall i :: 0 <= i < |before.turns| ==> before.turns[i].userMessageId == after.turns[i].userMessageId
    requires forall i :: |before.turns| <= i < |after.turns| ==>
                           MessageIndex(after.messages, after.turns[i].userMessageId) >= 0
    ensures UserMessagesPresent(after)
  {
    forall k | 0 <= k < |after.turns| ensures MessageIndex(after.messages, after.turns[k].userMessageId) >= 0 {
      if k < |before.turns| {
        MessageIndexStable(before.messages, after.messages, before.turns[k].userMessageId);
      }
    }
  }

  lemma ReplacedTurnIds(turns: seq<Turn>, i: nat, t: Turn)
    requires TurnIdsDistinct(turns) && i < |turns| && t.id == turns[i].id
    ensures TurnIdsDistinct(turns[i := t]) && TurnIndex(turns[i := t], t.id) == i
  {
    var after := turns[i := t];
    var j := TurnIndex(after, t.id);
    assert after[i].id == t.id;
    assert 0 <= j <= i;
    assert turns[j].id == turns[i].id;
  }

  lemma ReplacedTurnGrew(c: Conversation, i: nat, t: Turn, messages: seq<Message>)
    requires i < |c.turns| && TurnGrew(c.turns[i], t) && c.messages <= messages
    ensures Grew(c, Conversation(messages, c.turns[i := t]))
  {
    var after := c.turns[i := t];
    forall k | 0 <= k < |c.turns| ensures TurnGrew(c.turns[k], after[k]) {
      if k != i { assert after[k] == c.turns[k]; }
    }
  }

  /** Replacing one unfinished turn by a grown version of it keeps the conversation in order. */
  lemma {:induction false} ReplaceTurnKeeps(c: Conversation, i: nat, t: Turn, messages: seq<Message>)
    requires WellFormed(c) && i < |c.turns| && TurnWellFormed(t) && TurnGrew(c.turns[i], t)
    requires c.turns[i].status != TurnCompleted
    requires t.status != TurnCompleted ==> messages == c.messages
    requires t.status == TurnCompleted ==> |messages| == |c.messages| + 1 && c.messages == messages[..|c.messages|]
                                           && messages[|c.messages|].id == t.assistantMessageId
    ensures var after := Conversation(messages, c.turns[i := t]);
            WellFormed(after) && Grew(c, after) && TurnIndex(after.turns, t.id) == i
  {
    var after := Conversation(messages, c.turns[i := t]);
    ReplacedTurnIds(c.turns, i, t);
    ReplacedTurnGrew(c, i, t, messages);
    GrewUserMessagesPresent(c, after);
    assert AllTurnsWellFormed(after.turns);
    ReplacedTurnConserved(c, i, t, messages);
  }

  lemma {:induction false} ReopenedTurn(t: Turn, attempt: Attempt)
    requires TurnWellFormed(t) && t.status != TurnCompleted
    requires attempt.status == Generating && AttemptIndex(t.attempts, attempt.id) < 0
    ensures var t' := t.(status := TurnOpen, attempts := t.attempts + [attempt]);
            TurnWellFormed(t') && TurnGrew(t, t') && AttemptIndex(t'.attempts, attempt.id) == |t.attempts|
  {
    var t' := t.(status := TurnOpen, attempts := t.attempts + [attempt]);
    assert forall k :: 0 <= k < |t.attempts| ==> t'.attempts[k] == t.attempts[k];
    assert t'.attempts[|t.attempts|] == attempt;
  }

  lemma {:induction false} EndedTurnWellFormed(t: Turn, a: nat, o: Outcome)
    requires TurnWellFormed(t) && t.status == TurnOpen && a < |t.attempts| && t.attempts[a].status == Generating
    ensures TurnWellFormed(EndedTurn(t, a, o)) && TurnGrew(t, EndedTurn(t, a, o))
  {
    var t' := EndedTurn(t, a, o);
    assert forall k :: 0 <= k < |t.attempts| && k != a ==> t'.attempts[k] == t.attempts[k];
    assert t'.attempts[a] == EndedAttempt(t.attempts[a], o);
  }

  lemma AppendedTurn(c: Conversation, t: Turn, m: Message)
    requires TurnIdsDistinct(c.turns) && TurnIndex(c.turns, t.id) < 0
    ensures var turns := c.turns + [t];
            && TurnIdsDistinct(turns) && TurnIndex(turns, t.id) == |c.turns|
            && Grew(c, Conversation(c.messages + [m], turns))
  {
    var turns := c.turns + [t];
    assert forall k :: 0 <= k < |c.turns| ==> turns[k] == c.turns[k];
    assert turns[|c.turns|] == t;
    assert TurnIndex(turns, t.id) == |c.turns|;
    assert TurnIdsDistinct(turns);
    assert (c.messages + [m])[..|c.messages|] == c.messages;
  }

  lemma AppendedTurnConserved(c: Conversation, t: Turn, m: Message)
    requires Conserved(c) && t.status != TurnCompleted && t.userMessageId == m.id
    ensures Conserved(Conversation(c.messages + [m], c.turns + [t]))
  {
    var messages, turns := c.messages + [m], c.turns + [t];
    assert messages[..|c.messages|] == c.messages && turns[..|c.turns|] == c.turns;
    assert messages[|messages| - 1] == m && turns[|turns| - 1] == t;
    assert CompletedTurns(turns) == CompletedTurns(c.turns);
    forall id ensures Stored(messages, id) == Accounted(turns, id) {
    }
  }

  lemma {:induction false} NewTurnKeeps(c: Conversation, t: Turn, m: Message)
    requires WellFormed(c) && TurnWellFormed(t) && t.status == TurnOpen
    requires TurnIndex(c.turns, t.id) < 0 && t.userMessageId == m.id
    ensures var after := Conversation(c.messages + [m], c.turns + [t]);
            WellFormed(after) && Grew(c, after) && TurnIndex(after.turns, t.id) == |c.turns|
  {
    var after := Conversation(c.messages + [m], c.turns + [t]);
    AppendedTurn(c, t, m);
    assert after.turns[..|c.turns|] == c.turns;
    assert after.messages[..|c.messages|] == c.messages;
    forall k | 0 <= k < |after.turns| ensures TurnWellFormed(after.turns[k]) {
      assert after.turns[k] == if k < |c.turns| then c.turns[k] else t;
    }
    AppendedTurnConserved(c, t, m);
    FirstIndexKept(c.messages, m, m.id);
    GrewUserMessagesPresent(c, after);
  }

  /** Begin never loses or rewrites anything, and leaves its own attempt generating. */
  lemma {:induction false} BeginKeeps(c: Conversation, req: TurnRequest, requestId: string)
    requires WellFormed(c) && PlanBegin(c, req, requestId).Write?
    ensures var after := PlanBegin(c, req, requestId).conversation;
            WellFormed(after) && Grew(c, after) && Live(after, req.turnId, req.attemptId)
  {
    var i := TurnIndex(c.turns, req.turnId);
    var attempt := OpenAttempt(req.attemptId, requestId);
    if i >= 0 {
      ReopenedTurn(c.turns[i], attempt);
      ReplaceTurnKeeps(c, i, c.turns[i].(status := TurnOpen, attempts := c.turns[i].attempts + [attempt]), c.messages);
    } else {
      var t := Turn(req.turnId, req.message.id, "", TurnOpen, [attempt], None);
      assert t.attempts[0].status == Generating;
      NewTurnKeeps(c, t, req.message);
      assert AttemptIndex(t.attempts, req.attemptId) == 0;
    }
  }

  /** Ending a live attempt always finds its turn and attempt; only Complete commits an answer. */
  lemma {:induction false} FinishKeeps(c: Conversation, turnId: string, attemptId: string, o: Outcome)
    requires WellFormed(c) && Live(c, turnId, attemptId)
    ensures var p := PlanFinish(c, turnId, attemptId, o);
            && p.Some? && WellFormed(p.value) && Grew(c, p.value)
            && TurnIndex(p.value.turns, turnId) == TurnIndex(c.turns, turnId)
            && p.value.turns[TurnIndex(c.turns, turnId)].status == TurnStatusOf(o)
            && (o.Completed? ==> Committed(p.value, turnId, o.result.message.content))
            && (o.Completed? ==> p.value.turns[TurnIndex(c.turns, turnId)].result == Some(o.result))
  {
    var i := TurnIndex(c.turns, turnId);
    var a := AttemptIndex(c.turns[i].attempts, attemptId);
    var after := PlanFinish(c, turnId, attemptId, o).value;
    assert TurnWellFormed(c.turns[i]);
    EndedTurnWellFormed(c.turns[i], a, o);
    if o.Completed? { assert after.messages[..|c.messages|] == c.messages; }
    ReplaceTurnKeeps(c, i, EndedTurn(c.turns[i], a, o), after.messages);
    assert after.turns[i] == EndedTurn(c.turns[i], a, o);
  }
}
