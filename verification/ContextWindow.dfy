/** The history a model sees: the projection of a conversation to its completed turns and the
    active one, and the short-term window over it. */
module ContextWindows {
  import opened Text
  import opened TurnRecords
  import Normalization

  // ----- Projection

  function TurnAllows(t: Turn, active: string): set<string> {
    if t.status == TurnCompleted then
      {t.userMessageId} + if t.assistantMessageId != "" then {t.assistantMessageId} else {}
    else if t.status == TurnOpen && t.id == active then {t.userMessageId}
    else {}
  }

  /** The message ids that may be shown while the given turn is active. */
  function Allowed(turns: seq<Turn>, active: string): (ids: set<string>)
    ensures forall id :: id in ids <==> exists i :: 0 <= i < |turns| && id in TurnAllows(turns[i], active)
  {
    if turns == [] then {}
    else
      var n := |turns| - 1;
      assert forall i :: 0 <= i < n ==> turns[i] == turns[..n][i];
      Allowed(turns[..n], active) + TurnAllows(turns[n], active)
  }

  predicate Shown(m: Message, allowed: set<string>) {
    m.role == System || m.id in allowed
  }

  function Projected(messages: seq<Message>, allowed: set<string>): seq<Message> {
    if messages == [] then []
    else
      var n := |messages| - 1;
      Projected(messages[..n], allowed) + if Shown(messages[n], allowed) then [messages[n]] else []
  }

  /** What a turn lets be shown: a completed one its user message and its answer, the open active one its user message. */
  predicate TurnShows(t: Turn, active: string, id: string) {
    || (t.status == TurnCompleted && (id == t.userMessageId || (id == t.assistantMessageId && id != "")))
    || (t.status == TurnOpen && t.id == active && id == t.userMessageId)
  }

  predicate MayBeSeen(c: Conversation, active: string, m: Message) {
    m.role == System || exists k :: 0 <= k < |c.turns| && TurnShows(c.turns[k], active, m.id)
  }

  /** The messages at the given positions, in stored order. */
  predicate TakenAt(projected: seq<Message>, messages: seq<Message>, at: seq<nat>) {
    && |at| == |projected|
    && (forall k :: 0 <= k < |at| ==> at[k] < |messages| && projected[k] == messages[at[k]])
    && (forall j, k :: 0 <= j < k < |at| ==> at[j] < at[k])
  }

  ghost predicate AtExactly(part: seq<Message>, messages: seq<Message>, keep: Message -> bool, at: seq<nat>) {
    && TakenAt(part, messages, at)
    && forall i: nat :: i < |messages| ==> (i in at <==> keep(messages[i]))
  }

  /** All messages that are to be kept and no others, in stored order. */
  ghost predicate PartOf(part: seq<Message>, messages: seq<Message>, keep: Message -> bool) {
    exists at: seq<nat> :: AtExactly(part, messages, keep, at)
  }

  lemma PartStep(part: seq<Message>, messages: seq<Message>, keep: Message -> bool, m: Message)
    requires PartOf(part, messages, keep)
    ensures PartOf(if keep(m) then part + [m] else part, messages + [m], keep)
  {
    hide AtExactly;
    var at: seq<nat> :| AtExactly(part, messages, keep, at);
    if keep(m) { PartTakes(part, messages, keep, m, at); } else { PartSkips(part, messages, keep, m, at); }
  }

  lemma PartTakes(part: seq<Message>, messages: seq<Message>, keep: Message -> bool, m: Message, at: seq<nat>)
    requires AtExactly(part, messages, keep, at) && keep(m)
    ensures AtExactly(part + [m], messages + [m], keep, at + [|messages|])
  {
    forall i: nat | i < |messages| + 1 ensures i in at + [|messages|] <==> keep((messages + [m])[i]) {
      if i < |messages| { assert i in at + [|messages|] <==> i in at; }
    }
  }

  lemma PartSkips(part: seq<Message>, messages: seq<Message>, keep: Message -> bool, m: Message, at: seq<nat>)
    requires AtExactly(part, messages, keep, at) && !keep(m)
    ensures AtExactly(part, messages + [m], keep, at)
  {
  }

  lemma NoPart(keep: Message -> bool)
    ensures PartOf([], [], keep)
  {
    var at: seq<nat> := [];
    assert AtExactly([], [], keep, at);
  }

  lemma SameKeep(part: seq<Message>, messages: seq<Message>, keep: Message -> bool, other: Message -> bool)
    requires PartOf(part, messages, keep) && forall m :: m in messages ==> (keep(m) <==> other(m))
    ensures PartOf(part, messages, other)
  {
    var at: seq<nat> :| AtExactly(part, messages, keep, at);
    assert AtExactly(part, messages, other, at);
  }

  lemma AllowedMeans(c: Conversation, active: string, m: Message)
    ensures Shown(m, Allowed(c.turns, active)) <==> MayBeSeen(c, active, m)
  {
    forall k | 0 <= k < |c.turns| ensures m.id in TurnAllows(c.turns[k], active) <==> TurnShows(c.turns[k], active, m.id) {}
  }

  lemma ProjectedStep(messages: seq<Message>, m: Message, allowed: set<string>)
    ensures Projected(messages + [m], allowed) == Projected(messages, allowed) + if Shown(m, allowed) then [m] else []
    ensures Projected([], allowed) == []
  {
    assert (messages + [m])[..|messages|] == messages;
  }

  lemma {:induction false} ProjectedPart(messages: seq<Message>, allowed: set<string>)
    ensures PartOf(Projected(messages, allowed), messages, (m: Message) => Shown(m, allowed))
  {
    hide Shown, Projected, PartOf;
    var keep := (m: Message) => Shown(m, allowed);
    ProjectedStep([], Message("", User, ""), allowed);
    if messages == [] {
      NoPart(keep);
    } else {
      var n := |messages| - 1;
      var before := Projected(messages[..n], allowed);
      ProjectedPart(messages[..n], allowed);
      ProjectedStep(messages[..n], messages[n], allowed);
      PartStep(before, messages[..n], keep, messages[n]);
      assert messages == messages[..n] + [messages[n]] && before + [] == before;
    }
  }

  /** The projection is exactly the messages that may be seen, in stored order. */
  lemma ProjectedExactly(c: Conversation, active: string)
    ensures PartOf(Projected(c.messages, Allowed(c.turns, active)), c.messages, (m: Message) => MayBeSeen(c, active, m))
  {
    hide Allowed, Projected, Shown, MayBeSeen, PartOf;
    var allowed := Allowed(c.turns, active);
    ProjectedPart(c.messages, allowed);
    forall m | m in c.messages ensures Shown(m, allowed) <==> MayBeSeen(c, active, m) { AllowedMeans(c, active, m); }
    SameKeep(Projected(c.messages, allowed), c.messages, (m: Message) => Shown(m, allowed), (m: Message) => MayBeSeen(c, active, m));
  }

  lemma AllowedStep(turns: seq<Turn>, i: nat, active: string)
    requires i < |turns|
    ensures Allowed(turns[..i + 1], active) == Allowed(turns[..i], active) + TurnAllows(turns[i], active)
  {
    hide TurnAllows;
    assert turns[..i + 1][..i] == turns[..i];
  }

  lemma NothingAllowed(active: string)
    ensures Allowed([], active) == {}
  {
  }

  method ProjectConversation(c: Conversation, active: string) returns (projected: seq<Message>)
    ensures projected == Projected(c.messages, Allowed(c.turns, active))
    ensures PartOf(projected, c.messages, (m: Message) => MayBeSeen(c, active, m))
  {
    hide PartOf, Allowed, Projected;
    NothingAllowed(active);
    var allowed := {};
    assert c.turns[..0] == [] && c.messages[..0] == [];
    for i := 0 to |c.turns|
      invariant allowed == Allowed(c.turns[..i], active)
    {
      AllowedStep(c.turns, i, active);
      var turn := c.turns[i];
      if turn.status == TurnCompleted {
        allowed := allowed + {turn.userMessageId};
        if turn.assistantMessageId != "" {
          allowed := allowed + {turn.assistantMessageId};
        }
      } else if turn.status == TurnOpen {
        if turn.id == active {
          allowed := allowed + {turn.userMessageId};
        }
      }
    }
    assert c.turns[..|c.turns|] == c.turns;
    projected := [];
    NothingProjected(allowed);
    for i := 0 to |c.messages|
      invariant projected == Projected(c.messages[..i], allowed)
    {
      ProjectedStep(c.messages[..i], c.messages[i], allowed);
      assert c.messages[..i + 1] == c.messages[..i] + [c.messages[i]];
      if c.messages[i].role == System || c.messages[i].id in allowed {
        projected := projected + [c.messages[i]];
      }
    }
    assert c.messages[..|c.messages|] == c.messages;
    ProjectedExactly(c, active);
  }

  // ----- The window

  function SystemOnly(messages: seq<Message>): seq<Message> {
    if messages == [] then []
    else
      var n := |messages| - 1;
      SystemOnly(messages[..n]) + if messages[n].role == System then [messages[n]] else []
  }

  function NonSystem(messages: seq<Message>): seq<Message> {
    if messages == [] then []
    else
      var n := |messages| - 1;
      NonSystem(messages[..n]) + if messages[n].role != System then [messages[n]] else []
  }

  predicate ContainsNonAscii(s: string) {
    exists i :: 0 <= i < |s| && s[i] > '\U{7f}'
  }

  predicate HasPlainSpace(s: string) {
    exists i :: 0 <= i < |s| && s[i] in " \t\r\n"
  }

  /** The cost of a message: its words, or its characters when it is one long word outside ASCII or blank. */
  function Estimate(content: string): nat {
    var words := |Fields(content)|;
    if words == 0 || (words == 1 && !HasPlainSpace(content) && ContainsNonAscii(content)) then |content| else words
  }

  /** The cost is the number of starts of words, but the number of characters for a text without any word, and
      for one word of which some character is beyond ASCII and none is a blank, tab or line break. */
  lemma EstimateMeans(content: string)
    ensures var words := Normalization.WordStarts(content, true);
            var solid := forall i :: 0 <= i < |content| ==> content[i] != ' ' && content[i] != '\t' && content[i] != '\r' && content[i] != '\n';
            var plain := forall i :: 0 <= i < |content| ==> content[i] as int < 128;
            && (words == 0 || (words == 1 && solid && !plain) ==> Estimate(content) == |content|)
            && (words > 1 || (words == 1 && (!solid || plain)) ==> Estimate(content) == words)
  {
    hide Fields, Normalization.WordStarts;
    Normalization.FieldsCount(content);
    assert forall c: char :: c in " \t\r\n" <==> c == ' ' || c == '\t' || c == '\r' || c == '\n';
  }

  predicate PairEndsAt(messages: seq<Message>, end: int) {
    2 <= end <= |messages| && messages[end - 2].role == User && messages[end - 1].role == Assistant
  }

  function PairCost(messages: seq<Message>, end: int): nat
    requires 2 <= end <= |messages|
  {
    Estimate(messages[end - 2].content) + Estimate(messages[end - 1].content)
  }

  /** How many user and assistant pairs in a row, going back from end, fit the budget. */
  function FittingPairs(messages: seq<Message>, end: int, remaining: int): (n: nat)
    requires end <= |messages|
    ensures 2 * n <= if end < 0 then 0 else end
    decreases end
  {
    if PairEndsAt(messages, end) && PairCost(messages, end) <= remaining
    then 1 + FittingPairs(messages, end - 2, remaining - PairCost(messages, end))
    else 0
  }

  lemma FittingPairsStep(messages: seq<Message>, end: int, remaining: int)
    requires end <= |messages|
    ensures FittingPairs(messages, end, remaining) ==
            if PairEndsAt(messages, end) && PairCost(messages, end) <= remaining
            then 1 + FittingPairs(messages, end - 2, remaining - PairCost(messages, end)) else 0
  {
  }

  predicate EndsWithUser(messages: seq<Message>) {
    messages != [] && messages[|messages| - 1].role == User
  }

  function PairsEnd(messages: seq<Message>): int {
    if EndsWithUser(messages) then |messages| - 1 else |messages|
  }

  function PairsBudget(messages: seq<Message>, maxBudget: int): int {
    if EndsWithUser(messages) then maxBudget - Estimate(messages[|messages| - 1].content) else maxBudget
  }

  function Selected(messages: seq<Message>, maxBudget: int): seq<Message> {
    var end := PairsEnd(messages);
    messages[end - 2 * FittingPairs(messages, end, PairsBudget(messages, maxBudget))..]
  }

  function TotalCost(messages: seq<Message>): nat {
    if messages == [] then 0 else Estimate(messages[0].content) + TotalCost(messages[1..])
  }

  lemma TotalStep(m: Message, rest: seq<Message>)
    ensures TotalCost([m] + rest) == Estimate(m.content) + TotalCost(rest)
    ensures TotalCost([]) == 0
  {
    hide Estimate;
    assert ([m] + rest)[1..] == rest;
  }

  /** User and assistant messages in turn, as many of each. */
  predicate Pairs(messages: seq<Message>) {
    && |messages| % 2 == 0
    && forall i :: 0 <= i < |messages| ==> messages[i].role == if i % 2 == 0 then User else Assistant
  }

  /** What is kept of the messages: a last user message in any case; before it only pairs, with which
      all that is kept is within the budget; and one pair more would be beyond it. */
  predicate KeepsBest(messages: seq<Message>, maxBudget: int, selected: seq<Message>) {
    var k := |messages| - |selected|;
    var tail := if messages != [] && messages[|messages| - 1].role == User then 1 else 0;
    && k >= 0 && selected == messages[k..] && |selected| >= tail
    && Pairs(selected[..|selected| - tail])
    && (|selected| > tail ==> TotalCost(selected) <= maxBudget)
    && (k >= 2 && messages[k - 2].role == User && messages[k - 1].role == Assistant ==> TotalCost(messages[k - 2..]) > maxBudget)
  }

  lemma CostOfTwo(messages: seq<Message>, k: nat)
    requires k + 2 <= |messages|
    ensures TotalCost(messages[k..]) == PairCost(messages, k + 2) + TotalCost(messages[k + 2..])
  {
    hide Estimate, TotalCost;
    TotalStep(messages[k], messages[k + 1..]);
    TotalStep(messages[k + 1], messages[k + 2..]);
    assert messages[k..] == [messages[k]] + messages[k + 1..];
    assert messages[k + 1..] == [messages[k + 1]] + messages[k + 2..];
  }

  lemma MorePairs(messages: seq<Message>, k: nat, end: nat)
    requires k + 2 <= end <= |messages| && Pairs(messages[k + 2..end]) && PairEndsAt(messages, k + 2)
    ensures Pairs(messages[k..end])
  {
    var before, after := messages[k + 2..end], messages[k..end];
    forall i | 0 <= i < |after| ensures after[i].role == if i % 2 == 0 then User else Assistant {
      if i >= 2 { assert after[i] == before[i - 2]; }
    }
  }

  /** From position k on the messages are kept, up to last in pairs, and no pair more. */
  predicate KeptFrom(messages: seq<Message>, k: int, last: nat, maxBudget: int) {
    && 0 <= k <= last <= |messages| && Pairs(messages[k..last])
    && (k < last ==> TotalCost(messages[k..]) <= maxBudget)
    && (k >= 2 && messages[k - 2].role == User && messages[k - 1].role == Assistant ==> TotalCost(messages[k - 2..]) > maxBudget)
  }

  lemma KeptStops(messages: seq<Message>, end: nat, last: nat, maxBudget: int)
    requires end <= last <= |messages| && Pairs(messages[end..last])
    requires end < last ==> TotalCost(messages[end..]) <= maxBudget
    requires PairEndsAt(messages, end) ==> PairCost(messages, end) > maxBudget - TotalCost(messages[end..])
    ensures KeptFrom(messages, end, last, maxBudget)
  {
    hide Estimate, TotalCost, Pairs, PairCost;
    if PairEndsAt(messages, end) { CostOfTwo(messages, end - 2); }
  }

  /** The pairs before position end are added as long as the budget lasts. */
  lemma {:induction false} FittingKeeps(messages: seq<Message>, end: nat, last: nat, maxBudget: int)
    requires end <= last <= |messages| && Pairs(messages[end..last])
    requires end < last ==> TotalCost(messages[end..]) <= maxBudget
    ensures KeptFrom(messages, end - 2 * FittingPairs(messages, end, maxBudget - TotalCost(messages[end..])), last, maxBudget)
    decreases end
  {
    hide Estimate, TotalCost, Pairs, PairCost, FittingPairs, KeptFrom;
    var remaining := maxBudget - TotalCost(messages[end..]);
    FittingPairsStep(messages, end, remaining);
    if PairEndsAt(messages, end) && PairCost(messages, end) <= remaining {
      CostOfTwo(messages, end - 2);
      MorePairs(messages, end - 2, last);
      FittingKeeps(messages, end - 2, last, maxBudget);
    } else {
      KeptStops(messages, end, last, maxBudget);
    }
  }

  lemma SelectedKeepsBest(messages: seq<Message>, maxBudget: int)
    ensures KeepsBest(messages, maxBudget, Selected(messages, maxBudget))
  {
    hide Estimate, TotalCost, Pairs, FittingPairs, PairCost;
    var end := PairsEnd(messages);
    NoPairs(messages, end);
    assert messages[|messages|..] == [];
    TotalStep(Message("", User, ""), []);
    if EndsWithUser(messages) {
      TotalStep(messages[end], []);
      assert messages[end..] == [messages[end]] + [];
    }
    assert PairsBudget(messages, maxBudget) == maxBudget - TotalCost(messages[end..]);
    FittingKeeps(messages, end, end, maxBudget);
    var selected := Selected(messages, maxBudget);
    var k := |messages| - |selected|;
    assert selected[..|selected| - (|messages| - end)] == messages[k..end];
  }

  lemma NoPairs(messages: seq<Message>, end: nat)
    requires end <= |messages|
    ensures Pairs(messages[end..end])
  {
  }

  lemma TwoInFront(messages: seq<Message>, i: nat)
    requires 1 <= i < |messages|
    ensures messages[i - 1..] == [messages[i - 1], messages[i]] + messages[i + 1..]
  {
  }

  method SelectRecentTurns(messages: seq<Message>, maxBudget: int) returns (selected: seq<Message>)
    ensures selected == Selected(messages, maxBudget)
    ensures KeepsBest(messages, maxBudget, selected)
  {
    hide Estimate, FittingPairs, KeepsBest, TotalCost, Pairs;
    SelectedKeepsBest(messages, maxBudget);
    if |messages| == 0 { return []; }
    selected := [];
    var remaining := maxBudget;
    var index := |messages| - 1;
    if messages[index].role == User {
      selected := [messages[index]] + selected;
      remaining := remaining - Estimate(messages[index].content);
      index := index - 1;
    }
    ghost var end := PairsEnd(messages);
    ghost var all := FittingPairs(messages, end, PairsBudget(messages, maxBudget));
    assert messages[end..] == selected;
    while index >= 1
      invariant -1 <= index < |messages|
      invariant selected == messages[index + 1..]
      invariant end - 2 * all == index + 1 - 2 * FittingPairs(messages, index + 1, remaining)
      decreases index
    {
      FittingPairsStep(messages, index + 1, remaining);
      var assistant, user := messages[index], messages[index - 1];
      if assistant.role != Assistant || user.role != User { break; }
      var pairCost := Estimate(user.content) + Estimate(assistant.content);
      if pairCost > remaining { break; }
      TwoInFront(messages, index);
      selected := [user, assistant] + selected;
      remaining := remaining - pairCost;
      index := index - 2;
    }
    if index < 1 { FittingPairsStep(messages, index + 1, remaining); }
  }

  function Window(messages: seq<Message>, maxBudget: int): seq<Message> {
    SystemOnly(messages) + Selected(NonSystem(messages), maxBudget)
  }

  predicate FromSystem(m: Message) {
    m.role == System
  }

  predicate FromOthers(m: Message) {
    m.role != System
  }

  lemma PartsStep(messages: seq<Message>, m: Message)
    ensures SystemOnly(messages + [m]) == if m.role == System then SystemOnly(messages) + [m] else SystemOnly(messages)
    ensures NonSystem(messages + [m]) == if m.role != System then NonSystem(messages) + [m] else NonSystem(messages)
    ensures SystemOnly([]) == [] && NonSystem([]) == []
  {
    assert (messages + [m])[..|messages|] == messages;
  }

  lemma {:induction false} PartsExactly(messages: seq<Message>)
    ensures PartOf(SystemOnly(messages), messages, FromSystem)
    ensures PartOf(NonSystem(messages), messages, FromOthers)
  {
    hide PartOf, SystemOnly, NonSystem;
    PartsStep([], Message("", User, ""));
    if messages == [] {
      NoPart(FromSystem);
      NoPart(FromOthers);
    } else {
      var n := |messages| - 1;
      PartsExactly(messages[..n]);
      PartsStep(messages[..n], messages[n]);
      PartStep(SystemOnly(messages[..n]), messages[..n], FromSystem, messages[n]);
      PartStep(NonSystem(messages[..n]), messages[..n], FromOthers, messages[n]);
      assert messages == messages[..n] + [messages[n]];
    }
  }

  /** The system messages, then the best part of the others. */
  ghost predicate WindowOf(window: seq<Message>, messages: seq<Message>, maxBudget: int) {
    exists system, rest :: PartOf(system, messages, FromSystem) && PartOf(rest, messages, FromOthers)
                           && system <= window && KeepsBest(rest, maxBudget, window[|system|..])
  }

  lemma WindowExactly(messages: seq<Message>, maxBudget: int)
    ensures WindowOf(Window(messages, maxBudget), messages, maxBudget)
  {
    hide SystemOnly, NonSystem, Selected, KeepsBest, PartOf;
    PartsExactly(messages);
    var system, rest := SystemOnly(messages), NonSystem(messages);
    SelectedKeepsBest(rest, maxBudget);
    assert Window(messages, maxBudget)[|system|..] == Selected(rest, maxBudget);
  }

  class ShortTermMemory {
    const maxBudget: int

    constructor (maxBudget: int)
      ensures this.maxBudget == maxBudget
    {
      this.maxBudget := maxBudget;
    }

    method BuildWindow(messages: seq<Message>) returns (window: seq<Message>)
      ensures window == Window(messages, maxBudget)
      ensures WindowOf(window, messages, maxBudget)
    {
      hide WindowOf, Selected;
      WindowExactly(messages, maxBudget);
      var system, nonSystem := [], [];
      for i := 0 to |messages|
        invariant system == SystemOnly(messages[..i]) && nonSystem == NonSystem(messages[..i])
      {
        assert messages[..i + 1][..i] == messages[..i];
        if messages[i].role == System { system := system + [messages[i]]; } else { nonSystem := nonSystem + [messages[i]]; }
      }
      assert messages[..|messages|] == messages;
      var selected := SelectRecentTurns(nonSystem, maxBudget);
      window := system + selected;
    }
  }

  // ----- The pairs are the longest run that fits

  predicate PairRun(messages: seq<Message>, end: int, n: nat) {
    2 * n <= end <= |messages| && (n > 0 ==> PairEndsAt(messages, end) && PairRun(messages, end - 2, n - 1))
  }

  function RunCost(messages: seq<Message>, end: int, n: nat): nat
    requires 2 * n <= end <= |messages|
  {
    if n == 0 then 0 else PairCost(messages, end) + RunCost(messages, end - 2, n - 1)
  }

  lemma {:induction false} FittingPairsLongest(messages: seq<Message>, end: int, remaining: int, n: nat)
    requires 0 <= end <= |messages|
    ensures PairRun(messages, end, FittingPairs(messages, end, remaining))
    ensures FittingPairs(messages, end, remaining) > 0 ==> RunCost(messages, end, FittingPairs(messages, end, remaining)) <= remaining
    ensures n > FittingPairs(messages, end, remaining) && PairRun(messages, end, n) ==> RunCost(messages, end, n) > remaining
    decreases end
  {
    hide Estimate, PairCost;
    if FittingPairs(messages, end, remaining) > 0 {
      FittingPairsLongest(messages, end - 2, remaining - PairCost(messages, end), if n > 0 then n - 1 else 0);
    }
  }

  /** The window is the system messages followed by a suffix of the other messages shown, made of the
      last message when it is a user's, before it the longest run of pairs that fits the rest of the
      budget, and nothing else. */
  lemma {:induction false} WindowShape(messages: seq<Message>, maxBudget: int, n: nat)
    ensures var rest := NonSystem(messages);
            var end, budget := PairsEnd(rest), PairsBudget(rest, maxBudget);
            var pairs := FittingPairs(rest, end, budget);
            && Window(messages, maxBudget) == SystemOnly(messages) + rest[end - 2 * pairs..]
            && PairRun(rest, end, pairs)
            && (pairs > 0 ==> RunCost(rest, end, pairs) <= budget)
            && (n > pairs && PairRun(rest, end, n) ==> RunCost(rest, end, n) > budget)
  {
    hide Estimate, FittingPairs, PairRun, RunCost;
    var rest := NonSystem(messages);
    FittingPairsLongest(rest, PairsEnd(rest), PairsBudget(rest, maxBudget), n);
  }

  // ----- Which message the window ends with

  predicate MessageIdsDistinct(messages: seq<Message>) {
    forall i, j :: 0 <= i < j < |messages| ==> messages[i].id != messages[j].id
  }

  /** Nothing that is shown, other than system messages, is stored after position i. */
  predicate NothingShownAfter(messages: seq<Message>, allowed: set<string>, i: int) {
    forall j :: 0 <= i < j < |messages| ==> messages[j].role == System || messages[j].id !in allowed
  }

  /** Position of the last shown message that is not a system message, or -1. */
  function LastShown(messages: seq<Message>, allowed: set<string>): (i: int)
    ensures -1 <= i < |messages|
    ensures i >= 0 ==> messages[i].role != System && messages[i].id in allowed
    ensures forall j :: i < j < |messages| ==> messages[j].role == System || messages[j].id !in allowed
  {
    if messages == [] then -1
    else
      var n := |messages| - 1;
      if messages[n].role != System && messages[n].id in allowed then n else LastShown(messages[..n], allowed)
  }

  lemma {:induction false} ShownRest(messages: seq<Message>, allowed: set<string>)
    ensures var rest, i := NonSystem(Projected(messages, allowed)), LastShown(messages, allowed);
            && (rest == [] <==> i < 0)
            && (i >= 0 ==> rest[|rest| - 1] == messages[i])
  {
    hide Projected, NonSystem;
    if messages == [] {
      NothingProjected(allowed);
    } else {
      var n := |messages| - 1;
      ShownRest(messages[..n], allowed);
      ProjectedSnoc(messages[..n], messages[n], allowed);
      assert messages[..n] + [messages[n]] == messages;
    }
  }

  lemma ProjectedSnoc(messages: seq<Message>, m: Message, allowed: set<string>)
    ensures NonSystem(Projected(messages + [m], allowed)) ==
            NonSystem(Projected(messages, allowed)) + if m.role != System && m.id in allowed then [m] else []
  {
    var before := Projected(messages, allowed);
    assert (messages + [m])[..|messages|] == messages;
    if Shown(m, allowed) {
      assert (before + [m])[..|before|] == before;
    } else {
      assert Projected(messages + [m], allowed) == before;
    }
  }

  predicate AllAllowed(rest: seq<Message>, allowed: set<string>) {
    forall k :: 0 <= k < |rest| ==> rest[k].role != System && rest[k].id in allowed
  }

  lemma NothingProjected(allowed: set<string>)
    ensures Projected([], allowed) == [] && NonSystem(Projected([], allowed)) == []
  {
  }

  lemma {:induction false} RestIsAllowed(messages: seq<Message>, allowed: set<string>)
    ensures AllAllowed(NonSystem(Projected(messages, allowed)), allowed)
  {
    hide Projected, NonSystem;
    if messages == [] {
      NothingProjected(allowed);
    } else {
      var n := |messages| - 1;
      RestIsAllowed(messages[..n], allowed);
      ProjectedSnoc(messages[..n], messages[n], allowed);
      assert messages[..n] + [messages[n]] == messages;
    }
  }

  lemma {:induction false} SystemOnlyRoles(messages: seq<Message>)
    ensures forall m :: m in SystemOnly(messages) ==> m.role == System
  {
    if messages != [] { SystemOnlyRoles(messages[..|messages| - 1]); }
  }

  /** The window shown while a turn is active ends with the user message at position i exactly when
      nothing of a completed turn is stored after it. */
  lemma {:induction false} WindowEndsWith(c: Conversation, active: string, maxBudget: int, i: nat)
    requires MessageIdsDistinct(c.messages) && i < |c.messages|
    requires c.messages[i].role == User && c.messages[i].id in Allowed(c.turns, active)
    ensures var allowed := Allowed(c.turns, active);
            var window := Window(Projected(c.messages, allowed), maxBudget);
            (window != [] && window[|window| - 1] == c.messages[i]) <==> NothingShownAfter(c.messages, allowed, i)
  {
    hide Projected, Allowed, SystemOnly, Estimate, FittingPairs, NonSystem;
    var allowed := Allowed(c.turns, active);
    var shown := Projected(c.messages, allowed);
    var last := LastShown(c.messages, allowed);
    assert last >= i;
    assert NothingShownAfter(c.messages, allowed, i) <==> last == i;
    ShownRest(c.messages, allowed);
    WindowLast(shown, maxBudget);
    assert last != i ==> c.messages[last].id != c.messages[i].id;
  }

  /** The window ends with the last message that is not a system message, or with a system message;
      it always ends with a last user message. */
  lemma WindowLast(shown: seq<Message>, maxBudget: int)
    ensures var window, rest := Window(shown, maxBudget), NonSystem(shown);
            && (window != [] ==> window[|window| - 1].role == System
                                 || (rest != [] && window[|window| - 1] == rest[|rest| - 1]))
            && (EndsWithUser(rest) ==> window != [] && window[|window| - 1] == rest[|rest| - 1])
  {
    hide Estimate, FittingPairs, PairsBudget, SystemOnly, NonSystem;
    SystemOnlyRoles(shown);
    var rest, window := NonSystem(shown), Window(shown, maxBudget);
    var selected := Selected(rest, maxBudget);
    if selected == [] {
      if window != [] { assert window[|window| - 1] in SystemOnly(shown); }
    } else {
      assert selected[|selected| - 1] == rest[|rest| - 1];
    }
  }

  predicate OfCompletedTurn(turns: seq<Turn>, m: Message) {
    exists k :: 0 <= k < |turns| && turns[k].status == TurnCompleted
                && (m.id == turns[k].userMessageId || m.id == turns[k].assistantMessageId)
  }

  lemma NewTurnShown(c0: Conversation, req: TurnRequest, requestId: string, m: Message)
    requires TurnIndex(c0.turns, req.turnId) < 0
    ensures PlanBegin(c0, req, requestId).Write?
    ensures var c := PlanBegin(c0, req, requestId).conversation;
            && |c.messages| == |c0.messages| + 1 && c.messages[|c0.messages|] == req.message
            && req.message.id in Allowed(c.turns, req.turnId)
            && (m.id in Allowed(c.turns, req.turnId) && m.id != req.message.id ==> OfCompletedTurn(c.turns, m))
  {
    var c := PlanBegin(c0, req, requestId).conversation;
    var t := c.turns[|c0.turns|];
    var allowed := Allowed(c.turns, req.turnId);
    hide Allowed;
    assert t.id == req.turnId && req.message.id in TurnAllows(t, req.turnId);
    if m.id in allowed && m.id != req.message.id {
      var k :| 0 <= k < |c.turns| && m.id in TurnAllows(c.turns[k], req.turnId);
      assert k < |c0.turns| ==> c.turns[k] == c0.turns[k] && c.turns[k].id != req.turnId;
    }
  }

  /** A new turn's window always ends with its user message, and shows besides system messages only
      messages whose ids belong to completed turns. */
  lemma {:induction false} NewTurnWindow(c0: Conversation, req: TurnRequest, requestId: string, maxBudget: int)
    requires ValidRequest(req) && TurnIndex(c0.turns, req.turnId) < 0
    ensures var c := PlanBegin(c0, req, requestId).conversation;
            var window := Window(Projected(c.messages, Allowed(c.turns, req.turnId)), maxBudget);
            && window != [] && window[|window| - 1] == req.message
            && forall m :: m in window && m.role != System && m.id != req.message.id ==> OfCompletedTurn(c.turns, m)
  {
    hide Projected, Allowed, SystemOnly, Estimate, FittingPairs, NonSystem, ValidContractId, PlanBegin,
      OfCompletedTurn, ValidKey;
    NewTurnShown(c0, req, requestId, req.message);
    var c := PlanBegin(c0, req, requestId).conversation;
    var allowed := Allowed(c.turns, req.turnId);
    var shown := Projected(c.messages, allowed);
    ShownRest(c.messages, allowed);
    assert LastShown(c.messages, allowed) == |c0.messages|;
    WindowLast(shown, maxBudget);
    forall m | m in Window(shown, maxBudget) && m.role != System && m.id != req.message.id ensures OfCompletedTurn(c.turns, m) {
      SystemOnlyRoles(shown);
      assert m in NonSystem(shown);
      RestIsAllowed(c.messages, allowed);
      NewTurnShown(c0, req, requestId, m);
    }
  }

  // ----- Which user messages are in the window at all

  /** The message opens one of the pairs that fit the budget together. */
  predicate OpensFittingPair(rest: seq<Message>, end: int, budget: int, n: nat, m: Message) {
    n > 0 && PairRun(rest, end, n) && RunCost(rest, end, n) <= budget && rest[end - 2 * n] == m
  }

  lemma {:induction false} ShorterRun(messages: seq<Message>, end: int, n: nat, k: nat)
    requires PairRun(messages, end, n) && k <= n
    ensures PairRun(messages, end, k) && RunCost(messages, end, k) <= RunCost(messages, end, n)
    ensures k > 0 ==> messages[end - 2 * k].role == User && messages[end - 2 * k + 1].role == Assistant
  {
    hide Estimate, PairCost;
    if k > 0 { ShorterRun(messages, end - 2, n - 1, k - 1); }
  }

  /** A user message in the selected part is the last one, or opens a pair that fits. */
  lemma SelectedUser(rest: seq<Message>, maxBudget: int, m: Message)
    requires m.role == User && m in Selected(rest, maxBudget)
    ensures (rest != [] && rest[|rest| - 1] == m)
            || exists n: nat :: OpensFittingPair(rest, PairsEnd(rest), PairsBudget(rest, maxBudget), n, m)
  {
    hide Estimate, FittingPairs, PairRun, RunCost, PairsBudget;
    var end, budget := PairsEnd(rest), PairsBudget(rest, maxBudget);
    var p := FittingPairs(rest, end, budget);
    FittingPairsLongest(rest, end, budget, 0);
    var k :| end - 2 * p <= k < |rest| && rest[k] == m;
    if k < end {
      var n := (end - k + 1) / 2;
      ShorterRun(rest, end, p, n);
      assert end - 2 * n == k;
      assert OpensFittingPair(rest, end, budget, n, m);
    }
  }

  lemma FittingIsSelected(rest: seq<Message>, maxBudget: int, m: Message, n: nat)
    requires OpensFittingPair(rest, PairsEnd(rest), PairsBudget(rest, maxBudget), n, m)
    ensures m in Selected(rest, maxBudget)
  {
    hide Estimate, FittingPairs, PairRun, RunCost, PairsBudget;
    var end, budget := PairsEnd(rest), PairsBudget(rest, maxBudget);
    var p := FittingPairs(rest, end, budget);
    FittingPairsLongest(rest, end, budget, n);
    assert Selected(rest, maxBudget)[2 * p - 2 * n] == m;
  }

  /** The user message at position i is in the window of an active turn exactly when nothing of a
      completed turn is stored after it, or it opens a pair in the run of pairs that fits the budget. */
  lemma {:induction false} WindowHolds(c: Conversation, active: string, maxBudget: int, i: nat)
    requires MessageIdsDistinct(c.messages) && i < |c.messages|
    requires c.messages[i].role == User && c.messages[i].id in Allowed(c.turns, active)
    ensures var allowed := Allowed(c.turns, active);
            var rest := NonSystem(Projected(c.messages, allowed));
            c.messages[i] in Window(Projected(c.messages, allowed), maxBudget) <==>
            || NothingShownAfter(c.messages, allowed, i)
            || exists n: nat ::
                 OpensFittingPair(rest, PairsEnd(rest), PairsBudget(rest, maxBudget), n, c.messages[i])
  {
    hide Projected, Allowed, SystemOnly, NonSystem, OpensFittingPair, Selected, PairsEnd, PairsBudget,
      NothingShownAfter, MessageIdsDistinct;
    var m, allowed := c.messages[i], Allowed(c.turns, active);
    var shown := Projected(c.messages, allowed);
    var rest := NonSystem(shown);
    SystemOnlyRoles(shown);
    WindowEndsWith(c, active, maxBudget, i);
    if n: nat :| OpensFittingPair(rest, PairsEnd(rest), PairsBudget(rest, maxBudget), n, m) {
      FittingIsSelected(rest, maxBudget, m, n);
    }
    if m in Selected(rest, maxBudget) {
      SelectedUser(rest, maxBudget, m);
      if rest != [] && rest[|rest| - 1] == m { WindowLast(shown, maxBudget); }
    }
  }

  /** Five calls in a row: turn 1 fails, turn 2 is completed, turn 1 is tried again. */
  predicate RetriedAfterNext(
    first: TurnRequest, second: TurnRequest, again: TurnRequest, answer: AgentResult, code: string,
    ids: seq<string>, c: Conversation)
    requires |ids| == 3
  {
    var begun := PlanBegin(NoConversation, first, ids[0]);
    begun.Write? &&
    var failed := PlanFinish(begun.conversation, first.turnId, first.attemptId, Failed(code));
    failed.Some? &&
    var next := PlanBegin(failed.value, second, ids[1]);
    next.Write? &&
    var done := PlanFinish(next.conversation, second.turnId, second.attemptId, Completed(answer));
    done.Some? &&
    PlanBegin(done.value, again, ids[2]) == Write(c)
  }

  lemma FirstFails(first: TurnRequest, code: string, id: string) returns (t: Turn)
    ensures var begun := PlanBegin(NoConversation, first, id);
            begun.Write? && PlanFinish(begun.conversation, first.turnId, first.attemptId, Failed(code)) == Some(Conversation([first.message], [t]))
    ensures t.id == first.turnId && t.userMessageId == first.message.id && t.status == TurnFailed
    ensures |t.attempts| == 1 && t.attempts[0].id == first.attemptId
  {
    var c := PlanBegin(NoConversation, first, id).conversation;
    assert c.messages == [first.message] && TurnIndex(c.turns, first.turnId) == 0;
    var after := PlanFinish(c, first.turnId, first.attemptId, Failed(code)).value;
    t := after.turns[0];
    assert after.turns == [t];
  }

  lemma NextCompletes(m: Message, t: Turn, second: TurnRequest, answer: AgentResult, id: string) returns (u: Turn)
    requires t.id != second.turnId
    ensures var begun := PlanBegin(Conversation([m], [t]), second, id);
            begun.Write? && PlanFinish(begun.conversation, second.turnId, second.attemptId, Completed(answer))
                            == Some(Conversation([m, second.message, answer.message], [t, u]))
    ensures u.userMessageId == second.message.id && u.status == TurnCompleted
  {
    var c := PlanBegin(Conversation([m], [t]), second, id).conversation;
    assert c.messages == [m, second.message] && TurnIndex(c.turns, second.turnId) == 1;
    var after := PlanFinish(c, second.turnId, second.attemptId, Completed(answer)).value;
    u := after.turns[1];
    assert after.turns == [t, u] && after.messages == [m, second.message, answer.message];
  }

  lemma RetryRun(
    first: TurnRequest, second: TurnRequest, again: TurnRequest, answer: AgentResult, code: string,
    ids: seq<string>) returns (c: Conversation)
    requires |ids| == 3 && first.turnId != second.turnId && first.message.id != second.message.id
    requires again == first.(attemptId := again.attemptId) && again.attemptId != first.attemptId
    ensures RetriedAfterNext(first, second, again, answer, code, ids, c)
    ensures c.messages == [first.message, second.message, answer.message] && |c.turns| == 2
    ensures c.turns[0].id == first.turnId && c.turns[0].status == TurnOpen && c.turns[0].userMessageId == first.message.id
    ensures c.turns[1].status == TurnCompleted && c.turns[1].userMessageId == second.message.id
  {
    hide PlanBegin, PlanFinish;
    var t := FirstFails(first, code, ids[0]);
    var u := NextCompletes(first.message, t, second, answer, ids[1]);
    c := RetryOpens(first, again, ids[2], Conversation([first.message, second.message, answer.message], [t, u]));
  }

  lemma RetryOpens(first: TurnRequest, again: TurnRequest, id: string, before: Conversation) returns (c: Conversation)
    requires |before.messages| == 3 && |before.turns| == 2 && before.messages[0] == first.message
    requires var t := before.turns[0];
             && t.id == first.turnId && t.userMessageId == first.message.id && t.status == TurnFailed
             && |t.attempts| == 1 && t.attempts[0].id == first.attemptId
    requires again == first.(attemptId := again.attemptId) && again.attemptId != first.attemptId
    ensures PlanBegin(before, again, id) == Write(c)
    ensures c.messages == before.messages && |c.turns| == 2 && c.turns[1] == before.turns[1]
    ensures c.turns[0].id == first.turnId && c.turns[0].status == TurnOpen && c.turns[0].userMessageId == first.message.id
  {
    assert TurnIndex(before.turns, first.turnId) == 0;
    assert MessageIndex(before.messages, first.message.id) == 0;
    assert AttemptIndex(before.turns[0].attempts, again.attemptId) < 0;
    c := PlanBegin(before, again, id).conversation;
  }

  /** A user message that another one follows is not in the window. */
  lemma FollowedByUser(rest: seq<Message>, maxBudget: int, u1: Message, u2: Message)
    requires |rest| >= 2 && rest[0] == u1 && rest[1] == u2 && u1.role == User && u2.role == User
    requires forall k :: 0 < k < |rest| ==> rest[k] != u1
    ensures u1 !in Selected(rest, maxBudget)
  {
    hide Selected, RunCost, PairsBudget, PairEndsAt;
    if u1 in Selected(rest, maxBudget) {
      SelectedUser(rest, maxBudget, u1);
      var n: nat :| OpensFittingPair(rest, PairsEnd(rest), PairsBudget(rest, maxBudget), n, u1);
      ShorterRun(rest, PairsEnd(rest), n, n);
    }
  }

  /** Why retries need the condition: however turn 1 fails, turn 2 is completed and turn 1 is tried
      again, the message being answered is not in the window, whatever the budget. */
  lemma RetryMayDropItsMessage(
    first: TurnRequest, second: TurnRequest, again: TurnRequest, answer: AgentResult, code: string,
    ids: seq<string>, maxBudget: int) returns (c: Conversation)
    requires |ids| == 3
    requires first.turnId != second.turnId && first.message.id != second.message.id
    requires first.message.role == User && second.message.role == User && answer.message.id != first.message.id
    requires again == first.(attemptId := again.attemptId) && again.attemptId != first.attemptId
    ensures RetriedAfterNext(first, second, again, answer, code, ids, c)
    ensures first.message in c.messages && first.message.id in Allowed(c.turns, first.turnId)
    ensures first.message !in Window(Projected(c.messages, Allowed(c.turns, first.turnId)), maxBudget)
  {
    hide Projected, NonSystem, SystemOnly, Selected, Allowed, RetriedAfterNext;
    c := RetryRun(first, second, again, answer, code, ids);
    var u1, u2, a2 := first.message, second.message, answer.message;
    var allowed := Allowed(c.turns, first.turnId);
    assert u1.id in TurnAllows(c.turns[0], first.turnId) && u2.id in TurnAllows(c.turns[1], first.turnId);
    NothingProjected(allowed);
    ProjectedSnoc([], u1, allowed);
    ProjectedSnoc([u1], u2, allowed);
    ProjectedSnoc([u1, u2], a2, allowed);
    assert [] + [u1] == [u1] && [u1] + [u2] == [u1, u2] && [u1, u2] + [a2] == [u1, u2, a2];
    var shown := Projected(c.messages, allowed);
    SystemOnlyRoles(shown);
    FollowedByUser(NonSystem(shown), maxBudget, u1, u2);
  }
}
