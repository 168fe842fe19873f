/** What later turns see of an answer: the projection over runs. */
module TurnHistories {
  import opened TurnRecords
  import opened TurnProtocol
  import opened TurnTheorems
  import ContextWindows

  lemma ProjectedMember(c: Conversation, active: string, i: nat)
    requires i < |c.messages| && ContextWindows.MayBeSeen(c, active, c.messages[i])
    ensures c.messages[i] in ContextWindows.Projected(c.messages, ContextWindows.Allowed(c.turns, active))
  {
    hide ContextWindows.MayBeSeen, ContextWindows.Projected, ContextWindows.Allowed;
    ContextWindows.ProjectedExactly(c, active);
    var part := ContextWindows.Projected(c.messages, ContextWindows.Allowed(c.turns, active));
    var keep := (m: Message) => ContextWindows.MayBeSeen(c, active, m);
    var at: seq<nat> :| ContextWindows.AtExactly(part, c.messages, keep, at);
    assert i in at;
    var k :| 0 <= k < |at| && at[k] == i;
    assert part[k] == c.messages[i];
  }

  /** The message that completed a turn is in the projection of every later state of the conversation, whichever
      turn is active. */
  lemma AnswerIsShown(before: Conversation, after: Conversation, turnId: string, attemptId: string, result: AgentResult,
                      later: Conversation, active: string)
    requires EndsTurn(before, after, turnId, attemptId, Completed(result)) && result.message.id != ""
    requires Grew(after, later)
    ensures result.message in ContextWindows.Projected(later.messages, ContextWindows.Allowed(later.turns, active))
  {
    hide ContextWindows.Projected, ContextWindows.Allowed;
    var i := TurnIndex(before.turns, turnId);
    var n := |before.messages|;
    assert after.messages[n] == result.message;
    assert later.messages[n] == result.message;
    assert TurnGrew(after.turns[i], later.turns[i]);
    assert ContextWindows.TurnShows(later.turns[i], active, result.message.id);
    ProjectedMember(later, active, n);
  }

  /** In every run: once a session's answer has been saved, it is in the history of every later turn. */
  lemma CommittedAnswerIsShown(w: World, id: nat, ok: bool, actions: seq<Action>, active: string)
    requires Reachable(w) && id in w.clients && w.clients[id].phase.Finishing? && w.clients[id].phase.outcome.Completed?
    requires w.clients[id].phase.outcome.result.message.id != ""
    ensures var key, result := w.clients[id].Key(), w.clients[id].phase.outcome.result;
            var store := Run(Apply(w, Action(id, SaveAgain(ok))), actions).store;
            && key in store
            && result.message in ContextWindows.Projected(store[key].messages, ContextWindows.Allowed(store[key].turns, active))
  {
    hide ClientOk, WellFormed, Owned, Grew, Run, EndsTurn, PlanFinish, Inv, SameClient;
    var c := w.clients[id];
    ReachableInv(w);
    ReachableClient(w, id);
    var w1 := Apply(w, Action(id, SaveAgain(ok)));
    ApplyKeeps(w, Action(id, SaveAgain(ok)));
    RunGrows(w1, actions);
    SavedIsEnded(w.store, c);
    AnswerIsShown(c.phase.copy, w1.store[c.Key()], c.req.turnId, c.req.attemptId, c.phase.outcome.result,
                  Run(w1, actions).store[c.Key()], active);
  }

  lemma SavedIsEnded(store: map<ConversationKey, Conversation>, c: Client)
    requires ClientOk(store, c) && c.phase.Finishing?
    ensures var p := PlanFinish(c.phase.copy, c.req.turnId, c.req.attemptId, c.phase.outcome);
            p.Some? && EndsTurn(c.phase.copy, p.value, c.req.turnId, c.req.attemptId, c.phase.outcome)
  {
    hide Numbered, Sent, PlanFinish, EndedAs, OnlyTurn;
    FinishExactly(c.phase.copy, c.req.turnId, c.req.attemptId, c.phase.outcome);
  }
}
