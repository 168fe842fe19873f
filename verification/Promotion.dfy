/** Promotion of verified repairs to evaluation cases: the revision ledger (knowledge_repair_promotion.go) and the
    service in front of it (knowledge_repair_promotion_service.go). */
module Promotions {
  import opened Text
  import opened Sorting
  import opened Verification
  import Chunking
  import Recurrences
  import TurnRecords

  datatype Support = PartiallySupported | Grounded | OtherSupport(name: string)

  /** SHA-256 of the encoded policy, taken as injective: the policy itself. */
  datatype Policy = Policy(support: Support, required: seq<string>)

  datatype Revision = Revision(
    id: string, tenant: string, caseID: string, gap: string, space: string, question: string,
    attemptID: string, snapshot: Fingerprint, support: Support, required: seq<string>, policy: Policy,
    revision: nat, active: bool, promotedBy: string)

  datatype Outcome = Refused | Replayed(record: Revision) | Promoted(record: Revision)

  datatype Promoting = Promoting(revisions: seq<Revision>, outcome: Outcome)

  // ----- The ledger

  predicate SameGap(r: Revision, tenant: string, gap: string) {
    r.tenant == tenant && r.gap == gap
  }

  predicate Repeats(r: Revision, c: Revision) {
    SameGap(r, c.tenant, c.gap) && r.active && r.attemptID == c.attemptID && r.policy == c.policy
  }

  function RepeatIndex(all: seq<Revision>, c: Revision): (n: nat)
    ensures n <= |all| && (n < |all| ==> Repeats(all[n], c)) && forall i :: 0 <= i < n ==> !Repeats(all[i], c)
  {
    if all == [] || Repeats(all[0], c) then 0 else 1 + RepeatIndex(all[1..], c)
  }

  function MaxRevision(all: seq<Revision>, tenant: string, gap: string): nat {
    if all == [] then 0
    else
      var before := MaxRevision(all[..|all| - 1], tenant, gap);
      var last := all[|all| - 1];
      if SameGap(last, tenant, gap) && last.revision > before then last.revision else before
  }

  /** Position of the last active revision of the gap, or -1. */
  function ActiveIndex(all: seq<Revision>, tenant: string, gap: string): (k: int)
    ensures -1 <= k < |all|
    ensures k >= 0 ==> SameGap(all[k], tenant, gap) && all[k].active
    ensures forall i :: k < i < |all| ==> !(SameGap(all[i], tenant, gap) && all[i].active)
  {
    if all == [] then -1
    else if SameGap(all[|all| - 1], tenant, gap) && all[|all| - 1].active then |all| - 1
    else ActiveIndex(all[..|all| - 1], tenant, gap)
  }

  predicate ValidRevision(r: Revision) {
    && Recurrences.ValidKnowledgeID(r.id) && Recurrences.ValidKnowledgeID(r.tenant) && Recurrences.ValidKnowledgeID(r.caseID)
    && Recurrences.ValidKnowledgeID(r.gap) && Recurrences.ValidKnowledgeID(r.space)
    && Recurrences.ValidKnowledgeID(r.attemptID) && Recurrences.ValidKnowledgeID(r.promotedBy)
    && Trim(r.question) != "" && !r.support.OtherSupport?
    && (forall i :: 0 <= i < |r.required| ==> Recurrences.ValidKnowledgeID(r.required[i]))
    && NoDuplicates(r.required)
  }

  function WithID(c: Revision, n: nat): Revision {
    if c.id == "" then c.(id := "promotion-" + c.gap + "-r" + Chunking.Digits(n + 1)) else c
  }

  function Cleared(all: seq<Revision>, k: int): seq<Revision>
    requires k < |all|
  {
    if k >= 0 then all[k := all[k].(active := false)] else all
  }

  function PromoteRecord(all: seq<Revision>, c: Revision): Promoting {
    var k := RepeatIndex(all, c);
    var n := MaxRevision(all, c.tenant, c.gap);
    var named := WithID(c, n);
    if k < |all| then Promoting(all, Replayed(all[k]))
    else if !ValidRevision(named) then Promoting(all, Refused)
    else
      var record := named.(revision := n + 1, active := true);
      Promoting(Cleared(all, ActiveIndex(all, c.tenant, c.gap)) + [record], Promoted(record))
  }

  class PromotionStore {
    var revisions: seq<Revision>

    constructor ()
      ensures revisions == []
    {
      revisions := [];
    }

    method PromoteRepairEval(candidate: Revision) returns (outcome: Outcome)
      modifies this
      ensures Promoting(revisions, outcome) == PromoteRecord(old(revisions), candidate)
    {
      hide ValidRevision;
      var max: nat := 0;
      var active := -1;
      for i := 0 to |revisions|
        invariant revisions == old(revisions)
        invariant max == MaxRevision(revisions[..i], candidate.tenant, candidate.gap)
        invariant -1 <= active < i && active == ActiveIndex(revisions[..i], candidate.tenant, candidate.gap)
        invariant forall k :: 0 <= k < i ==> !Repeats(revisions[k], candidate)
      {
        var existing := revisions[i];
        assert revisions[..i + 1][..i] == revisions[..i];
        if SameGap(existing, candidate.tenant, candidate.gap) {
          if existing.revision > max { max := existing.revision; }
          if existing.active {
            active := i;
            if existing.attemptID == candidate.attemptID && existing.policy == candidate.policy { return Replayed(existing); }
          }
        }
      }
      assert revisions[..|revisions|] == revisions;
      var record := WithID(candidate, max);
      if !ValidRevision(record) { return Refused; }
      if active >= 0 { revisions := revisions[active := revisions[active].(active := false)]; }
      record := record.(revision := max + 1, active := true);
      revisions := revisions + [record];
      return Promoted(record);
    }

    method GetActiveRepairEvalPromotion(tenant: string, gap: string) returns (found: Option<Revision>)
      ensures found.Some? ==> found.value in revisions && SameGap(found.value, tenant, gap) && found.value.active
      ensures found.None? ==> forall i :: 0 <= i < |revisions| ==> !(SameGap(revisions[i], tenant, gap) && revisions[i].active)
      ensures InOrder(revisions) ==>
                (found.Some? <==> CountOf(revisions, tenant, gap) > 0)
                && (found.Some? ==> found.value.revision == CountOf(revisions, tenant, gap))
    {
      hide InOrder, CountOf;
      if InOrder(revisions) { ActiveIsLast(revisions, tenant, gap); }
      for i := 0 to |revisions|
        invariant forall k :: 0 <= k < i ==> !(SameGap(revisions[k], tenant, gap) && revisions[k].active)
      {
        if SameGap(revisions[i], tenant, gap) && revisions[i].active { return Some(revisions[i]); }
      }
      return None;
    }
  }

  // ----- Every ledger is in order

  function CountOf(all: seq<Revision>, tenant: string, gap: string): nat {
    if all == [] then 0
    else CountOf(all[..|all| - 1], tenant, gap) + (if SameGap(all[|all| - 1], tenant, gap) then 1 else 0)
  }

  /** The revisions of a gap are numbered in the order in which they were appended. */
  predicate Numbered(all: seq<Revision>) {
    forall i :: 0 <= i < |all| ==> all[i].revision == CountOf(all[..i], all[i].tenant, all[i].gap) + 1
  }

  predicate LastOfGap(all: seq<Revision>, i: int)
    requires 0 <= i < |all|
  {
    forall j :: i < j < |all| ==> !SameGap(all[j], all[i].tenant, all[i].gap)
  }

  /** Of each gap exactly the last revision is active. */
  predicate ActiveLast(all: seq<Revision>) {
    forall i :: 0 <= i < |all| ==> (all[i].active <==> LastOfGap(all, i))
  }

  predicate InOrder(all: seq<Revision>) {
    Numbered(all) && ActiveLast(all)
  }

  lemma CountSnoc(all: seq<Revision>, r: Revision, tenant: string, gap: string)
    ensures CountOf(all + [r], tenant, gap) == CountOf(all, tenant, gap) + (if SameGap(r, tenant, gap) then 1 else 0)
  {
    assert (all + [r])[..|all|] == all;
  }

  lemma {:induction false} MaxIsCount(all: seq<Revision>, tenant: string, gap: string)
    requires Numbered(all)
    ensures MaxRevision(all, tenant, gap) == CountOf(all, tenant, gap)
  {
    if all != [] {
      var k := |all| - 1;
      var before := all[..k];
      assert forall i :: 0 <= i < k ==> before[i] == all[i] && before[..i] == all[..i];
      MaxIsCount(before, tenant, gap);
    }
  }

  /** The active revision of a gap is its last, and it has the number of revisions as its number. */
  lemma ActiveIsLast(all: seq<Revision>, tenant: string, gap: string)
    requires InOrder(all)
    ensures CountOf(all, tenant, gap) > 0 <==> exists i :: 0 <= i < |all| && SameGap(all[i], tenant, gap) && all[i].active
    ensures forall i :: 0 <= i < |all| && SameGap(all[i], tenant, gap) && all[i].active ==> all[i].revision == CountOf(all, tenant, gap)
  {
    hide CountOf;
    if i :| 0 <= i < |all| && SameGap(all[i], tenant, gap) && LastOfGap(all, i) {
      CountFrom(all, i, tenant, gap);
    }
    forall i | 0 <= i < |all| && SameGap(all[i], tenant, gap) && all[i].active
      ensures all[i].revision == CountOf(all, tenant, gap)
    {
      assert LastOfGap(all, i);
      CountFrom(all, i, tenant, gap);
    }
    if CountOf(all, tenant, gap) > 0 {
      var i := LastSame(all, tenant, gap);
      assert LastOfGap(all, i);
    }
  }

  lemma {:induction false} LastSame(all: seq<Revision>, tenant: string, gap: string) returns (i: int)
    requires CountOf(all, tenant, gap) > 0
    ensures 0 <= i < |all| && SameGap(all[i], tenant, gap) && forall j :: i < j < |all| ==> !SameGap(all[j], tenant, gap)
  {
    var k := |all| - 1;
    if SameGap(all[k], tenant, gap) { i := k; } else { i := LastSame(all[..k], tenant, gap); }
  }

  lemma {:induction false} CountFrom(all: seq<Revision>, i: int, tenant: string, gap: string)
    requires 0 <= i < |all| && SameGap(all[i], tenant, gap) && forall j :: i < j < |all| ==> !SameGap(all[j], tenant, gap)
    ensures CountOf(all, tenant, gap) == CountOf(all[..i], tenant, gap) + 1
    decreases |all|
  {
    var k := |all| - 1;
    if i < k {
      CountFrom(all[..k], i, tenant, gap);
      assert all[..k][..i] == all[..i];
    }
  }

  /** Clearing a flag changes no count. */
  lemma {:induction false} CountCleared(all: seq<Revision>, k: int, tenant: string, gap: string)
    requires k < |all|
    ensures CountOf(Cleared(all, k), tenant, gap) == CountOf(all, tenant, gap)
  {
    if all != [] && k >= 0 {
      var n := |all| - 1;
      if k < n {
        CountCleared(all[..n], k, tenant, gap);
        assert Cleared(all, k)[..n] == Cleared(all[..n], k);
      } else {
        assert Cleared(all, k)[..n] == all[..n];
      }
    }
  }

  lemma ClearedNumbered(all: seq<Revision>, k: int)
    requires k < |all| && Numbered(all)
    ensures Numbered(Cleared(all, k))
  {
    hide CountOf;
    var after := Cleared(all, k);
    forall i | 0 <= i < |after| ensures after[i].revision == CountOf(after[..i], after[i].tenant, after[i].gap) + 1 {
      if 0 <= k < i {
        assert after[..i] == Cleared(all[..i], k);
        CountCleared(all[..i], k, all[i].tenant, all[i].gap);
      } else {
        assert after[..i] == all[..i];
      }
    }
  }

  lemma AppendNumbered(all: seq<Revision>, r: Revision)
    requires Numbered(all) && r.revision == CountOf(all, r.tenant, r.gap) + 1
    ensures Numbered(all + [r])
  {
    hide CountOf;
    var after := all + [r];
    assert forall i :: 0 <= i <= |all| ==> after[..i] == all[..i];
    assert all[..|all|] == all;
  }

  lemma PromoteActiveLast(all: seq<Revision>, r: Revision)
    requires ActiveLast(all) && r.active
    ensures ActiveLast(Cleared(all, ActiveIndex(all, r.tenant, r.gap)) + [r])
  {
    var k := ActiveIndex(all, r.tenant, r.gap);
    var after := Cleared(all, k) + [r];
    forall i | 0 <= i < |all| ensures after[i].active <==> LastOfGap(after, i) {
      if SameGap(all[i], r.tenant, r.gap) {
        assert after[|all|] == r;
        NotActiveAfter(all, i, k, r);
      } else {
        OtherGapKept(all, i, k, r);
      }
    }
  }

  lemma NotActiveAfter(all: seq<Revision>, i: int, k: int, r: Revision)
    requires ActiveLast(all) && 0 <= i < |all| && k == ActiveIndex(all, r.tenant, r.gap) && SameGap(all[i], r.tenant, r.gap)
    ensures !(Cleared(all, k) + [r])[i].active
  {
    assert all[i].active <==> LastOfGap(all, i);
  }

  lemma OtherGapKept(all: seq<Revision>, i: int, k: int, r: Revision)
    requires ActiveLast(all) && 0 <= i < |all| && k == ActiveIndex(all, r.tenant, r.gap) && !SameGap(all[i], r.tenant, r.gap)
    ensures (Cleared(all, k) + [r])[i].active <==> LastOfGap(Cleared(all, k) + [r], i)
  {
    LastOfGapSame(all, Cleared(all, k) + [r], i);
  }

  lemma LastOfGapSame(all: seq<Revision>, after: seq<Revision>, i: int)
    requires 0 <= i < |all| && |after| == |all| + 1
    requires forall j :: 0 <= j < |all| ==> SameGap(after[j], all[j].tenant, all[j].gap)
    requires !SameGap(after[|all|], all[i].tenant, all[i].gap)
    ensures LastOfGap(after, i) <==> LastOfGap(all, i)
  {
    forall j | 0 <= j < |all| ensures SameGap(after[j], after[i].tenant, after[i].gap) <==> SameGap(all[j], all[i].tenant, all[i].gap) {}
  }

  /** An existing revision only ever changes by its active flag turning false. */
  predicate OnlyCleared(before: seq<Revision>, after: seq<Revision>) {
    && |before| <= |after|
    && forall i :: 0 <= i < |before| ==> after[i] == before[i] || (before[i].active && after[i] == before[i].(active := false))
  }

  /** A promotion keeps the ledger in order; a replayed or rejected one changes nothing, and a new one is the
      active revision of its gap, numbered after all the others. */
  lemma PromoteKeeps(all: seq<Revision>, c: Revision)
    requires InOrder(all)
    ensures var p := PromoteRecord(all, c);
            && InOrder(p.revisions) && OnlyCleared(all, p.revisions)
            && (!p.outcome.Promoted? ==> p.revisions == all)
            && (p.outcome.Replayed? ==> p.outcome.record in all && Repeats(p.outcome.record, c))
            && (p.outcome.Promoted? ==>
                  && |p.revisions| == |all| + 1 && p.revisions[|all|] == p.outcome.record
                  && p.outcome.record == WithID(c, CountOf(all, c.tenant, c.gap)).(revision := CountOf(all, c.tenant, c.gap) + 1, active := true)
                  && forall i :: 0 <= i < |all| && SameGap(all[i], c.tenant, c.gap) ==> !p.revisions[i].active)
  {
    hide CountOf, ValidRevision, Numbered, ActiveLast, MaxRevision;
    var p := PromoteRecord(all, c);
    MaxIsCount(all, c.tenant, c.gap);
    if p.outcome.Promoted? {
      var k := ActiveIndex(all, c.tenant, c.gap);
      var r := p.outcome.record;
      ClearedNumbered(all, k);
      CountCleared(all, k, c.tenant, c.gap);
      AppendNumbered(Cleared(all, k), r);
      PromoteActiveLast(all, r);
      forall i | 0 <= i < |all| && SameGap(all[i], c.tenant, c.gap) ensures !p.revisions[i].active {
        NotActiveAfter(all, i, k, r);
      }
    }
  }

  /** An active revision of the gap made from the same attempt for the same support and documents. */
  predicate AlreadyPromoted(r: Revision, c: Revision) {
    && r.tenant == c.tenant && r.gap == c.gap && r.active && r.attemptID == c.attemptID
    && r.policy.support == c.policy.support && r.policy.required == c.policy.required
  }

  /** A revision that may be stored: usable ids, a question, a known support state and distinct usable documents. */
  ghost predicate Storable(r: Revision) {
    && (forall id :: id in {r.id, r.tenant, r.caseID, r.gap, r.space, r.attemptID, r.promotedBy} ==> TurnRecords.ProperId(Trim(id)))
    && !Blank(r.question) && (r.support.PartiallySupported? || r.support.Grounded?)
    && (forall i :: 0 <= i < |r.required| ==> TurnRecords.ProperId(Trim(r.required[i])))
    && (forall i, j :: 0 <= i < j < |r.required| ==> r.required[i] != r.required[j])
  }

  lemma StorableExactly(r: Revision)
    ensures ValidRevision(r) <==> Storable(r)
  {
    hide Recurrences.ValidKnowledgeID, TurnRecords.ProperId, Trim, Blank;
    TrimOfBlank(r.question);
    forall id ensures Recurrences.ValidKnowledgeID(id) <==> TurnRecords.ProperId(Trim(id)) { Recurrences.KnowledgeIDMeans(id); }
  }

  /** A candidate is replayed exactly when it was promoted already, with that record; otherwise it is refused
      exactly when the record it would become may not be stored. */
  lemma PromoteOutcomes(all: seq<Revision>, c: Revision)
    requires InOrder(all)
    ensures var o := PromoteRecord(all, c).outcome;
            var known := exists i :: 0 <= i < |all| && AlreadyPromoted(all[i], c);
            && (o.Replayed? <==> known)
            && (o.Replayed? ==> AlreadyPromoted(o.record, c))
            && (o.Refused? <==> !known && !Storable(WithID(c, CountOf(all, c.tenant, c.gap))))
  {
    hide ValidRevision, CountOf, Numbered, ActiveLast, WithID, Storable;
    StorableExactly(WithID(c, CountOf(all, c.tenant, c.gap)));
    MaxIsCount(all, c.tenant, c.gap);
    forall i | 0 <= i < |all| ensures AlreadyPromoted(all[i], c) <==> Repeats(all[i], c) {}
  }
}
