/** Promote of knowledge_repair_promotion_service.go, over runs in which the knowledge changes, gaps are verified
    and repairs are promoted. */
module PromotionServices {
  import opened Text
  import opened Sorting
  import opened Verification
  import opened Promotions
  import opened Chunking
  import Recurrences
  import TurnRecords

  datatype Gap = Gap(id: string, space: string, question: string, resolved: bool)

  datatype Request = Request(
    gap: Gap, attemptID: string, support: Support, required: seq<string>, promotedBy: string, recurrencePending: bool)

  datatype Answer =
    | InvalidRequest | GapNotEligible | VerificationStale | RecurrencePending | DocumentNotEligible
    | Stored(outcome: Outcome)

  // ----- Required documents

  function DocumentIndex(docs: seq<Document>, id: string): (n: nat)
    ensures n <= |docs| && (n < |docs| ==> docs[n].id == id) && forall i :: 0 <= i < n ==> docs[i].id != id
  {
    if docs == [] || docs[0].id == id then 0 else 1 + DocumentIndex(docs[1..], id)
  }

  predicate Eligible(docs: seq<Document>, space: string, id: string) {
    var i := DocumentIndex(docs, id);
    i < |docs| && InSnapshot(docs[i], space)
  }

  /** A required document is one that counts as knowledge of the space now. */
  lemma EligibleExactly(docs: seq<Document>, space: string, id: string)
    requires DistinctIDs(docs)
    ensures Eligible(docs, space, id) <==> exists i :: 0 <= i < |docs| && docs[i].id == id && Counts(docs[i], space)
  {
    hide Counts, InSnapshot;
    var n := DocumentIndex(docs, id);
    if n < |docs| { CountsExactly(docs[n], space); }
  }

  /** What the loop over the required ids finds first. */
  datatype Required = Ids(ids: seq<string>) | BadID | BadDocument

  function Check(docs: seq<Document>, space: string, raw: seq<string>, seen: seq<string>): Required
    decreases |raw|
  {
    if raw == [] then Ids(SortBy(StringLess, seen))
    else
      var id := Trim(raw[0]);
      if id == "" || id in seen then BadID
      else if !Eligible(docs, space, id) then BadDocument
      else Check(docs, space, raw[1..], seen + [id])
  }

  method ValidateRequiredDocuments(docs: seq<Document>, space: string, raw: seq<string>) returns (required: Required)
    ensures required == Check(docs, space, raw, [])
  {
    hide SortBy, Trim, Eligible;
    var seen: set<string>, validated: seq<string> := {}, [];
    assert raw[0..] == raw;
    for i := 0 to |raw|
      invariant forall id :: id in seen <==> id in validated
      invariant Check(docs, space, raw, []) == Check(docs, space, raw[i..], validated)
    {
      var id := Trim(raw[i]);
      assert raw[i..][1..] == raw[i + 1..];
      if id == "" || id in seen { return BadID; }
      seen := seen + {id};
      if !Eligible(docs, space, id) { return BadDocument; }
      validated := validated + [id];
    }
    assert raw[|raw|..] == [];
    return Ids(SortBy(StringLess, validated));
  }

  function Trims(raw: seq<string>): (r: seq<string>)
    ensures |r| == |raw| && forall i :: 0 <= i < |raw| ==> r[i] == Trim(raw[i])
  {
    seq(|raw|, i requires 0 <= i < |raw| => Trim(raw[i]))
  }

  /** The ids are accepted exactly when, trimmed, they are not empty, all different and all eligible; then they
      are the accepted ids in sorted order. */
  lemma {:induction false} CheckMeans(docs: seq<Document>, space: string, raw: seq<string>, seen: seq<string>)
    requires NoDuplicates(seen)
    ensures var r := Check(docs, space, raw, seen);
            && (r.Ids? <==> NoDuplicates(seen + Trims(raw)) && forall i :: 0 <= i < |raw| ==> Trim(raw[i]) != "" && Eligible(docs, space, Trim(raw[i])))
            && (r.Ids? ==> r.ids == SortBy(StringLess, seen + Trims(raw)))
    decreases |raw|
  {
    hide SortBy, Trim, Eligible, Trims, NoDuplicates;
    if raw == [] {
      assert Trims(raw) == [];
      assert seen + Trims(raw) == seen;
    } else {
      var id, rest := Trim(raw[0]), raw[1..];
      assert Trims(raw) == [id] + Trims(rest);
      assert seen + Trims(raw) == seen + [id] + Trims(rest);
      DistinctSnoc(seen, id, Trims(rest));
      if id != "" && id !in seen && Eligible(docs, space, id) {
        CheckMeans(docs, space, rest, seen + [id]);
        assert forall i :: 0 <= i < |rest| ==> rest[i] == raw[i + 1];
      }
    }
  }

  lemma DistinctSnoc(seen: seq<string>, id: string, rest: seq<string>)
    requires NoDuplicates(seen)
    ensures NoDuplicates(seen + [id] + rest) ==> id !in seen
    ensures id !in seen ==> NoDuplicates(seen + [id])
  {
    var all := seen + [id] + rest;
    assert all[|seen|] == id && forall i :: 0 <= i < |seen| ==> all[i] == seen[i];
  }

  // ----- The world

  datatype World = World(documents: map<string, seq<Document>>, attempts: seq<Attempt>, revisions: seq<Revision>, clock: nat)

  datatype Action =
    | ChangeKnowledge(tenant: string, docs: seq<Document>)
    | Verify(verifiedTenant: string, gap: Gap, passed: bool, now: nat)
    | Promote(promotedTenant: string, request: Request)

  function DocumentsOf(w: World, tenant: string): seq<Document> {
    if tenant in w.documents then w.documents[tenant] else []
  }

  function VerificationID(now: nat): string {
    "verification-" + Digits(now)
  }

  predicate WellFormed(tenant: string, r: Request) {
    && Trim(r.gap.id) != "" && Trim(r.attemptID) != "" && Trim(r.promotedBy) != ""
    && Recurrences.ValidKnowledgeID(tenant) && Recurrences.ValidKnowledgeID(Trim(r.gap.id))
    && Recurrences.ValidKnowledgeID(Trim(r.attemptID)) && Recurrences.ValidKnowledgeID(Trim(r.promotedBy))
    && !r.support.OtherSupport?
  }

  function CandidateOf(tenant: string, r: Request, p: Projection, ids: seq<string>): Revision {
    Revision("", tenant, "repair-eval-" + tenant + "-" + r.gap.id, r.gap.id, r.gap.space, r.gap.question,
             p.attemptID, p.snapshot, r.support, ids, Policy(r.support, ids), 0, false, Trim(r.promotedBy))
  }

  datatype Serving = Serving(revisions: seq<Revision>, answer: Answer)

  function Serve(w: World, rawTenant: string, r: Request): Serving {
    var tenant := Trim(rawTenant);
    var docs := DocumentsOf(w, tenant);
    var p := Projected(w.attempts, tenant, r.gap.id, r.gap.space, docs);
    var required := Check(docs, r.gap.space, r.required, []);
    if tenant == "" || !WellFormed(tenant, r) then Serving(w.revisions, InvalidRequest)
    else if !r.gap.resolved then Serving(w.revisions, GapNotEligible)
    else if p.state != Verified || p.attemptID != Trim(r.attemptID) then Serving(w.revisions, VerificationStale)
    else if r.recurrencePending then Serving(w.revisions, RecurrencePending)
    else if required.BadID? then Serving(w.revisions, InvalidRequest)
    else if required.BadDocument? then Serving(w.revisions, DocumentNotEligible)
    else
      var promoting := PromoteRecord(w.revisions, CandidateOf(tenant, r, p, required.ids));
      Serving(promoting.revisions, Stored(promoting.outcome))
  }

  /** The service in front of the store. */
  method PromoteRepair(store: PromotionStore, attempts: seq<Attempt>, docs: seq<Document>, rawTenant: string, r: Request)
    returns (answer: Answer)
    modifies store
    ensures var w := World(map[Trim(rawTenant) := docs], attempts, old(store.revisions), 0);
            Serving(store.revisions, answer) == Serve(w, rawTenant, r)
  {
    hide WellFormed, Trim, Projected, Check, PromoteRecord;
    var tenant := Trim(rawTenant);
    if tenant == "" || !WellFormed(tenant, r) { return InvalidRequest; }
    if !r.gap.resolved { return GapNotEligible; }
    var p := Project(attempts, tenant, r.gap.id, r.gap.space, docs);
    if p.state != Verified || p.attemptID != Trim(r.attemptID) { return VerificationStale; }
    if r.recurrencePending { return RecurrencePending; }
    var required := ValidateRequiredDocuments(docs, r.gap.space, r.required);
    match required {
      case BadID => return InvalidRequest;
      case BadDocument => return DocumentNotEligible;
      case Ids(ids) =>
        var outcome := store.PromoteRepairEval(CandidateOf(tenant, r, p, ids));
        return Stored(outcome);
    }
  }

  function Apply(w: World, a: Action): World {
    match a
    case ChangeKnowledge(tenant, docs) => w.(documents := w.documents[tenant := docs])
    case Verify(tenant, gap, passed, now) =>
      if now <= w.clock || now > MAX_INT || !Recurrences.ValidKnowledgeID(tenant) || !Recurrences.ValidKnowledgeID(gap.id) then w
      else
        w.(clock := now,
           attempts := w.attempts + [Attempt(VerificationID(now), tenant, gap.id, now, Snapshot(DocumentsOf(w, tenant), gap.space), passed)])
    case Promote(tenant, r) => w.(revisions := Serve(w, tenant, r).revisions)
  }

  /** RepairVerificationService.Verify: what the search answered is a parameter. */
  method VerifyRepair(store: VerificationStore, docs: seq<Document>, tenant: string, gap: Gap, passed: bool, clock: nat, now: nat)
    requires clock < now <= MAX_INT
    modifies store
    ensures var w := World(map[tenant := docs], old(store.attempts), [], clock);
            store.attempts == Apply(w, Verify(tenant, gap, passed, now)).attempts
  {
    hide Snapshot, Digits, Recurrences.ValidKnowledgeID;
    var snapshot := SnapshotFingerprint(docs, gap.space);
    VerificationIDValid(now);
    AttemptsExactly(Attempt(VerificationID(now), tenant, gap.id, now, snapshot, passed));
    var ok := store.AppendRepairVerification(Attempt(VerificationID(now), tenant, gap.id, now, snapshot, passed));
  }

  lemma VerificationIDValid(now: nat)
    ensures Recurrences.ValidKnowledgeID(VerificationID(now))
  {
    hide Digits, Recurrences.ValidKnowledgeID;
    DigitsAreDigits(now);
    var id := VerificationID(now);
    var prefix := "verification-";
    forall i | 0 <= i < |id| ensures TurnRecords.IdCharacter(id[i]) {
      if i < |prefix| { assert id[i] == prefix[i]; PrefixCharacters(i); }
      else { assert id[i] == Digits(now)[i - |prefix|]; }
    }
    assert id[0] == 'v';
    Recurrences.PlainID(id);
  }

  lemma PrefixCharacters(i: nat)
    requires i < |"verification-"|
    ensures TurnRecords.IdCharacter("verification-"[i])
  {
  }

  function Run(actions: seq<Action>): World {
    if actions == [] then World(map[], [], [], 0)
    else Apply(Run(actions[..|actions| - 1]), actions[|actions| - 1])
  }

  // ----- What every run keeps

  /** Attempts are named after their times, which rise up to the clock. */
  predicate Timed(w: World) {
    && InTimeOrder(w.attempts)
    && forall i :: 0 <= i < |w.attempts| ==>
         0 < w.attempts[i].completedAt <= w.clock && w.clock <= MAX_INT && w.attempts[i].id == VerificationID(w.attempts[i].completedAt)
  }

  /** A revision carries the snapshot of the passed attempt it was promoted from. */
  predicate Backed(r: Revision, attempts: seq<Attempt>) {
    exists i :: 0 <= i < |attempts| && Backs(attempts[i], r)
  }

  predicate Backs(a: Attempt, r: Revision) {
    a.id == r.attemptID && a.tenant == r.tenant && a.snapshot == r.snapshot && a.passed
  }

  predicate AllBacked(w: World) {
    forall k :: 0 <= k < |w.revisions| ==> Backed(w.revisions[k], w.attempts)
  }

  predicate Inv(w: World) {
    InOrder(w.revisions) && Timed(w) && AllBacked(w)
  }

  lemma VerificationIDInjective(m: nat, n: nat)
    requires m <= MAX_INT && n <= MAX_INT
    ensures VerificationID(m) == VerificationID(n) ==> m == n
  {
    hide Digits;
    ReadPrinted(m);
    ReadPrinted(n);
    var k := |"verification-"|;
    assert VerificationID(m)[k..] == Digits(m) && VerificationID(n)[k..] == Digits(n);
  }

  lemma SameAttempt(w: World, i: nat, j: nat)
    requires Timed(w) && i < |w.attempts| && j < |w.attempts| && w.attempts[i].id == w.attempts[j].id
    ensures i == j
  {
    hide VerificationID;
    VerificationIDInjective(w.attempts[i].completedAt, w.attempts[j].completedAt);
  }

  lemma ProjectedAttempt(w: World, tenant: string, gap: string, space: string, docs: seq<Document>) returns (i: nat)
    requires Projected(w.attempts, tenant, gap, space, docs).state == Verified
    ensures var p := Projected(w.attempts, tenant, gap, space, docs);
            && i < |w.attempts| && w.attempts[i].id == p.attemptID && w.attempts[i].tenant == tenant && w.attempts[i].passed
            && w.attempts[i].snapshot == p.snapshot == Snapshot(docs, space)
  {
    hide Snapshot, StableSort, Matching;
    var items := Listed(w.attempts, tenant, gap);
    var n := FirstPassed(items);
    StableSortElements(Newer, Matching(w.attempts, tenant, gap));
    assert items[n] in StableSort(Newer, Matching(w.attempts, tenant, gap));
    MatchingMembers(w.attempts, tenant, gap, items[n]);
    i :| 0 <= i < |w.attempts| && w.attempts[i] == items[n];
  }

  lemma BackedMore(r: Revision, attempts: seq<Attempt>, more: Attempt)
    requires Backed(r, attempts)
    ensures Backed(r, attempts + [more])
  {
    var i :| 0 <= i < |attempts| && Backs(attempts[i], r);
    assert (attempts + [more])[i] == attempts[i];
  }

  lemma VerifyCases(w: World, a: Action)
    requires a.Verify?
    ensures Apply(w, a) == w ||
              (w.clock < a.now <= MAX_INT &&
               Apply(w, a) == w.(clock := a.now,
                                 attempts := w.attempts + [Attempt(VerificationID(a.now), a.verifiedTenant, a.gap.id, a.now,
                                                                   Snapshot(DocumentsOf(w, a.verifiedTenant), a.gap.space), a.passed)]))
  {
    hide Snapshot, VerificationID, Recurrences.ValidKnowledgeID;
  }

  lemma AttemptTimed(w: World, more: Attempt)
    requires Timed(w) && w.clock < more.completedAt <= MAX_INT && more.id == VerificationID(more.completedAt)
    ensures Timed(w.(clock := more.completedAt, attempts := w.attempts + [more]))
  {
    hide VerificationID;
  }

  lemma VerifyKeeps(w: World, a: Action)
    requires Inv(w) && a.Verify?
    ensures Inv(Apply(w, a))
  {
    hide InOrder, Snapshot, VerificationID, Backed, Timed, Apply;
    VerifyCases(w, a);
    var after := Apply(w, a);
    if after != w {
      var more := after.attempts[|w.attempts|];
      AttemptTimed(w, more);
      forall k | 0 <= k < |w.revisions| ensures Backed(w.revisions[k], after.attempts) {
        assert Backed(w.revisions[k], w.attempts);
        BackedMore(w.revisions[k], w.attempts, more);
      }
    }
  }

  lemma PromotedBacked(w: World, tenant: string, r: Request)
    requires Inv(w)
    ensures var s := Serve(w, tenant, r);
            && InOrder(s.revisions) && OnlyCleared(w.revisions, s.revisions)
            && forall k :: 0 <= k < |s.revisions| ==> Backed(s.revisions[k], w.attempts)
  {
    hide InOrder, Backed, WellFormed, Projected, Check, PromoteRecord, Trim, Timed;
    var s := Serve(w, tenant, r);
    if s.answer.Stored? {
      var p := Projected(w.attempts, Trim(tenant), r.gap.id, r.gap.space, DocumentsOf(w, Trim(tenant)));
      var c := CandidateOf(Trim(tenant), r, p, Check(DocumentsOf(w, Trim(tenant)), r.gap.space, r.required, []).ids);
      PromoteKeeps(w.revisions, c);
      var i := ProjectedAttempt(w, Trim(tenant), r.gap.id, r.gap.space, DocumentsOf(w, Trim(tenant)));
      forall k | 0 <= k < |s.revisions| ensures Backed(s.revisions[k], w.attempts) {
        if k < |w.revisions| {
          assert Backed(w.revisions[k], w.attempts);
          BackedSame(w.revisions[k], s.revisions[k], w.attempts);
        } else {
          BackedAt(s.revisions[k], w.attempts, i);
        }
      }
    }
  }

  lemma BackedSame(r: Revision, s: Revision, attempts: seq<Attempt>)
    requires Backed(r, attempts) && s.attemptID == r.attemptID && s.tenant == r.tenant && s.snapshot == r.snapshot
    ensures Backed(s, attempts)
  {
  }

  lemma BackedAt(r: Revision, attempts: seq<Attempt>, i: nat)
    requires i < |attempts| && Backs(attempts[i], r)
    ensures Backed(r, attempts)
  {
  }

  lemma StepKeeps(w: World, a: Action)
    requires Inv(w)
    ensures Inv(Apply(w, a))
  {
    hide InOrder, Backed, Timed;
    match a
    case ChangeKnowledge(_, _) => TimedSame(w, Apply(w, a));
    case Verify(_, _, _, _) => VerifyKeeps(w, a);
    case Promote(tenant, r) =>
      PromotedBacked(w, tenant, r);
      TimedSame(w, Apply(w, a));
  }

  lemma TimedSame(w: World, v: World)
    requires Timed(w) && v.attempts == w.attempts && v.clock == w.clock
    ensures Timed(v)
  {
  }

  /** In every run the ledger of each gap is numbered one to n in order with exactly the n-th active, and every
      revision carries the snapshot of a passed attempt. */
  lemma {:induction false} RunKeeps(actions: seq<Action>)
    ensures Inv(Run(actions))
    decreases |actions|
  {
    hide Inv, Apply;
    if actions == [] {
      EmptyKeeps();
    } else {
      RunKeeps(actions[..|actions| - 1]);
      StepKeeps(Run(actions[..|actions| - 1]), actions[|actions| - 1]);
    }
  }

  lemma EmptyKeeps()
    ensures Inv(World(map[], [], [], 0))
  {
  }

  // ----- Where the attempts of a run come from

  /** Step k verified the gap, and the attempt holds the snapshot of the knowledge at that step. */
  predicate MadeAt(actions: seq<Action>, k: nat, a: Attempt)
    requires k < |actions|
  {
    var w, step := Run(actions[..k]), actions[k];
    && step.Verify? && a.id == VerificationID(step.now) && a.completedAt == step.now
    && a.tenant == step.verifiedTenant && a.gap == step.gap.id && a.passed == step.passed
    && a.snapshot == Snapshot(DocumentsOf(w, step.verifiedTenant), step.gap.space)
  }

  predicate Made(actions: seq<Action>, a: Attempt) {
    exists k :: 0 <= k < |actions| && MadeAt(actions, k, a)
  }

  lemma MadeBefore(actions: seq<Action>, a: Attempt)
    requires actions != [] && Made(actions[..|actions| - 1], a)
    ensures Made(actions, a)
  {
    hide Run, Snapshot, VerificationID;
    var before := actions[..|actions| - 1];
    var k :| 0 <= k < |before| && MadeAt(before, k, a);
    assert before[..k] == actions[..k] && before[k] == actions[k];
    assert MadeAt(actions, k, a);
  }

  lemma {:induction false} AttemptsMade(actions: seq<Action>, i: nat)
    requires i < |Run(actions).attempts|
    ensures Made(actions, Run(actions).attempts[i])
    decreases |actions|
  {
    hide Snapshot, VerificationID, Serve, Apply, Recurrences.ValidKnowledgeID;
    var n := |actions| - 1;
    var before, step := actions[..n], actions[n];
    var w := Run(before);
    if step.Verify? { VerifyCases(w, step); } else { OthersLeaveAttempts(w, step); }
    if i < |w.attempts| {
      AttemptsMade(before, i);
      MadeBefore(actions, w.attempts[i]);
    } else {
      assert MadeAt(actions, n, Run(actions).attempts[i]);
    }
  }

  lemma OthersLeaveAttempts(w: World, a: Action)
    requires !a.Verify?
    ensures Apply(w, a).attempts == w.attempts
  {
    hide Serve;
  }

  /** A tenant's documents never share an id. */
  predicate DistinctKnowledge(actions: seq<Action>) {
    forall k :: 0 <= k < |actions| && actions[k].ChangeKnowledge? ==> DistinctIDs(actions[k].docs)
  }

  lemma {:induction false} DocumentsDistinct(actions: seq<Action>, tenant: string)
    requires DistinctKnowledge(actions)
    ensures DistinctIDs(DocumentsOf(Run(actions), tenant))
    decreases |actions|
  {
    hide Snapshot, VerificationID, Serve, Recurrences.ValidKnowledgeID;
    if actions != [] { DocumentsDistinct(actions[..|actions| - 1], tenant); }
  }

  /** In every run, a gap without a listed passed attempt is unverified; otherwise the newest one was made at some
      step, and the gap is verified or stale as the knowledge of its tenant now is that of that step or not. */
  lemma VerifiedInRun(actions: seq<Action>, tenant: string, gap: string, space: string)
    requires DistinctKnowledge(actions)
    ensures var w := Run(actions);
            var items := Listed(w.attempts, tenant, gap); var n := FirstPassed(items);
            var state := Projected(w.attempts, tenant, gap, space, DocumentsOf(w, tenant)).state;
            && (n == |items| <==> state == Unverified)
            && (n < |items| ==>
                  && Made(actions, items[n])
                  && forall k :: 0 <= k < |actions| && MadeAt(actions, k, items[n]) ==>
                       state == if SameKnowledge(DocumentsOf(w, tenant), space,
                                                 DocumentsOf(Run(actions[..k]), tenant), actions[k].gap.space)
                                then Verified else Stale)
  {
    hide Run, Snapshot, VerificationID, SameKnowledge, DocumentsOf, Made;
    var w := Run(actions);
    var items := Listed(w.attempts, tenant, gap);
    var n := FirstPassed(items);
    DocumentsDistinct(actions, tenant);
    if n < |items| {
      ListedIsMade(actions, tenant, gap, n);
      forall k | 0 <= k < |actions| && MadeAt(actions, k, items[n])
        ensures Projected(w.attempts, tenant, gap, space, DocumentsOf(w, tenant)).state ==
                if SameKnowledge(DocumentsOf(w, tenant), space, DocumentsOf(Run(actions[..k]), tenant), actions[k].gap.space)
                then Verified else Stale
      {
        DistinctPrefix(actions, k);
        DocumentsDistinct(actions[..k], tenant);
        VerifiedMeans(w.attempts, tenant, gap, space, DocumentsOf(w, tenant), DocumentsOf(Run(actions[..k]), tenant), actions[k].gap.space);
      }
    }
  }

  /** A document that counted then, or counts now, is not there unchanged on the other side. */
  predicate KnowledgeChanged(a: seq<Document>, spaceA: string, b: seq<Document>, spaceB: string) {
    || (exists i :: 0 <= i < |a| && Counts(a[i], spaceA) && !HasUnchanged(a[i], b, spaceB))
    || (exists j :: 0 <= j < |b| && Counts(b[j], spaceB) && !HasUnchanged(b[j], a, spaceA))
  }

  /** When the newest passed attempt was made at step k and the knowledge has changed since, the gap is stale, and
      a promotion that is in order is refused as stale and leaves the ledger alone. */
  lemma ChangedKnowledgeIsStale(actions: seq<Action>, k: nat, rawTenant: string, r: Request)
    requires DistinctKnowledge(actions) && k < |actions|
    requires var tenant := Trim(rawTenant); tenant != "" && WellFormed(tenant, r) && r.gap.resolved
    requires var items := Listed(Run(actions).attempts, Trim(rawTenant), r.gap.id); var n := FirstPassed(items);
             n < |items| && MadeAt(actions, k, items[n])
    requires KnowledgeChanged(DocumentsOf(Run(actions[..k]), Trim(rawTenant)), actions[k].gap.space,
                              DocumentsOf(Run(actions), Trim(rawTenant)), r.gap.space)
    ensures var w, tenant := Run(actions), Trim(rawTenant);
            && Projected(w.attempts, tenant, r.gap.id, r.gap.space, DocumentsOf(w, tenant)).state == Stale
            && Serve(w, rawTenant, r) == Serving(w.revisions, VerificationStale)
  {
    hide Run, Snapshot, VerificationID, DocumentsOf, Made, WellFormed, Check, Projected, PromoteRecord, HasUnchanged, Counts;
    VerifiedInRun(actions, Trim(rawTenant), r.gap.id, r.gap.space);
  }

  /** The case a maintainer cares about: a document that counted was edited. */
  lemma EditedDocumentIsStale(earlier: seq<Document>, spaceThen: string, now: seq<Document>, spaceNow: string, i: nat, j: nat)
    requires DistinctIDs(now) && i < |earlier| && j < |now| && Counts(earlier[i], spaceThen) && earlier[i].id == now[j].id
    requires earlier[i].contentHash != now[j].contentHash || earlier[i].updatedAt != now[j].updatedAt || !Counts(now[j], spaceNow)
    ensures KnowledgeChanged(earlier, spaceThen, now, spaceNow)
  {
    hide Counts;
    forall m | 0 <= m < |now| && Counts(now[m], spaceNow) ensures !Unchanged(earlier[i], now[m]) {
      if now[m].id == now[j].id { assert m == j; }
    }
  }

  lemma DistinctPrefix(actions: seq<Action>, k: nat)
    requires DistinctKnowledge(actions) && k <= |actions|
    ensures DistinctKnowledge(actions[..k])
  {
  }

  lemma ListedIsMade(actions: seq<Action>, tenant: string, gap: string, n: nat)
    requires n < |Listed(Run(actions).attempts, tenant, gap)|
    ensures var a := Listed(Run(actions).attempts, tenant, gap)[n];
            Made(actions, a) && a.tenant == tenant
  {
    hide Run, Matching, StableSort, Made;
    var attempts := Run(actions).attempts;
    var a := Listed(attempts, tenant, gap)[n];
    StableSortElements(Newer, Matching(attempts, tenant, gap));
    assert a in StableSort(Newer, Matching(attempts, tenant, gap));
    MatchingMembers(attempts, tenant, gap, a);
    var i :| 0 <= i < |attempts| && attempts[i] == a;
    AttemptsMade(actions, i);
  }

  lemma OnlyClearedTransitive(a: seq<Revision>, b: seq<Revision>, c: seq<Revision>)
    requires OnlyCleared(a, b) && OnlyCleared(b, c)
    ensures OnlyCleared(a, c)
  {
    forall i | 0 <= i < |a| ensures c[i] == a[i] || (a[i].active && c[i] == a[i].(active := false)) {
      assert b[i] == a[i] || (a[i].active && b[i] == a[i].(active := false));
    }
  }

  /** Over a whole run a revision stays where it is and only ever loses its active flag. */
  lemma {:induction false} RevisionsOnlyCleared(actions: seq<Action>, k: nat)
    requires k <= |actions|
    ensures OnlyCleared(Run(actions[..k]).revisions, Run(actions).revisions)
    decreases |actions|
  {
    hide Inv, Serve, OnlyCleared;
    if k == |actions| {
      assert actions[..k] == actions;
      NothingCleared(Run(actions).revisions);
    } else {
      var before, last := actions[..|actions| - 1], actions[|actions| - 1];
      assert before[..k] == actions[..k];
      RevisionsOnlyCleared(before, k);
      NothingCleared(Run(before).revisions);
      if last.Promote? {
        RunKeeps(before);
        PromotedBacked(Run(before), last.promotedTenant, last.request);
      }
      OnlyClearedTransitive(Run(actions[..k]).revisions, Run(before).revisions, Run(actions).revisions);
    }
  }

  lemma NothingCleared(all: seq<Revision>)
    ensures OnlyCleared(all, all)
  {
  }

  predicate AllEligible(docs: seq<Document>, space: string, raw: seq<string>) {
    forall i :: 0 <= i < |raw| ==> Trim(raw[i]) != "" && Eligible(docs, space, Trim(raw[i]))
  }

  lemma RequiredMeans(docs: seq<Document>, space: string, raw: seq<string>)
    ensures var required := Check(docs, space, raw, []);
            && (required.Ids? <==> AllEligible(docs, space, raw) && NoDuplicates(Trims(raw)))
            && (required.BadID? ==> !NoDuplicates(Trims(raw)) || exists i :: 0 <= i < |raw| && Trim(raw[i]) == "")
            && (required.BadDocument? ==> exists i :: 0 <= i < |raw| && !Eligible(docs, space, Trim(raw[i])))
  {
    hide Trim, SortBy, Eligible, NoDuplicates, Trims, Check;
    NothingTwice();
    CheckMeans(docs, space, raw, []);
    CheckCauses(docs, space, raw, []);
    assert [] + Trims(raw) == Trims(raw);
  }

  /** A promotion that is in order: usable ids and a known support state. */
  ghost predicate ProperRequest(rawTenant: string, r: Request) {
    && (forall id :: id in {rawTenant, r.gap.id, r.attemptID, r.promotedBy} ==> TurnRecords.ProperId(Trim(id)))
    && (r.support.PartiallySupported? || r.support.Grounded?)
  }

  lemma ProperExactly(rawTenant: string, r: Request)
    ensures Trim(rawTenant) != "" && WellFormed(Trim(rawTenant), r) <==> ProperRequest(rawTenant, r)
  {
    hide Recurrences.ValidKnowledgeID, TurnRecords.ProperId, Trim;
    forall id ensures Recurrences.ValidKnowledgeID(Trim(id)) <==> TurnRecords.ProperId(Trim(id)) { Recurrences.KnowledgeIDMeans(id); }
    assert !TurnRecords.ProperId("") by { ProperIsSome(); }
  }

  lemma ProperIsSome()
    ensures !TurnRecords.ProperId("")
  {
  }

  /** Each answer of a promotion and its cause; only a new revision changes the ledger. */
  lemma PromoteAnswers(w: World, rawTenant: string, r: Request)
    ensures var tenant := Trim(rawTenant);
            var docs := DocumentsOf(w, tenant);
            var p := Projected(w.attempts, tenant, r.gap.id, r.gap.space, docs);
            var proper := ProperRequest(rawTenant, r);
            var verified := p.state == Verified && p.attemptID == Trim(r.attemptID);
            var s := Serve(w, rawTenant, r);
            && (s.answer.Stored? <==>
                  proper && r.gap.resolved && verified && !r.recurrencePending
                  && AllEligible(docs, r.gap.space, r.required) && NoDuplicates(Trims(r.required)))
            && (s.answer == GapNotEligible <==> proper && !r.gap.resolved)
            && (s.answer == VerificationStale <==> proper && r.gap.resolved && !verified)
            && (s.answer == RecurrencePending <==> proper && r.gap.resolved && verified && r.recurrencePending)
            && (s.answer == InvalidRequest ==>
                  !proper || !NoDuplicates(Trims(r.required)) || exists i :: 0 <= i < |r.required| && Trim(r.required[i]) == "")
            && (s.answer == DocumentNotEligible ==>
                  exists i :: 0 <= i < |r.required| && !Eligible(docs, r.gap.space, Trim(r.required[i])))
            && (s.revisions != w.revisions ==> s.answer.Stored? && s.answer.outcome.Promoted?)
  {
    hide WellFormed, Projected, PromoteRecord, Trim, SortBy, Eligible, NoDuplicates, Trims, Check, AllEligible, CandidateOf,
      DocumentsOf, ProperRequest;
    ProperExactly(rawTenant, r);
    var tenant := Trim(rawTenant);
    var docs := DocumentsOf(w, tenant);
    RequiredMeans(docs, r.gap.space, r.required);
    var p, required := Projected(w.attempts, tenant, r.gap.id, r.gap.space, docs), Check(docs, r.gap.space, r.required, []);
    if required.Ids? { UnpromotedSame(w.revisions, CandidateOf(tenant, r, p, required.ids)); }
  }

  lemma NothingTwice()
    ensures NoDuplicates<string>([])
  {
  }

  lemma UnpromotedSame(all: seq<Revision>, c: Revision)
    ensures !PromoteRecord(all, c).outcome.Promoted? ==> PromoteRecord(all, c).revisions == all
  {
    hide ValidRevision;
  }

  /** What a rejected list of ids has wrong with it. */
  lemma {:induction false} CheckCauses(docs: seq<Document>, space: string, raw: seq<string>, seen: seq<string>)
    requires NoDuplicates(seen)
    ensures var r := Check(docs, space, raw, seen);
            && (r.BadID? ==> !NoDuplicates(seen + Trims(raw)) || exists i :: 0 <= i < |raw| && Trim(raw[i]) == "")
            && (r.BadDocument? ==> exists i :: 0 <= i < |raw| && !Eligible(docs, space, Trim(raw[i])))
    decreases |raw|
  {
    hide SortBy, Trim, Eligible, NoDuplicates, Trims;
    if raw != [] {
      var id, rest := Trim(raw[0]), raw[1..];
      assert Trims(raw) == [id] + Trims(rest);
      assert seen + Trims(raw) == seen + [id] + Trims(rest);
      DistinctSnoc(seen, id, Trims(rest));
      if id != "" && id !in seen && Eligible(docs, space, id) {
        CheckCauses(docs, space, rest, seen + [id]);
        if i :| 0 <= i < |rest| && Trim(rest[i]) == "" { assert Trim(raw[i + 1]) == ""; }
        if i :| 0 <= i < |rest| && !Eligible(docs, space, Trim(rest[i])) { assert !Eligible(docs, space, Trim(raw[i + 1])); }
      }
    }
  }

  /** What a new revision records of its request. */
  predicate RecordsRequest(record: Revision, tenant: string, r: Request) {
    && record.tenant == tenant && record.gap == r.gap.id && record.space == r.gap.space && record.question == r.gap.question
    && record.caseID == "repair-eval-" + tenant + "-" + r.gap.id
    && record.support == r.support && record.required == SortBy(StringLess, Trims(r.required))
    && record.promotedBy == Trim(r.promotedBy)
    && record.revision > 0 && record.id == "promotion-" + r.gap.id + "-r" + Digits(record.revision)
  }

  /** The revision says what is true of the knowledge and of the request at this moment. */
  predicate Current(docs: seq<Document>, r: Request, record: Revision) {
    && record.active
    && record.snapshot == Snapshot(docs, r.gap.space)
    && record.attemptID == Trim(r.attemptID)
    && record.policy == Policy(r.support, SortBy(StringLess, Trims(r.required)))
    && r.gap.resolved && !r.recurrencePending
    && forall i :: 0 <= i < |r.required| ==> Eligible(docs, r.gap.space, Trim(r.required[i]))
  }

  /** Whatever a run did before, a promotion that answers with a revision, a new or a replayed one, answers with
      one that is current: its snapshot is that of the knowledge at that moment. */
  lemma PromotionIsCurrent(actions: seq<Action>, tenant: string, r: Request)
    ensures var s := Serve(Run(actions), tenant, r);
            s.answer.Stored? && !s.answer.outcome.Refused? ==>
              && Current(DocumentsOf(Run(actions), Trim(tenant)), r, s.answer.outcome.record)
              && (s.answer.outcome.Promoted? ==> RecordsRequest(s.answer.outcome.record, Trim(tenant), r))
  {
    hide InOrder, Backed, WellFormed, Projected, Check, PromoteRecord, Trim, Timed, Run, Snapshot, SortBy, Eligible;
    var w := Run(actions);
    var s := Serve(w, tenant, r);
    RunKeeps(actions);
    if s.answer.Stored? && !s.answer.outcome.Refused? {
      var docs := DocumentsOf(w, Trim(tenant));
      var p := Projected(w.attempts, Trim(tenant), r.gap.id, r.gap.space, docs);
      var required := Check(docs, r.gap.space, r.required, []);
      CheckMeans(docs, r.gap.space, r.required, []);
      assert [] + Trims(r.required) == Trims(r.required);
      var c := CandidateOf(Trim(tenant), r, p, required.ids);
      PromoteKeeps(w.revisions, c);
      var i := ProjectedAttempt(w, Trim(tenant), r.gap.id, r.gap.space, docs);
      var record := s.answer.outcome.record;
      if s.answer.outcome.Replayed? {
        var k :| 0 <= k < |w.revisions| && w.revisions[k] == record;
        assert Backed(w.revisions[k], w.attempts);
        var j := BackedWhere(record, w.attempts);
        SameAttempt(w, i, j);
      }
    }
  }

  lemma BackedWhere(r: Revision, attempts: seq<Attempt>) returns (j: nat)
    requires Backed(r, attempts)
    ensures j < |attempts| && attempts[j].id == r.attemptID && attempts[j].snapshot == r.snapshot
  {
    j :| 0 <= j < |attempts| && Backs(attempts[j], r);
  }
}
