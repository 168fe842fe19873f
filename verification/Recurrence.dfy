/** The recurrence ledger of repaired knowledge gaps (knowledge_recurrence.go) and the steps the service
    takes on it (knowledge_recurrence_service.go). */
module Recurrences {
  import opened Text
  import opened Normalization
  import opened TurnRecords

  datatype Status = Suspected | Dismissed | Confirmed

  datatype Recurrence = Recurrence(
    id: string, tenant: string, gap: string, space: string, status: Status,
    firstAudit: string, latestAudit: string, count: int, answer: string, updatedAt: int,
    dismissReason: string, confirmedBy: string)

  datatype Observation = Observation(tenant: string, gap: string, audit: string, recurrenceID: string)

  datatype Ledger = Ledger(records: seq<Recurrence>, observations: seq<Observation>)

  datatype Observed = Invalid | Missing | Known(record: Recurrence) | Applied(record: Recurrence)

  const Empty := Ledger([], [])

  // ----- Validation and search

  /** validateKnowledgeID looks at the trimmed value. */
  predicate ValidKnowledgeID(v: string) {
    ValidContractId(Trim(v))
  }

  /** Usable ids for the ledgers: white space around them does not matter. */
  lemma KnowledgeIDMeans(v: string)
    ensures ValidKnowledgeID(v) <==> ProperId(Trim(v))
    ensures ValidKnowledgeID(Trim(v)) <==> ProperId(Trim(v))
  {
    hide ValidContractId, ProperId, Trim;
    TrimTwice(v);
    IdsExactly(Trim(v));
  }

  predicate ValidObservation(o: Observation) {
    ValidKnowledgeID(o.tenant) && ValidKnowledgeID(o.gap) && ValidKnowledgeID(o.audit)
  }

  predicate ValidRecurrence(r: Recurrence) {
    ValidKnowledgeID(r.id) && ValidKnowledgeID(r.tenant) && ValidKnowledgeID(r.gap) && ValidKnowledgeID(r.space) && r.count >= 1
  }

  predicate HasKey(o: Observation, tenant: string, gap: string, audit: string) {
    o.tenant == tenant && o.gap == gap && o.audit == audit
  }

  predicate IsRecord(r: Recurrence, tenant: string, id: string) {
    r.tenant == tenant && r.id == id
  }

  predicate IsOpen(r: Recurrence, tenant: string, gap: string) {
    r.tenant == tenant && r.gap == gap && r.status == Suspected
  }

  function ObservationIndex(all: seq<Observation>, tenant: string, gap: string, audit: string): (n: nat)
    ensures n <= |all|
    ensures n < |all| ==> HasKey(all[n], tenant, gap, audit)
    ensures forall i :: 0 <= i < n ==> !HasKey(all[i], tenant, gap, audit)
  {
    if all == [] || HasKey(all[0], tenant, gap, audit) then 0 else 1 + ObservationIndex(all[1..], tenant, gap, audit)
  }

  function RecordIndex(all: seq<Recurrence>, tenant: string, id: string): (n: nat)
    ensures n <= |all|
    ensures n < |all| ==> IsRecord(all[n], tenant, id)
    ensures forall i :: 0 <= i < n ==> !IsRecord(all[i], tenant, id)
  {
    if all == [] || IsRecord(all[0], tenant, id) then 0 else 1 + RecordIndex(all[1..], tenant, id)
  }

  function OpenIndex(all: seq<Recurrence>, tenant: string, gap: string): (n: nat)
    ensures n <= |all|
    ensures n < |all| ==> IsOpen(all[n], tenant, gap)
    ensures forall i :: 0 <= i < n ==> !IsOpen(all[i], tenant, gap)
  {
    if all == [] || IsOpen(all[0], tenant, gap) then 0 else 1 + OpenIndex(all[1..], tenant, gap)
  }

  // ----- The ledger's two writes

  /** The suspected record of the gap takes the new occurrence over. */
  function Merged(existing: Recurrence, candidate: Recurrence): Recurrence {
    candidate.(
      id := existing.id,
      firstAudit := existing.firstAudit,
      count := if candidate.count <= existing.count then existing.count + 1 else candidate.count)
  }

  datatype Observing = Observing(ledger: Ledger, observed: Observed)

  function Observe(l: Ledger, o: Observation, candidate: Recurrence): Observing {
    if !ValidObservation(o) || !ValidRecurrence(candidate) then Observing(l, Invalid)
    else
      var k := ObservationIndex(l.observations, o.tenant, o.gap, o.audit);
      if k < |l.observations| then
        var i := RecordIndex(l.records, o.tenant, l.observations[k].recurrenceID);
        Observing(l, if i < |l.records| then Known(l.records[i]) else Missing)
      else
        var i := OpenIndex(l.records, candidate.tenant, candidate.gap);
        if i < |l.records| then
          var merged := Merged(l.records[i], candidate);
          Observing(Ledger(l.records[i := merged], l.observations + [o.(recurrenceID := merged.id)]), Applied(merged))
        else
          Observing(Ledger(l.records + [candidate], l.observations + [o.(recurrenceID := candidate.id)]), Applied(candidate))
  }

  function Save(l: Ledger, r: Recurrence): Ledger {
    if !ValidRecurrence(r) then l
    else
      var i := RecordIndex(l.records, r.tenant, r.id);
      if i < |l.records| then l.(records := l.records[i := r]) else l.(records := l.records + [r])
  }

  class RecurrenceStore {
    var records: seq<Recurrence>
    var observations: seq<Observation>

    constructor ()
      ensures State() == Empty
    {
      records, observations := [], [];
    }

    function State(): Ledger
      reads this
    {
      Ledger(records, observations)
    }

    method GetRepairRecurrence(tenant: string, id: string) returns (found: Option<Recurrence>)
      ensures var i := RecordIndex(records, tenant, id);
              found == if i < |records| then Some(records[i]) else None
    {
      for i := 0 to |records|
        invariant forall k :: 0 <= k < i ==> !IsRecord(records[k], tenant, id)
      {
        if IsRecord(records[i], tenant, id) { return Some(records[i]); }
      }
      return None;
    }

    method ObserveRepairRecurrence(observation: Observation, candidate: Recurrence) returns (observed: Observed)
      modifies this
      ensures Observing(State(), observed) == Observe(old(State()), observation, candidate)
    {
      hide ValidRecurrence, ValidObservation;
      if !ValidObservation(observation) || !ValidRecurrence(candidate) { return Invalid; }
      for i := 0 to |observations|
        invariant State() == old(State())
        invariant forall k :: 0 <= k < i ==> !HasKey(observations[k], observation.tenant, observation.gap, observation.audit)
      {
        if HasKey(observations[i], observation.tenant, observation.gap, observation.audit) {
          var found := GetRepairRecurrence(observation.tenant, observations[i].recurrenceID);
          return if found.Some? then Known(found.value) else Missing;
        }
      }
      for i := 0 to |records|
        invariant State() == old(State())
        invariant forall k :: 0 <= k < i ==> !IsOpen(records[k], candidate.tenant, candidate.gap)
      {
        if IsOpen(records[i], candidate.tenant, candidate.gap) {
          var merged := Merged(records[i], candidate);
          records := records[i := merged];
          observations := observations + [observation.(recurrenceID := merged.id)];
          return Applied(merged);
        }
      }
      records := records + [candidate];
      observations := observations + [observation.(recurrenceID := candidate.id)];
      return Applied(candidate);
    }

    method SaveRepairRecurrence(record: Recurrence)
      modifies this
      ensures State() == Save(old(State()), record)
    {
      hide ValidRecurrence;
      if !ValidRecurrence(record) { return; }
      for i := 0 to |records|
        invariant State() == old(State())
        invariant forall k :: 0 <= k < i ==> !IsRecord(records[k], record.tenant, record.id)
      {
        if IsRecord(records[i], record.tenant, record.id) {
          records := records[i := record];
          return;
        }
      }
      records := records + [record];
    }
  }

  // ----- Runs: detections and reviews of any number of clients, interleaved

  function RecurrenceID(audit: string): string {
    "recurrence-" + audit
  }

  function CandidateFor(tenant: string, gap: string, space: string, audit: string, answer: string, at: int): Recurrence {
    Recurrence(RecurrenceID(audit), tenant, gap, space, Suspected, audit, audit, 1, answer, at, "", "")
  }

  /** An operator reads a record in one step and saves its copy in another; other steps may come between. */
  datatype World = World(ledger: Ledger, held: map<nat, Recurrence>)

  datatype Action =
    | Detect(tenant: string, gap: string, space: string, audit: string, answer: string, at: int)
    | Get(client: nat, owner: string, id: string)
    | Confirm(operator: nat, confirmedBy: string, confirmedAt: int)
    | Dismiss(dismisser: nat, reason: string, dismissedAt: int)

  function NormalizedText(s: string): string {
    Squash(Trim(s))
  }

  /** The copy an operator saves, if the request is in order. */
  function Reviewed(w: World, a: Action): Option<Recurrence> {
    match a
    case Confirm(c, name, now) =>
      if c in w.held then Some(w.held[c].(status := Confirmed, confirmedBy := NormalizedText(name), updatedAt := now)) else None
    case Dismiss(c, reason, now) =>
      var text := NormalizedText(reason);
      if c in w.held && 0 < |text| <= 240 then Some(w.held[c].(status := Dismissed, dismissReason := text, updatedAt := now)) else None
    case _ => None
  }

  /** A review saves its copy, if it may, and lets go of it. */
  function Settled(w: World, c: nat, reviewed: Option<Recurrence>): World {
    World(if reviewed.Some? then Save(w.ledger, reviewed.value) else w.ledger, w.held - {c})
  }

  function Apply(w: World, a: Action): World {
    match a
    case Detect(tenant, gap, space, audit, answer, at) =>
      w.(ledger := Observe(w.ledger, Observation(tenant, gap, audit, ""), CandidateFor(tenant, gap, space, audit, answer, at)).ledger)
    case Get(c, tenant, id) =>
      var i := RecordIndex(w.ledger.records, tenant, id);
      if i < |w.ledger.records| && w.ledger.records[i].status == Suspected then w.(held := w.held[c := w.ledger.records[i]])
      else w.(held := w.held - {c})
    case Confirm(c, _, _) => Settled(w, c, Reviewed(w, a))
    case Dismiss(c, _, _) => Settled(w, c, Reviewed(w, a))
  }

  function Run(actions: seq<Action>): World {
    if actions == [] then World(Empty, map[])
    else Apply(Run(actions[..|actions| - 1]), actions[|actions| - 1])
  }

  /** An uninterrupted review: it goes through exactly when the first record with the id is suspected, and a
      dismissal has its reason; then that record, if it is valid, has the verdict, and no other record changes. */
  predicate Decided(before: seq<Recurrence>, after: seq<Recurrence>, tenant: string, id: string, a: Action, ok: bool)
  {
    var i := RecordIndex(before, tenant, id);
    && (ok <==> i < |before| && before[i].status == Suspected && (a.Dismiss? ==> 1 <= |Squash(a.reason)| <= 240))
    && (!ok ==> after == before)
    && (ok ==>
          && |after| == |before| && (forall k :: 0 <= k < |before| && k != i ==> after[k] == before[k])
          && (ValidRecurrence(before[i]) ==> VerdictOn(before[i], after[i], a)))
  }

  lemma ReviewDecides(l: Ledger, tenant: string, id: string, a: Action)
    requires (a.Confirm? && a.operator == 0) || (a.Dismiss? && a.dismisser == 0)
    ensures var read := Apply(World(l, map[]), Get(0, tenant, id));
            Decided(l.records, Apply(read, a).ledger.records, tenant, id, a,
                    0 in read.held && (a.Dismiss? ==> 0 < |NormalizedText(a.reason)| <= 240))
  {
    hide NormalizedText, Squash, ValidKnowledgeID;
    var read := Apply(World(l, map[]), Get(0, tenant, id));
    NormalizedIsSquashed(if a.Confirm? then a.confirmedBy else a.reason);
    ReviewExactly(read, a);
    var i := RecordIndex(l.records, tenant, id);
    if i < |l.records| { IndexIs(l.records, l.records[i].tenant, l.records[i].id, i); }
  }

  /** RepairRecurrenceService.Confirm when nothing comes between its read and its save. */
  method ConfirmRecurrence(store: RecurrenceStore, tenant: string, id: string, confirmedBy: string, now: int) returns (ok: bool)
    modifies store
    ensures var read := Apply(World(old(store.State()), map[]), Get(0, tenant, id));
            && store.State() == Apply(read, Confirm(0, confirmedBy, now)).ledger
            && (ok <==> 0 in read.held)
    ensures Decided(old(store.records), store.records, tenant, id, Confirm(0, confirmedBy, now), ok)
  {
    NormalizedIsSquashed(confirmedBy);
    hide ValidRecurrence, NormalizedText, Save, Decided;
    ReviewDecides(store.State(), tenant, id, Confirm(0, confirmedBy, now));
    var found := store.GetRepairRecurrence(tenant, id);
    if found.None? || found.value.status != Suspected { return false; }
    var record := found.value;
    record := record.(status := Confirmed, confirmedBy := NormalizedText(confirmedBy), updatedAt := now);
    store.SaveRepairRecurrence(record);
    ok := true;
  }

  /** RepairRecurrenceService.Dismiss when nothing comes between its read and its save. */
  method DismissRecurrence(store: RecurrenceStore, tenant: string, id: string, reason: string, now: int) returns (ok: bool)
    modifies store
    ensures var read := Apply(World(old(store.State()), map[]), Get(0, tenant, id));
            && store.State() == Apply(read, Dismiss(0, reason, now)).ledger
            && (ok <==> 0 in read.held && 0 < |NormalizedText(reason)| <= 240)
    ensures Decided(old(store.records), store.records, tenant, id, Dismiss(0, reason, now), ok)
  {
    NormalizedIsSquashed(reason);
    hide ValidRecurrence, NormalizedText, Save, Decided;
    ReviewDecides(store.State(), tenant, id, Dismiss(0, reason, now));
    var found := store.GetRepairRecurrence(tenant, id);
    if found.None? || found.value.status != Suspected { return false; }
    var text := NormalizedText(reason);
    if text == "" || |text| > 240 { return false; }
    var record := found.value;
    record := record.(status := Dismissed, dismissReason := text, updatedAt := now);
    store.SaveRepairRecurrence(record);
    ok := true;
  }

  /** One audit id is never used for two gaps of a tenant. */
  predicate OneGapEach(actions: seq<Action>, gapOf: (string, string) -> string) {
    forall i :: 0 <= i < |actions| && actions[i].Detect? ==> actions[i].gap == gapOf(actions[i].tenant, actions[i].audit)
  }

  // ----- The invariant

  function Pointing(all: seq<Observation>, tenant: string, id: string): nat {
    if all == [] then 0
    else
      Pointing(all[..|all| - 1], tenant, id)
      + (if all[|all| - 1].tenant == tenant && all[|all| - 1].recurrenceID == id then 1 else 0)
  }

  predicate DistinctRecords(records: seq<Recurrence>) {
    forall i, j :: 0 <= i < j < |records| ==> !IsRecord(records[i], records[j].tenant, records[j].id)
  }

  predicate OneOpenEach(records: seq<Recurrence>) {
    forall i, j :: 0 <= i < j < |records| && records[i].status == Suspected ==> !IsOpen(records[j], records[i].tenant, records[i].gap)
  }

  predicate DistinctKeys(all: seq<Observation>) {
    forall i, j :: 0 <= i < j < |all| ==> !HasKey(all[i], all[j].tenant, all[j].gap, all[j].audit)
  }

  predicate Observes(all: seq<Observation>, tenant: string, gap: string, audit: string) {
    exists k :: 0 <= k < |all| && HasKey(all[k], tenant, gap, audit)
  }

  /** A record is named after its first audit, which was observed for its gap. */
  predicate Named(r: Recurrence, all: seq<Observation>) {
    r.id == RecurrenceID(r.firstAudit) && ValidRecurrence(r) && Observes(all, r.tenant, r.gap, r.firstAudit)
  }

  predicate AllNamed(l: Ledger) {
    forall i :: 0 <= i < |l.records| ==> Named(l.records[i], l.observations)
  }

  predicate CountsAtMost(l: Ledger) {
    forall i :: 0 <= i < |l.records| ==>
      1 <= l.records[i].count <= Pointing(l.observations, l.records[i].tenant, l.records[i].id)
  }

  predicate CountsExact(l: Ledger) {
    forall i :: 0 <= i < |l.records| ==>
      l.records[i].count == Pointing(l.observations, l.records[i].tenant, l.records[i].id)
  }

  /** The observation points at a record of its own gap. */
  predicate Resolves(records: seq<Recurrence>, o: Observation) {
    exists i :: 0 <= i < |records| && IsRecord(records[i], o.tenant, o.recurrenceID) && records[i].gap == o.gap
  }

  predicate AllResolve(l: Ledger) {
    forall k :: 0 <= k < |l.observations| ==> Resolves(l.records, l.observations[k])
  }

  predicate GapsAgree(all: seq<Observation>, gapOf: (string, string) -> string) {
    forall k :: 0 <= k < |all| ==> all[k].gap == gapOf(all[k].tenant, all[k].audit)
  }

  predicate SameIdentity(a: Recurrence, b: Recurrence) {
    a.tenant == b.tenant && a.id == b.id && a.gap == b.gap && a.firstAudit == b.firstAudit
  }

  /** A held copy is of a stored record and counts no more occurrences than were observed. */
  predicate HeldIsOld(l: Ledger, r: Recurrence) {
    && r.status == Suspected && ValidRecurrence(r)
    && r.count <= Pointing(l.observations, r.tenant, r.id)
    && var i := RecordIndex(l.records, r.tenant, r.id); i < |l.records| && SameIdentity(r, l.records[i])
  }

  predicate AllHeldOld(w: World) {
    forall c :: c in w.held ==> HeldIsOld(w.ledger, w.held[c])
  }

  predicate Inv(w: World, gapOf: (string, string) -> string) {
    && DistinctRecords(w.ledger.records) && OneOpenEach(w.ledger.records)
    && DistinctKeys(w.ledger.observations) && GapsAgree(w.ledger.observations, gapOf)
    && AllNamed(w.ledger) && CountsAtMost(w.ledger) && AllResolve(w.ledger)
    && AllHeldOld(w)
  }

  // ----- Small facts

  lemma PointingSnoc(all: seq<Observation>, o: Observation, tenant: string, id: string)
    ensures Pointing(all + [o], tenant, id) ==
            Pointing(all, tenant, id) + (if o.tenant == tenant && o.recurrenceID == id then 1 else 0)
  {
    assert (all + [o])[..|all|] == all;
  }

  lemma {:induction false} PointingNone(all: seq<Observation>, tenant: string, id: string)
    requires forall k :: 0 <= k < |all| ==> !(all[k].tenant == tenant && all[k].recurrenceID == id)
    ensures Pointing(all, tenant, id) == 0
  {
    if all != [] { PointingNone(all[..|all| - 1], tenant, id); }
  }

  lemma ObservesMore(all: seq<Observation>, o: Observation, tenant: string, gap: string, audit: string)
    requires Observes(all, tenant, gap, audit) || HasKey(o, tenant, gap, audit)
    ensures Observes(all + [o], tenant, gap, audit)
  {
    if Observes(all, tenant, gap, audit) {
      var k :| 0 <= k < |all| && HasKey(all[k], tenant, gap, audit);
      assert (all + [o])[k] == all[k];
    } else {
      assert (all + [o])[|all|] == o;
    }
  }

  lemma KeysMore(all: seq<Observation>, o: Observation)
    requires DistinctKeys(all) && !Observes(all, o.tenant, o.gap, o.audit)
    ensures DistinctKeys(all + [o])
  {
  }

  /** Whatever is put in place of a record keeps its identity. */
  predicate Replaces(records: seq<Recurrence>, i: int, r: Recurrence) {
    0 <= i < |records| && SameIdentity(r, records[i])
  }

  lemma ReplaceKeepsRecords(records: seq<Recurrence>, i: int, r: Recurrence)
    requires Replaces(records, i, r) && DistinctRecords(records) && OneOpenEach(records)
    requires r.status == Suspected ==> records[i].status == Suspected
    ensures DistinctRecords(records[i := r]) && OneOpenEach(records[i := r])
  {
  }

  lemma IndexIs(records: seq<Recurrence>, tenant: string, id: string, n: nat)
    requires n <= |records| && (n < |records| ==> IsRecord(records[n], tenant, id))
    requires forall i :: 0 <= i < n ==> !IsRecord(records[i], tenant, id)
    ensures RecordIndex(records, tenant, id) == n
  {
  }

  lemma ReplaceKeepsIndex(records: seq<Recurrence>, i: int, r: Recurrence, tenant: string, id: string)
    requires Replaces(records, i, r)
    ensures RecordIndex(records[i := r], tenant, id) == RecordIndex(records, tenant, id)
  {
    IndexIs(records[i := r], tenant, id, RecordIndex(records, tenant, id));
  }

  lemma ReplaceKeepsResolves(records: seq<Recurrence>, i: int, r: Recurrence, o: Observation)
    requires Replaces(records, i, r) && Resolves(records, o)
    ensures Resolves(records[i := r], o)
  {
    var k :| 0 <= k < |records| && IsRecord(records[k], o.tenant, o.recurrenceID) && records[k].gap == o.gap;
    assert IsRecord(records[i := r][k], o.tenant, o.recurrenceID);
  }

  lemma AppendKeepsResolves(records: seq<Recurrence>, r: Recurrence, o: Observation)
    requires Resolves(records, o) || (IsRecord(r, o.tenant, o.recurrenceID) && r.gap == o.gap)
    ensures Resolves(records + [r], o)
  {
    if Resolves(records, o) {
      var k :| 0 <= k < |records| && IsRecord(records[k], o.tenant, o.recurrenceID) && records[k].gap == o.gap;
      assert IsRecord((records + [r])[k], o.tenant, o.recurrenceID);
    } else {
      assert IsRecord((records + [r])[|records|], o.tenant, o.recurrenceID);
    }
  }

  lemma AppendKeepsIndex(records: seq<Recurrence>, r: Recurrence, tenant: string, id: string)
    requires RecordIndex(records, tenant, id) < |records|
    ensures RecordIndex(records + [r], tenant, id) == RecordIndex(records, tenant, id)
  {
    var m := RecordIndex(records, tenant, id);
    assert (records + [r])[m] == records[m];
    IndexIs(records + [r], tenant, id, m);
  }

  lemma HeldStays(l: Ledger, m: Ledger, r: Recurrence)
    requires HeldIsOld(l, r)
    requires var i := RecordIndex(l.records, r.tenant, r.id);
             RecordIndex(m.records, r.tenant, r.id) == i < |m.records| && SameIdentity(l.records[i], m.records[i])
    requires Pointing(l.observations, r.tenant, r.id) <= Pointing(m.observations, r.tenant, r.id)
    ensures HeldIsOld(m, r)
  {
    hide ValidRecurrence;
  }

  lemma NamedStays(r: Recurrence, all: seq<Observation>, o: Observation)
    requires Named(r, all)
    ensures Named(r, all + [o])
  {
    hide ValidRecurrence;
    ObservesMore(all, o, r.tenant, r.gap, r.firstAudit);
  }

  // ----- Detection keeps the invariant

  /** The observation and the candidate that a detection hands to the store. */
  function ObservationOf(a: Action): Observation
    requires a.Detect?
  {
    Observation(a.tenant, a.gap, a.audit, "")
  }

  function CandidateOf(a: Action): Recurrence
    requires a.Detect?
  {
    CandidateFor(a.tenant, a.gap, a.space, a.audit, a.answer, a.at)
  }

  predicate NewlySeen(l: Ledger, a: Action) {
    a.Detect? && ValidObservation(ObservationOf(a)) && ValidRecurrence(CandidateOf(a)) && !Observes(l.observations, a.tenant, a.gap, a.audit)
  }

  lemma IndexSaysObserved(all: seq<Observation>, tenant: string, gap: string, audit: string)
    ensures ObservationIndex(all, tenant, gap, audit) < |all| <==> Observes(all, tenant, gap, audit)
  {
  }

  /** Only a detection that is in order and new changes the ledger. */
  lemma ObserveCases(l: Ledger, a: Action)
    requires a.Detect?
    ensures var after := Observe(l, ObservationOf(a), CandidateOf(a)).ledger;
            var i := OpenIndex(l.records, a.tenant, a.gap);
            if !NewlySeen(l, a) then after == l
            else if i < |l.records| then
              var merged := Merged(l.records[i], CandidateOf(a));
              after == Ledger(l.records[i := merged], l.observations + [ObservationOf(a).(recurrenceID := merged.id)])
            else after == Ledger(l.records + [CandidateOf(a)], l.observations + [ObservationOf(a).(recurrenceID := RecurrenceID(a.audit))])
  {
    hide ValidObservation, ValidRecurrence;
    IndexSaysObserved(l.observations, a.tenant, a.gap, a.audit);
  }

  // ----- What a detection and a review record

  /** The latest occurrence of a record. */
  predicate ShowsOccurrence(r: Recurrence, a: Action)
    requires a.Detect?
  {
    && r.tenant == a.tenant && r.gap == a.gap && r.space == a.space && r.status == Suspected
    && r.latestAudit == a.audit && r.answer == a.answer && r.updatedAt == a.at
    && r.dismissReason == "" && r.confirmedBy == ""
  }

  /** The occurrence is added to the suspected record of the gap, which keeps its id and first audit and counts one
      more; or it is the first of a new record named after its audit. */
  predicate Records(before: seq<Recurrence>, after: seq<Recurrence>, a: Action, id: string)
    requires a.Detect?
  {
    if exists i :: 0 <= i < |before| && IsOpen(before[i], a.tenant, a.gap) then
      exists i :: 0 <= i < |before| && IsOpen(before[i], a.tenant, a.gap) && |after| == |before|
                  && (forall k :: 0 <= k < |before| && k != i ==> after[k] == before[k])
                  && ShowsOccurrence(after[i], a) && after[i].count == before[i].count + 1
                  && after[i].id == before[i].id == id && after[i].firstAudit == before[i].firstAudit
    else
      && |after| == |before| + 1 && after[..|before|] == before
      && ShowsOccurrence(after[|before|], a) && after[|before|].count == 1
      && after[|before|].id == id == "recurrence-" + a.audit && after[|before|].firstAudit == a.audit
  }

  /** A detection that is in order and new is recorded, with an observation that points at its record; any other
      leaves the ledger as it is. */
  lemma DetectExactly(l: Ledger, a: Action)
    requires a.Detect? && forall i :: 0 <= i < |l.records| ==> l.records[i].count >= 1
    ensures var after := Observe(l, ObservationOf(a), CandidateOf(a)).ledger;
            if !NewlySeen(l, a) then after == l
            else
              && |after.observations| == |l.observations| + 1 && after.observations[..|l.observations|] == l.observations
              && var o := after.observations[|l.observations|];
                 o.tenant == a.tenant && o.gap == a.gap && o.audit == a.audit && Records(l.records, after.records, a, o.recurrenceID)
  {
    hide ValidObservation, ValidRecurrence, NewlySeen, Observe;
    ObserveCases(l, a);
    var i := OpenIndex(l.records, a.tenant, a.gap);
    var after := Observe(l, ObservationOf(a), CandidateOf(a)).ledger;
    if NewlySeen(l, a) && i < |l.records| {
      assert IsOpen(l.records[i], a.tenant, a.gap);
      assert after.records[i] == Merged(l.records[i], CandidateOf(a));
    }
  }

  /** What a detection has to have to be in order: usable ids, and an audit not yet observed for the gap. */
  lemma NewlySeenMeans(l: Ledger, a: Action)
    requires a.Detect?
    ensures NewlySeen(l, a) <==>
            && TurnRecords.ValidContractId(Trim(a.tenant)) && TurnRecords.ValidContractId(Trim(a.gap))
            && TurnRecords.ValidContractId(Trim(a.audit)) && TurnRecords.ValidContractId(Trim(a.space))
            && TurnRecords.ValidContractId(Trim("recurrence-" + a.audit))
            && forall k :: 0 <= k < |l.observations| ==>
                 !(l.observations[k].tenant == a.tenant && l.observations[k].gap == a.gap && l.observations[k].audit == a.audit)
  {
    hide ValidContractId, Trim;
  }

  /** A verdict changes the status and its date and reason; everything else is that of the copy. */
  predicate VerdictOn(copy: Recurrence, after: Recurrence, a: Action) {
    && after.id == copy.id && after.tenant == copy.tenant && after.gap == copy.gap && after.space == copy.space
    && after.firstAudit == copy.firstAudit && after.latestAudit == copy.latestAudit && after.count == copy.count
    && after.answer == copy.answer
    && match a
       case Confirm(_, name, now) =>
         after.status == Confirmed && after.confirmedBy == Squash(name) && after.dismissReason == copy.dismissReason && after.updatedAt == now
       case Dismiss(_, reason, now) =>
         after.status == Dismissed && after.dismissReason == Squash(reason) && after.confirmedBy == copy.confirmedBy && after.updatedAt == now
       case _ => false
  }

  lemma NormalizedIsSquashed(s: string)
    ensures NormalizedText(s) == Squash(s)
  {
    hide Squash, Trim;
    var a, b := TrimParts(s);
    SquashPart(a, Trim(s), b);
  }

  /** A review that saves, saves the verdict on the copy its client holds, and lets go of it; a dismissal needs a
      reason of 1 to 240 characters once its white space is squashed. */
  lemma ReviewExactly(w: World, a: Action)
    requires a.Confirm? || a.Dismiss?
    ensures var c := if a.Confirm? then a.operator else a.dismisser;
            && Apply(w, a).held == w.held - {c}
            && (Reviewed(w, a).Some? <==> c in w.held && (a.Dismiss? ==> 1 <= |Squash(a.reason)| <= 240))
            && (Reviewed(w, a).Some? ==> VerdictOn(w.held[c], Reviewed(w, a).value, a))
            && (Reviewed(w, a).None? ==> Apply(w, a).ledger == w.ledger)
  {
    hide NormalizedText, Squash, Save;
    NormalizedIsSquashed(if a.Confirm? then a.confirmedBy else a.reason);
  }

  lemma MergeRecords(l: Ledger, a: Action, i: nat)
    requires a.Detect? && NewlySeen(l, a) && i < |l.records| && IsOpen(l.records[i], a.tenant, a.gap)
    requires DistinctRecords(l.records) && OneOpenEach(l.records) && AllNamed(l) && CountsAtMost(l)
    ensures var merged := Merged(l.records[i], CandidateOf(a));
            var o := ObservationOf(a).(recurrenceID := merged.id);
            var m := Ledger(l.records[i := merged], l.observations + [o]);
            && Replaces(l.records, i, merged)
            && DistinctRecords(m.records) && OneOpenEach(m.records) && AllNamed(m) && CountsAtMost(m)
            && (CountsExact(l) ==> CountsExact(m))
  {
    hide ValidObservation, ValidRecurrence, Observes, DistinctRecords, OneOpenEach, Pointing, Named, NewlySeen,
      Merged;
    var merged := Merged(l.records[i], CandidateOf(a));
    MergedIs(l.records[i], CandidateOf(a));
    var o := ObservationOf(a).(recurrenceID := merged.id);
    var m := Ledger(l.records[i := merged], l.observations + [o]);
    assert Named(l.records[i], l.observations);
    assert l.records[i].count >= 1;
    ReplaceKeepsRecords(l.records, i, merged);
    forall k | 0 <= k < |m.records|
      ensures Named(m.records[k], m.observations)
      ensures 1 <= m.records[k].count <= Pointing(m.observations, m.records[k].tenant, m.records[k].id)
      ensures CountsExact(l) ==> m.records[k].count == Pointing(m.observations, m.records[k].tenant, m.records[k].id)
    {
      assert Named(l.records[k], l.observations);
      assert 1 <= l.records[k].count <= Pointing(l.observations, l.records[k].tenant, l.records[k].id);
      PointingSnoc(l.observations, o, m.records[k].tenant, m.records[k].id);
      if k == i {
        MergeKeepsName(l, a, i);
        NamedStays(merged, l.observations, o);
      } else {
        NamedStays(l.records[k], l.observations, o);
        OthersDiffer(l.records, i, k);
      }
    }
  }

  lemma MergedIs(existing: Recurrence, candidate: Recurrence)
    requires existing.tenant == candidate.tenant && existing.gap == candidate.gap && candidate.count == 1
    ensures var m := Merged(existing, candidate);
            && SameIdentity(m, existing) && m.status == candidate.status
            && (existing.count >= 1 ==> m.count == existing.count + 1)
  {
  }

  lemma MergeKeepsName(l: Ledger, a: Action, i: nat)
    requires NewlySeen(l, a) && i < |l.records| && IsOpen(l.records[i], a.tenant, a.gap) && Named(l.records[i], l.observations)
    ensures Named(Merged(l.records[i], CandidateOf(a)), l.observations)
  {
    hide ValidKnowledgeID, Observes, ValidObservation;
  }

  lemma OthersDiffer(records: seq<Recurrence>, i: nat, k: nat)
    requires DistinctRecords(records) && i < |records| && k < |records|
    ensures k != i ==> !IsRecord(records[k], records[i].tenant, records[i].id)
  {
  }

  lemma AppendRecords(l: Ledger, a: Action, gapOf: (string, string) -> string)
    requires NewlySeen(l, a) && a.gap == gapOf(a.tenant, a.audit) && OpenIndex(l.records, a.tenant, a.gap) == |l.records|
    requires DistinctRecords(l.records) && OneOpenEach(l.records) && AllNamed(l) && CountsAtMost(l)
    requires GapsAgree(l.observations, gapOf) && AllResolve(l)
    ensures var c := CandidateOf(a);
            var m := Ledger(l.records + [c], l.observations + [ObservationOf(a).(recurrenceID := c.id)]);
            && DistinctRecords(m.records) && OneOpenEach(m.records) && AllNamed(m) && CountsAtMost(m)
            && (CountsExact(l) ==> CountsExact(m))
  {
    hide ValidObservation, ValidRecurrence, Pointing, Resolves;
    var c := CandidateOf(a);
    var o := ObservationOf(a).(recurrenceID := c.id);
    var m := Ledger(l.records + [c], l.observations + [o]);
    forall k | 0 <= k < |l.records| ensures !IsRecord(l.records[k], c.tenant, c.id) { NoSuchRecord(l, a, k, gapOf); }
    AppendIsOpen(l.records, c);
    forall k | 0 <= k < |m.records|
      ensures Named(m.records[k], m.observations)
      ensures 1 <= m.records[k].count <= Pointing(m.observations, m.records[k].tenant, m.records[k].id)
      ensures CountsExact(l) ==> m.records[k].count == Pointing(m.observations, m.records[k].tenant, m.records[k].id)
    {
      PointingSnoc(l.observations, o, m.records[k].tenant, m.records[k].id);
      if k < |l.records| {
        assert m.records[k] == l.records[k] && Named(l.records[k], l.observations);
        assert 1 <= l.records[k].count <= Pointing(l.observations, l.records[k].tenant, l.records[k].id);
        NamedStays(l.records[k], l.observations, o);
      } else {
        ObservesMore(l.observations, o, c.tenant, c.gap, c.firstAudit);
        NothingPoints(l, c);
      }
    }
  }

  /** The id of a new record is not taken: its audit would have been observed for the same gap already. */
  lemma NoSuchRecord(l: Ledger, a: Action, k: nat, gapOf: (string, string) -> string)
    requires NewlySeen(l, a) && a.gap == gapOf(a.tenant, a.audit) && k < |l.records|
    requires AllNamed(l) && GapsAgree(l.observations, gapOf)
    ensures !IsRecord(l.records[k], a.tenant, RecurrenceID(a.audit))
  {
    hide ValidObservation, ValidRecurrence;
    var r := l.records[k];
    assert Named(r, l.observations);
    SameAudit(r.firstAudit, a.audit);
    var j :| 0 <= j < |l.observations| && HasKey(l.observations[j], r.tenant, r.gap, r.firstAudit);
    assert l.observations[j].gap == gapOf(r.tenant, r.firstAudit);
  }

  lemma SameAudit(x: string, y: string)
    ensures RecurrenceID(x) == RecurrenceID(y) ==> x == y
  {
    var n := |"recurrence-"|;
    assert RecurrenceID(x)[n..] == x && RecurrenceID(y)[n..] == y;
  }

  lemma NothingPoints(l: Ledger, c: Recurrence)
    requires AllResolve(l) && forall k :: 0 <= k < |l.records| ==> !IsRecord(l.records[k], c.tenant, c.id)
    ensures Pointing(l.observations, c.tenant, c.id) == 0
  {
    hide Pointing;
    forall k | 0 <= k < |l.observations| ensures !(l.observations[k].tenant == c.tenant && l.observations[k].recurrenceID == c.id) {
      assert Resolves(l.records, l.observations[k]);
    }
    PointingNone(l.observations, c.tenant, c.id);
  }

  lemma AppendIsOpen(records: seq<Recurrence>, c: Recurrence)
    requires DistinctRecords(records) && OneOpenEach(records)
    requires forall k :: 0 <= k < |records| ==> !IsRecord(records[k], c.tenant, c.id)
    requires OpenIndex(records, c.tenant, c.gap) == |records|
    ensures DistinctRecords(records + [c]) && OneOpenEach(records + [c])
  {
    assert forall k :: 0 <= k < |records| ==> !IsOpen(records[k], c.tenant, c.gap);
    AppendDistinct(records, c);
  }

  lemma AppendDistinct(records: seq<Recurrence>, c: Recurrence)
    requires DistinctRecords(records) && forall k :: 0 <= k < |records| ==> !IsRecord(records[k], c.tenant, c.id)
    ensures DistinctRecords(records + [c])
  {
  }

  ghost predicate MergedInto(records: seq<Recurrence>, after: seq<Recurrence>, a: Action, id: string)
    requires a.Detect?
  {
    exists i, r :: Replaces(records, i, r) && after == records[i := r] && r.tenant == a.tenant && r.gap == a.gap && r.id == id
  }

  predicate AppendedTo(records: seq<Recurrence>, after: seq<Recurrence>, a: Action, id: string)
    requires a.Detect?
  {
    after == records + [CandidateOf(a)] && id == RecurrenceID(a.audit)
  }

  /** The parts of the invariant about observations and held copies, for either form of a new detection. */
  lemma NewObservationKeeps(w: World, a: Action, m: Ledger, id: string, gapOf: (string, string) -> string)
    requires NewlySeen(w.ledger, a) && a.gap == gapOf(a.tenant, a.audit)
    requires DistinctKeys(w.ledger.observations) && GapsAgree(w.ledger.observations, gapOf) && AllResolve(w.ledger) && AllHeldOld(w)
    requires m.observations == w.ledger.observations + [ObservationOf(a).(recurrenceID := id)]
    requires MergedInto(w.ledger.records, m.records, a, id) || AppendedTo(w.ledger.records, m.records, a, id)
    ensures DistinctKeys(m.observations) && GapsAgree(m.observations, gapOf) && AllResolve(m) && AllHeldOld(w.(ledger := m))
  {
    hide ValidObservation, ValidRecurrence, Pointing, Resolves, HeldIsOld;
    var l := w.ledger;
    var o := ObservationOf(a).(recurrenceID := id);
    KeysMore(l.observations, o);
    forall k | 0 <= k < |m.observations| ensures Resolves(m.records, m.observations[k]) {
      if k < |l.observations| { assert m.observations[k] == l.observations[k] && Resolves(l.records, l.observations[k]); }
      if AppendedTo(l.records, m.records, a, id) {
        AppendKeepsResolves(l.records, CandidateOf(a), m.observations[k]);
      } else {
        var i, r :| Replaces(l.records, i, r) && m.records == l.records[i := r] && r.tenant == a.tenant && r.gap == a.gap && r.id == id;
        if k < |l.observations| { ReplaceKeepsResolves(l.records, i, r, m.observations[k]); }
        else { PointsAt(m.records, i, m.observations[k]); }
      }
    }
    forall c | c in w.held ensures HeldIsOld(m, w.held[c]) {
      NewObservationKeepsHeld(l, a, m, id, w.held[c]);
    }
  }

  lemma PointsAt(records: seq<Recurrence>, i: int, o: Observation)
    requires 0 <= i < |records| && IsRecord(records[i], o.tenant, o.recurrenceID) && records[i].gap == o.gap
    ensures Resolves(records, o)
  {
  }

  lemma NewObservationKeepsHeld(l: Ledger, a: Action, m: Ledger, id: string, held: Recurrence)
    requires a.Detect? && HeldIsOld(l, held)
    requires m.observations == l.observations + [ObservationOf(a).(recurrenceID := id)]
    requires MergedInto(l.records, m.records, a, id) || AppendedTo(l.records, m.records, a, id)
    ensures HeldIsOld(m, held)
  {
    hide ValidRecurrence, Pointing;
    PointingSnoc(l.observations, ObservationOf(a).(recurrenceID := id), held.tenant, held.id);
    if AppendedTo(l.records, m.records, a, id) {
      AppendKeepsIndex(l.records, CandidateOf(a), held.tenant, held.id);
    } else {
      var i, r :| Replaces(l.records, i, r) && m.records == l.records[i := r] && r.tenant == a.tenant && r.gap == a.gap && r.id == id;
      ReplaceKeepsIndex(l.records, i, r, held.tenant, held.id);
    }
    HeldStays(l, m, held);
  }

  lemma DetectKeeps(w: World, a: Action, gapOf: (string, string) -> string)
    requires a.Detect? && Inv(w, gapOf) && a.gap == gapOf(a.tenant, a.audit)
    ensures Inv(Apply(w, a), gapOf)
    ensures CountsExact(w.ledger) ==> CountsExact(Apply(w, a).ledger)
  {
    hide NewlySeen, DistinctRecords, OneOpenEach, DistinctKeys, GapsAgree, AllNamed, CountsAtMost, CountsExact,
      AllResolve, AllHeldOld, Observe;
    ObserveCases(w.ledger, a);
    if NewlySeen(w.ledger, a) {
      var i := OpenIndex(w.ledger.records, a.tenant, a.gap);
      var m := Apply(w, a).ledger;
      if i < |w.ledger.records| {
        MergeRecords(w.ledger, a, i);
        var merged := Merged(w.ledger.records[i], CandidateOf(a));
        assert Replaces(w.ledger.records, i, merged);
        NewObservationKeeps(w, a, m, merged.id, gapOf);
      } else {
        AppendRecords(w.ledger, a, gapOf);
        NewObservationKeeps(w, a, m, RecurrenceID(a.audit), gapOf);
      }
    }
  }

  // ----- Reviews keep the invariant

  /** The record a review would save over. */
  function Target(w: World, r: Recurrence): nat {
    RecordIndex(w.ledger.records, r.tenant, r.id)
  }

  lemma ReviewedIsHeld(w: World, a: Action)
    requires AllHeldOld(w) && Reviewed(w, a).Some?
    ensures var r := Reviewed(w, a).value;
            && r.status != Suspected && ValidRecurrence(r)
            && Target(w, r) < |w.ledger.records| && Replaces(w.ledger.records, Target(w, r), r)
            && r.count <= Pointing(w.ledger.observations, r.tenant, r.id)
            && Apply(w, a).ledger == w.ledger.(records := w.ledger.records[Target(w, r) := r])
  {
    hide ValidKnowledgeID, NormalizedText, Pointing;
    var c := if a.Confirm? then a.operator else a.dismisser;
    assert HeldIsOld(w.ledger, w.held[c]);
  }

  lemma ReviewKeeps(w: World, a: Action, gapOf: (string, string) -> string)
    requires Inv(w, gapOf) && (a.Confirm? || a.Dismiss?)
    ensures Inv(Apply(w, a), gapOf)
    ensures CountsExact(w.ledger) && Reviewed(w, a).Some? ==>
              (CountsExact(Apply(w, a).ledger) <==>
               Reviewed(w, a).value.count == w.ledger.records[Target(w, Reviewed(w, a).value)].count)
  {
    hide Observes, DistinctRecords, OneOpenEach, DistinctKeys, GapsAgree, Resolves, Pointing, HeldIsOld,
      ValidRecurrence, NormalizedText, Reviewed, Save;
    var after := Apply(w, a);
    if Reviewed(w, a).None? {
      assert after.ledger == w.ledger;
    } else {
      ReviewedIsHeld(w, a);
      var r := Reviewed(w, a).value;
      var records, i := w.ledger.records, Target(w, r);
      ReplaceKeepsRecords(records, i, r);
      assert Named(records[i], w.ledger.observations);
      forall k | 0 <= k < |records| ensures Named(after.ledger.records[k], w.ledger.observations) {
        assert Named(records[k], w.ledger.observations);
      }
      forall k | 0 <= k < |w.ledger.observations| ensures Resolves(after.ledger.records, w.ledger.observations[k]) {
        ReplaceKeepsResolves(records, i, r, w.ledger.observations[k]);
      }
      forall c | c in after.held ensures HeldIsOld(after.ledger, w.held[c]) {
        HeldAfterReview(w, r, w.held[c]);
      }
      assert after.ledger.records[i] == r;
      assert 1 <= r.count by { ValidCount(r); }
    }
  }

  lemma ValidCount(r: Recurrence)
    requires ValidRecurrence(r)
    ensures r.count >= 1
  {
  }

  lemma HeldAfterReview(w: World, r: Recurrence, held: Recurrence)
    requires HeldIsOld(w.ledger, held) && Target(w, r) < |w.ledger.records| && Replaces(w.ledger.records, Target(w, r), r)
    ensures HeldIsOld(w.ledger.(records := w.ledger.records[Target(w, r) := r]), held)
  {
    hide ValidRecurrence, Pointing;
    ReplaceKeepsIndex(w.ledger.records, Target(w, r), r, held.tenant, held.id);
    HeldStays(w.ledger, w.ledger.(records := w.ledger.records[Target(w, r) := r]), held);
  }

  lemma GetKeeps(w: World, a: Action, gapOf: (string, string) -> string)
    requires Inv(w, gapOf) && a.Get?
    ensures Inv(Apply(w, a), gapOf) && Apply(w, a).ledger == w.ledger
  {
    hide Observes, DistinctRecords, OneOpenEach, DistinctKeys, GapsAgree, AllResolve, Pointing, HeldIsOld,
      ValidRecurrence;
    var i := RecordIndex(w.ledger.records, a.owner, a.id);
    if i < |w.ledger.records| {
      var r := w.ledger.records[i];
      assert Named(r, w.ledger.observations);
      assert 1 <= r.count <= Pointing(w.ledger.observations, r.tenant, r.id);
      if r.status == Suspected { FreshCopy(w.ledger, i); }
    }
  }

  lemma FreshCopy(l: Ledger, i: nat)
    requires i < |l.records| && l.records[i].status == Suspected && ValidRecurrence(l.records[i])
    requires l.records[i].count <= Pointing(l.observations, l.records[i].tenant, l.records[i].id)
    requires forall k :: 0 <= k < i ==> !IsRecord(l.records[k], l.records[i].tenant, l.records[i].id)
    ensures HeldIsOld(l, l.records[i])
  {
    hide ValidRecurrence, Pointing;
    IndexIs(l.records, l.records[i].tenant, l.records[i].id, i);
  }

  lemma StepKeeps(w: World, a: Action, gapOf: (string, string) -> string)
    requires Inv(w, gapOf) && (a.Detect? ==> a.gap == gapOf(a.tenant, a.audit))
    ensures Inv(Apply(w, a), gapOf)
  {
    hide Inv, Apply, CountsExact;
    match a
    case Detect(_, _, _, _, _, _) => DetectKeeps(w, a, gapOf);
    case Get(_, _, _) => GetKeeps(w, a, gapOf);
    case Confirm(_, _, _) => ReviewKeeps(w, a, gapOf);
    case Dismiss(_, _, _) => ReviewKeeps(w, a, gapOf);
  }

  // ----- Theorems about runs

  /** In every interleaving, when one audit id is never used for two gaps: record ids and observation keys are
      unique, each gap has at most one suspected record, every observation resolves to a record of its own gap,
      and no record counts more occurrences than were observed. */
  lemma {:induction false} RunKeeps(actions: seq<Action>, gapOf: (string, string) -> string)
    requires OneGapEach(actions, gapOf)
    ensures Inv(Run(actions), gapOf)
    decreases |actions|
  {
    hide Inv, Apply;
    if actions == [] {
      EmptyKeeps(gapOf);
    } else {
      var before, last := actions[..|actions| - 1], actions[|actions| - 1];
      RunKeeps(before, gapOf);
      StepKeeps(Run(before), last, gapOf);
    }
  }

  lemma EmptyKeeps(gapOf: (string, string) -> string)
    ensures Inv(World(Empty, map[]), gapOf) && CountsExact(Empty)
  {
  }

  /** What a review saves carries the stored count. */
  predicate CountKept(w: World, a: Action) {
    Reviewed(w, a).Some? ==>
      var r := Reviewed(w, a).value;
      Target(w, r) < |w.ledger.records| && r.count == w.ledger.records[Target(w, r)].count
  }

  predicate CountsKept(actions: seq<Action>) {
    forall k :: 0 <= k < |actions| ==> CountKept(Run(actions[..k]), actions[k])
  }

  predicate AlwaysExact(actions: seq<Action>) {
    forall m :: 0 <= m <= |actions| ==> CountsExact(Run(actions[..m]).ledger)
  }

  /** One step keeps exact counts exact if and only if it is no review that saves another count. */
  lemma ExactStep(w: World, a: Action, gapOf: (string, string) -> string)
    requires Inv(w, gapOf) && CountsExact(w.ledger)
    requires a.Detect? ==> a.gap == gapOf(a.tenant, a.audit)
    ensures CountsExact(Apply(w, a).ledger) <==> CountKept(w, a)
  {
    hide DistinctRecords, OneOpenEach, DistinctKeys, GapsAgree, AllNamed, CountsAtMost, AllResolve, HeldIsOld,
      CountsExact, NormalizedText, Observe, Save;
    match a
    case Detect(_, _, _, _, _, _) => DetectKeeps(w, a, gapOf);
    case Get(_, _, _) => GetKeeps(w, a, gapOf);
    case Confirm(_, _, _) => ReviewKeeps(w, a, gapOf); if Reviewed(w, a).Some? { ReviewedIsHeld(w, a); }
    case Dismiss(_, _, _) => ReviewKeeps(w, a, gapOf); if Reviewed(w, a).Some? { ReviewedIsHeld(w, a); }
  }

  lemma PrefixStep(actions: seq<Action>, gapOf: (string, string) -> string, k: nat)
    requires OneGapEach(actions, gapOf) && k < |actions|
    ensures Inv(Run(actions[..k]), gapOf) && Run(actions[..k + 1]) == Apply(Run(actions[..k]), actions[k])
    ensures actions[k].Detect? ==> actions[k].gap == gapOf(actions[k].tenant, actions[k].audit)
  {
    hide Inv, Apply, Run;
    RunKeeps(actions[..k], gapOf);
    RunSnoc(actions[..k], actions[k]);
    assert actions[..k + 1] == actions[..k] + [actions[k]];
  }

  /** Throughout a run every record counts exactly the observations that point at it, if and only if no
      review saves a count other than the stored one. */
  lemma CountsExactly(actions: seq<Action>, gapOf: (string, string) -> string)
    requires OneGapEach(actions, gapOf)
    ensures AlwaysExact(actions) <==> CountsKept(actions)
  {
    hide Inv, Apply, Run, CountsExact, CountKept, OneGapEach;
    if CountsKept(actions) {
      forall m | 0 <= m <= |actions| ensures CountsExact(Run(actions[..m]).ledger) { ExactAt(actions, gapOf, m); }
    }
    if AlwaysExact(actions) {
      forall k | 0 <= k < |actions| ensures CountKept(Run(actions[..k]), actions[k]) {
        PrefixStep(actions, gapOf, k);
        assert CountsExact(Run(actions[..k]).ledger) && CountsExact(Run(actions[..k + 1]).ledger);
        ExactStep(Run(actions[..k]), actions[k], gapOf);
      }
    }
  }

  lemma {:induction false} ExactAt(actions: seq<Action>, gapOf: (string, string) -> string, m: nat)
    requires OneGapEach(actions, gapOf) && CountsKept(actions) && m <= |actions|
    ensures CountsExact(Run(actions[..m]).ledger)
  {
    hide Inv, Apply, Run, CountsExact, CountKept, OneGapEach;
    if m == 0 {
      EmptyKeeps(gapOf);
      RunSnoc([], Get(0, "", ""));
      assert actions[..0] == [];
    } else {
      ExactAt(actions, gapOf, m - 1);
      PrefixStep(actions, gapOf, m - 1);
      assert CountKept(Run(actions[..m - 1]), actions[m - 1]);
      ExactStep(Run(actions[..m - 1]), actions[m - 1], gapOf);
    }
  }

  predicate Terminal(r: Recurrence) {
    r.status != Suspected
  }

  /** The step is a review that saves over record i a copy that differs from it. */
  predicate Overwrites(w: World, a: Action, i: nat) {
    && i < |w.ledger.records| && Reviewed(w, a).Some?
    && Target(w, Reviewed(w, a).value) == i && Reviewed(w, a).value != w.ledger.records[i]
  }

  /** A step changes a terminal record exactly when it is a review that saves a different copy over it;
      the record stays terminal and keeps its identity in any case. */
  lemma TerminalKept(w: World, a: Action, i: nat, gapOf: (string, string) -> string)
    requires Inv(w, gapOf) && i < |w.ledger.records| && Terminal(w.ledger.records[i])
    ensures var after := Apply(w, a).ledger.records;
            && i < |after| && SameIdentity(after[i], w.ledger.records[i]) && Terminal(after[i])
            && (after[i] != w.ledger.records[i] <==> Overwrites(w, a, i))
  {
    hide Observes, DistinctRecords, OneOpenEach, DistinctKeys, GapsAgree, AllResolve, AllNamed, CountsAtMost,
      Pointing, NormalizedText, ValidRecurrence, ValidObservation;
    if a.Detect? {
      hide Observe;
      ObserveCases(w.ledger, a);
    } else if Reviewed(w, a).Some? {
      hide Save, Apply;
      ReviewedIsHeld(w, a);
    }
  }

  /** A review finds its target still suspected, or equal to what it saves. */
  predicate Harmless(w: World, a: Action) {
    Reviewed(w, a).Some? ==>
      var r := Reviewed(w, a).value;
      var i := Target(w, r);
      i < |w.ledger.records| && (w.ledger.records[i].status == Suspected || w.ledger.records[i] == r)
  }

  predicate HarmlessRun(actions: seq<Action>) {
    forall k :: 0 <= k < |actions| ==> Harmless(Run(actions[..k]), actions[k])
  }

  /** Record i is the same after k steps and after m. */
  predicate SameRecord(actions: seq<Action>, k: nat, m: nat, i: nat)
    requires k <= |actions| && m <= |actions|
  {
    var before, after := Run(actions[..k]).ledger.records, Run(actions[..m]).ledger.records;
    i < |before| && i < |after| && after[i] == before[i]
  }

  /** After k steps record i is confirmed or dismissed. */
  predicate TerminalAt(actions: seq<Action>, k: nat, i: nat)
    requires k <= |actions|
  {
    i < |Run(actions[..k]).ledger.records| && Terminal(Run(actions[..k]).ledger.records[i])
  }

  /** Once confirmed or dismissed, a record is never changed again. */
  ghost predicate VerdictsFinal(actions: seq<Action>) {
    forall k: nat, m: nat, i: nat :: k <= m <= |actions| && TerminalAt(actions, k, i) ==> SameRecord(actions, k, m, i)
  }

  /** Verdicts are final in a run if and only if every review that saves finds its target still
      suspected, or already equal to what it saves. */
  lemma TerminalForever(actions: seq<Action>, gapOf: (string, string) -> string)
    requires OneGapEach(actions, gapOf)
    ensures VerdictsFinal(actions) <==> HarmlessRun(actions)
  {
    hide Inv, Apply, Run, OneGapEach, Harmless, TerminalAt, SameRecord;
    if HarmlessRun(actions) {
      forall k: nat, m: nat, i: nat | k <= m <= |actions| && TerminalAt(actions, k, i) ensures SameRecord(actions, k, m, i) {
        StaysTerminal(actions, gapOf, k, m, i);
      }
    } else {
      var k :| 0 <= k < |actions| && !Harmless(Run(actions[..k]), actions[k]);
      var i := VerdictChanged(actions, gapOf, k);
      assert k <= k + 1 <= |actions|;
    }
  }

  lemma VerdictChanged(actions: seq<Action>, gapOf: (string, string) -> string, k: nat) returns (i: nat)
    requires OneGapEach(actions, gapOf) && k < |actions| && !Harmless(Run(actions[..k]), actions[k])
    ensures TerminalAt(actions, k, i) && !SameRecord(actions, k, k + 1, i)
  {
    hide Inv, Apply, Run, OneGapEach, Reviewed, SameIdentity;
    PrefixStep(actions, gapOf, k);
    var w, a := Run(actions[..k]), actions[k];
    HeldInRange(w, a, gapOf);
    i := Target(w, Reviewed(w, a).value);
    TerminalKept(w, a, i, gapOf);
  }

  lemma HeldInRange(w: World, a: Action, gapOf: (string, string) -> string)
    requires Inv(w, gapOf) && Reviewed(w, a).Some?
    ensures Target(w, Reviewed(w, a).value) < |w.ledger.records|
  {
    hide AllHeldOld, Apply, Replaces, ValidRecurrence, Pointing;
    ReviewedIsHeld(w, a);
  }

  lemma {:induction false} StaysTerminal(actions: seq<Action>, gapOf: (string, string) -> string, k: nat, m: nat, i: nat)
    requires OneGapEach(actions, gapOf) && HarmlessRun(actions) && k <= m <= |actions| && TerminalAt(actions, k, i)
    ensures SameRecord(actions, k, m, i)
    decreases m
  {
    hide Inv, Apply, Run, OneGapEach, SameIdentity, Reviewed;
    if k < m {
      StaysTerminal(actions, gapOf, k, m - 1, i);
      PrefixStep(actions, gapOf, m - 1);
      assert Harmless(Run(actions[..m - 1]), actions[m - 1]);
      TerminalKept(Run(actions[..m - 1]), actions[m - 1], i, gapOf);
    }
  }

  /** A review that follows its read at once harms no verdict and no count. */
  lemma AtomicReviewIsHarmless(w: World, c: nat, tenant: string, id: string, review: Action)
    requires review.Confirm? || review.Dismiss?
    requires (if review.Confirm? then review.operator else review.dismisser) == c
    ensures Harmless(Apply(w, Get(c, tenant, id)), review) && CountKept(Apply(w, Get(c, tenant, id)), review)
  {
    hide NormalizedText;
    var i := RecordIndex(w.ledger.records, tenant, id);
    if i < |w.ledger.records| { IndexIs(w.ledger.records, w.ledger.records[i].tenant, w.ledger.records[i].id, i); }
  }

  /** Detecting the same audit for the same gap again changes nothing and answers with a record of that gap. */
  lemma RepeatedDetection(w: World, a: Action, gapOf: (string, string) -> string)
    requires Inv(w, gapOf) && a.Detect? && Observes(w.ledger.observations, a.tenant, a.gap, a.audit)
    requires ValidObservation(ObservationOf(a)) && ValidRecurrence(CandidateOf(a))
    ensures var r := Observe(w.ledger, ObservationOf(a), CandidateOf(a));
            r.ledger == w.ledger && r.observed.Known? && r.observed.record.tenant == a.tenant && r.observed.record.gap == a.gap
  {
    hide DistinctKeys, OneOpenEach, GapsAgree, AllNamed, CountsAtMost, AllHeldOld, Pointing, ValidRecurrence,
      ValidObservation;
    var l := w.ledger;
    IndexSaysObserved(l.observations, a.tenant, a.gap, a.audit);
    var k := ObservationIndex(l.observations, a.tenant, a.gap, a.audit);
    var o := l.observations[k];
    assert Resolves(l.records, o);
    var i :| 0 <= i < |l.records| && IsRecord(l.records[i], o.tenant, o.recurrenceID) && l.records[i].gap == o.gap;
    forall j | 0 <= j < i ensures !IsRecord(l.records[j], o.tenant, o.recurrenceID) { OthersDiffer(l.records, i, j); }
    IndexIs(l.records, o.tenant, o.recurrenceID, i);
  }

  // ----- What goes wrong otherwise

  /** An occurrence detected between an operator's read and save is lost from the count. */
  lemma LostOccurrence(w: World, a: Action, c: nat, name: string, now: int, gapOf: (string, string) -> string)
    requires Inv(w, gapOf) && CountsExact(w.ledger) && a.Detect? && a.gap == gapOf(a.tenant, a.audit) && NewlySeen(w.ledger, a)
    requires c in w.held && IsOpen(w.held[c], a.tenant, a.gap)
    requires var i := RecordIndex(w.ledger.records, w.held[c].tenant, w.held[c].id);
             i < |w.ledger.records| && w.ledger.records[i] == w.held[c]
    ensures var after := Apply(Apply(w, a), Confirm(c, name, now)).ledger;
            var i := RecordIndex(w.ledger.records, w.held[c].tenant, w.held[c].id);
            && i < |after.records| && IsRecord(after.records[i], w.held[c].tenant, w.held[c].id)
            && after.records[i].status == Confirmed
            && after.records[i].count == Pointing(after.observations, w.held[c].tenant, w.held[c].id) - 1
  {
    hide Observes, AllNamed, DistinctKeys, GapsAgree, AllResolve, CountsAtMost, Pointing, NormalizedText,
      ValidRecurrence, ValidObservation, HeldIsOld, Observe, NewlySeen, Save;
    var h := w.held[c];
    var i := RecordIndex(w.ledger.records, h.tenant, h.id);
    OnlyOpen(w.ledger.records, i, a.tenant, a.gap);
    ObserveCases(w.ledger, a);
    DetectKeeps(w, a, gapOf);
    var mid := Apply(w, a);
    var review := Confirm(c, name, now);
    ReviewedIsHeld(mid, review);
    ReplaceKeepsIndex(w.ledger.records, i, Merged(h, CandidateOf(a)), h.tenant, h.id);
    PointingSnoc(w.ledger.observations, ObservationOf(a).(recurrenceID := h.id), h.tenant, h.id);
    assert h.count == Pointing(w.ledger.observations, h.tenant, h.id);
  }

  lemma OnlyOpen(records: seq<Recurrence>, i: nat, tenant: string, gap: string)
    requires OneOpenEach(records) && i < |records| && IsOpen(records[i], tenant, gap)
    ensures OpenIndex(records, tenant, gap) == i
  {
    forall k | 0 <= k < i ensures !IsOpen(records[k], tenant, gap) { NotOpenBefore(records, k, i); }
    OpenIndexIs(records, tenant, gap, i);
  }

  lemma NotOpenBefore(records: seq<Recurrence>, k: nat, i: nat)
    requires OneOpenEach(records) && k < i < |records|
    ensures IsOpen(records[i], records[i].tenant, records[i].gap) ==> !IsOpen(records[k], records[i].tenant, records[i].gap)
  {
  }

  lemma OpenIndexIs(records: seq<Recurrence>, tenant: string, gap: string, n: nat)
    requires n <= |records| && (n < |records| ==> IsOpen(records[n], tenant, gap))
    requires forall i :: 0 <= i < n ==> !IsOpen(records[i], tenant, gap)
    ensures OpenIndex(records, tenant, gap) == n
  {
  }

  /** Of two operators who read the same suspected record, the later one overwrites the verdict of the earlier. */
  lemma LateDismissal(w: World, c: nat, d: nat, name: string, reason: string, now: int, later: int, gapOf: (string, string) -> string)
    requires Inv(w, gapOf) && c != d && c in w.held && d in w.held
    requires w.held[c].tenant == w.held[d].tenant && w.held[c].id == w.held[d].id
    requires 0 < |NormalizedText(reason)| <= 240
    ensures var confirmed := Apply(w, Confirm(c, name, now)).ledger.records;
            var dismissed := Apply(Apply(w, Confirm(c, name, now)), Dismiss(d, reason, later)).ledger.records;
            var i := RecordIndex(w.ledger.records, w.held[c].tenant, w.held[c].id);
            i < |confirmed| && confirmed[i].status == Confirmed && i < |dismissed| && dismissed[i].status == Dismissed
  {
    hide AllNamed, DistinctKeys, DistinctRecords, OneOpenEach, GapsAgree, AllResolve, CountsAtMost, Pointing,
      NormalizedText, ValidRecurrence, HeldIsOld, Save;
    var h := w.held[c];
    var i := RecordIndex(w.ledger.records, h.tenant, h.id);
    ReviewKeeps(w, Confirm(c, name, now), gapOf);
    ReviewedIsHeld(w, Confirm(c, name, now));
    var mid := Apply(w, Confirm(c, name, now));
    ReviewedIsHeld(mid, Dismiss(d, reason, later));
    ReplaceKeepsIndex(w.ledger.records, i, Reviewed(w, Confirm(c, name, now)).value, h.tenant, h.id);
  }

  function DetectBoth(l: Ledger, a: Action, b: Action): Ledger
    requires a.Detect? && b.Detect?
  {
    Observe(Observe(l, ObservationOf(a), CandidateOf(a)).ledger, ObservationOf(b), CandidateOf(b)).ledger
  }

  /** An audit id used for two gaps makes two records of one id, and the second observation finds the first record. */
  lemma SharedAuditMixesGaps(l: Ledger, a: Action, b: Action)
    requires a.Detect? && b.Detect? && a.tenant == b.tenant && a.audit == b.audit && a.gap != b.gap
    requires NewlySeen(l, a) && NewlySeen(l, b)
    requires OpenIndex(l.records, a.tenant, a.gap) == |l.records| && OpenIndex(l.records, b.tenant, b.gap) == |l.records|
    requires RecordIndex(l.records, a.tenant, RecurrenceID(a.audit)) == |l.records|
    ensures var both := DetectBoth(l, a, b);
            && Observes(both.observations, b.tenant, b.gap, b.audit)
            && var i := RecordIndex(both.records, b.tenant, RecurrenceID(b.audit));
            i < |both.records| && both.records[i].gap == a.gap && !DistinctRecords(both.records)
  {
    hide ValidObservation, ValidRecurrence, Observe;
    ObserveCases(l, a);
    var first := Observe(l, ObservationOf(a), CandidateOf(a)).ledger;
    StillNew(l, a, b);
    ObserveCases(first, b);
    var both := DetectBoth(l, a, b);
    assert both.observations[|both.observations| - 1] == ObservationOf(b).(recurrenceID := RecurrenceID(b.audit)) by {
      AppendStillNoOpen(l.records, CandidateOf(a), b.tenant, b.gap);
    }
    assert first.records == l.records + [CandidateOf(a)];
    AppendStillNoOpen(l.records, CandidateOf(a), b.tenant, b.gap);
    var n := |l.records|;
    assert both.records[n] == CandidateOf(a) && both.records[n + 1] == CandidateOf(b);
    assert forall k :: 0 <= k < n ==> both.records[k] == l.records[k];
    IndexIs(both.records, b.tenant, RecurrenceID(b.audit), n);
  }

  lemma StillNew(l: Ledger, a: Action, b: Action)
    requires a.Detect? && b.Detect? && a.gap != b.gap && NewlySeen(l, b)
    ensures forall m: Ledger :: m.observations == l.observations + [ObservationOf(a).(recurrenceID := RecurrenceID(a.audit))] ==> NewlySeen(m, b)
  {
    hide ValidObservation, ValidRecurrence;
  }

  lemma AppendStillNoOpen(records: seq<Recurrence>, c: Recurrence, tenant: string, gap: string)
    requires OpenIndex(records, tenant, gap) == |records| && c.gap != gap
    ensures OpenIndex(records + [c], tenant, gap) == |records| + 1
  {
    var all := records + [c];
    assert forall k :: 0 <= k < |records| ==> all[k] == records[k];
    OpenIndexIs(all, tenant, gap, |all|);
  }

  // ----- The runs in which it goes wrong

  lemma PlainID(v: string)
    requires ValidContractId(v)
    ensures ValidKnowledgeID(v)
  {
    hide Trim;
    assert IdCharacter(v[0]) && IdCharacter(v[|v| - 1]);
    TrimSame(v);
  }

  lemma PlainIDs()
    ensures ValidKnowledgeID("t") && ValidKnowledgeID("g") && ValidKnowledgeID("h") && ValidKnowledgeID("s")
    ensures ValidKnowledgeID("a") && ValidKnowledgeID("b") && ValidKnowledgeID(RecurrenceID("a")) && ValidKnowledgeID(RecurrenceID("b"))
  {
    hide ValidKnowledgeID;
    PlainID("t");
    PlainID("g");
    PlainID("h");
    PlainID("s");
    PlainID("a");
    PlainID("b");
    assert RecurrenceID("a") == "recurrence-a" && RecurrenceID("b") == "recurrence-b";
    PlainID("recurrence-a");
    PlainID("recurrence-b");
  }

  lemma RunSnoc(actions: seq<Action>, a: Action)
    ensures Run(actions + [a]) == Apply(Run(actions), a)
    ensures Run([]) == World(Empty, map[])
  {
    hide Apply;
    assert (actions + [a])[..|actions|] == actions;
  }

  /** The first detection of a gap, and the world it leaves. */
  lemma FirstDetection(a: Action)
    requires a.Detect? && ValidObservation(ObservationOf(a)) && ValidRecurrence(CandidateOf(a))
    ensures Run([a]) == World(Ledger([CandidateOf(a)], [ObservationOf(a).(recurrenceID := RecurrenceID(a.audit))]), map[])
    ensures Inv(Run([a]), (t, b) => a.gap) && CountsExact(Run([a]).ledger)
  {
    hide ValidObservation, ValidRecurrence, Observe, Inv, Run, CountsExact;
    RunSnoc([], a);
    assert [] + [a] == [a];
    ObserveCases(Empty, a);
    EmptyKeeps((t, b) => a.gap);
    DetectKeeps(World(Empty, map[]), a, (t, b) => a.gap);
  }

  /** An operator reads the record of that gap. */
  lemma ThenGet(a: Action, c: nat, held: map<nat, Recurrence>)
    requires a.Detect? && ValidObservation(ObservationOf(a)) && ValidRecurrence(CandidateOf(a))
    requires Inv(Run([a]).(held := held), (t, b) => a.gap)
    ensures Apply(Run([a]).(held := held), Get(c, a.tenant, RecurrenceID(a.audit))) == Run([a]).(held := held[c := CandidateOf(a)])
    ensures Inv(Run([a]).(held := held[c := CandidateOf(a)]), (t, b) => a.gap)
  {
    hide ValidObservation, ValidRecurrence, Inv, Run;
    FirstDetection(a);
    IndexIs([CandidateOf(a)], a.tenant, RecurrenceID(a.audit), 0);
    GetKeeps(Run([a]).(held := held), Get(c, a.tenant, RecurrenceID(a.audit)), (t, b) => a.gap);
  }

  /** Detected, read, detected again, confirmed: one occurrence too few. */
  lemma OccurrenceIsLost()
    ensures var actions := [Detect("t", "g", "s", "a", "", 1), Get(1, "t", RecurrenceID("a")),
                            Detect("t", "g", "s", "b", "", 2), Confirm(1, "operator", 3)];
            var l := Run(actions).ledger;
            && |l.records| > 0 && l.records[0].status == Confirmed
            && l.records[0].count == Pointing(l.observations, l.records[0].tenant, l.records[0].id) - 1
  {
    hide ValidKnowledgeID, Inv, Run, Apply, Pointing, CountsExact, NormalizedText;
    var a, get, b, confirm := Detect("t", "g", "s", "a", "", 1), Get(1, "t", RecurrenceID("a")),
                              Detect("t", "g", "s", "b", "", 2), Confirm(1, "operator", 3);
    PlainIDs();
    FirstDetection(a);
    ThenGet(a, 1, map[]);
    var w := Run([a]).(held := map[1 := CandidateOf(a)]);
    assert map[][1 := CandidateOf(a)] == map[1 := CandidateOf(a)];
    RunSnoc([a], get);
    RunSnoc([a, get], b);
    RunSnoc([a, get, b], confirm);
    assert [a] + [get] == [a, get] && [a, get] + [b] == [a, get, b] && [a, get, b] + [confirm] == [a, get, b, confirm];
    IndexIs(w.ledger.records, "t", RecurrenceID("a"), 0);
    assert NewlySeen(w.ledger, b) by { assert "a"[0] != "b"[0]; }
    LostOccurrence(w, b, 1, "operator", 3, (t, x) => "g");
  }

  /** Confirmed by one operator, then dismissed by another who had read the record before. */
  lemma VerdictIsOverwritten()
    ensures var actions := [Detect("t", "g", "s", "a", "", 1), Get(1, "t", RecurrenceID("a")), Get(2, "t", RecurrenceID("a")),
                            Confirm(1, "operator", 2), Dismiss(2, "r", 3)];
            var before, after := Run(actions[..4]).ledger.records, Run(actions).ledger.records;
            |before| > 0 && before[0].status == Confirmed && |after| > 0 && after[0].status == Dismissed
  {
    hide ValidKnowledgeID, Inv, Run, Apply, CountsExact, NormalizedText;
    var a, get1, get2, confirm, dismiss := Detect("t", "g", "s", "a", "", 1), Get(1, "t", RecurrenceID("a")),
                                           Get(2, "t", RecurrenceID("a")), Confirm(1, "operator", 2), Dismiss(2, "r", 3);
    PlainIDs();
    FirstDetection(a);
    ThenGet(a, 1, map[]);
    ThenGet(a, 2, map[1 := CandidateOf(a)]);
    var held := map[1 := CandidateOf(a)];
    assert map[][1 := CandidateOf(a)] == held;
    var w := Run([a]).(held := held[2 := CandidateOf(a)]);
    RunSnoc([a], get1);
    RunSnoc([a, get1], get2);
    RunSnoc([a, get1, get2], confirm);
    RunSnoc([a, get1, get2, confirm], dismiss);
    var actions := [a, get1, get2, confirm, dismiss];
    assert [a] + [get1] == [a, get1] && [a, get1] + [get2] == [a, get1, get2] && actions[..4] == [a, get1, get2] + [confirm];
    assert actions[..4] == [a, get1, get2, confirm] && actions == actions[..4] + [dismiss];
    IndexIs(w.ledger.records, "t", RecurrenceID("a"), 0);
    OneLetterReason();
    LateReview(w, 2, 3);
  }

  lemma OneLetterReason()
    ensures |NormalizedText("r")| == 1
  {
    hide Trim, Squash;
    TrimSame("r");
    SquashCons('r', "");
    EmptyFields();
    assert ['r'] + "" == "r";
  }

  lemma LateReview(w: World, first: int, second: int)
    requires Inv(w, (t, x) => "g") && 1 in w.held && 2 in w.held && w.held[1] == w.held[2] && |NormalizedText("r")| == 1
    requires RecordIndex(w.ledger.records, w.held[1].tenant, w.held[1].id) == 0
    ensures var before := Apply(w, Confirm(1, "operator", first));
            var after := Apply(before, Dismiss(2, "r", second)).ledger.records;
            && |before.ledger.records| > 0 && before.ledger.records[0].status == Confirmed && |after| > 0 && after[0].status == Dismissed
  {
    hide Inv, NormalizedText;
    LateDismissal(w, 1, 2, "operator", "r", first, second, (t, x) => "g");
  }

  /** One audit detected for two gaps. */
  lemma GapsAreMixed()
    ensures var l := Run([Detect("t", "g", "s", "a", "", 1), Detect("t", "h", "s", "a", "", 2)]).ledger;
            && !DistinctRecords(l.records) && Observes(l.observations, "t", "h", "a")
            && var i := RecordIndex(l.records, "t", RecurrenceID("a")); i < |l.records| && l.records[i].gap == "g"
  {
    hide ValidKnowledgeID, Run, Observe, Observes, DistinctRecords;
    var a, b := Detect("t", "g", "s", "a", "", 1), Detect("t", "h", "s", "a", "", 2);
    PlainIDs();
    RunSnoc([], a);
    RunSnoc([a], b);
    assert [] + [a] == [a] && [a] + [b] == [a, b];
    assert "g"[0] != "h"[0];
    assert NewlySeen(Empty, a) && NewlySeen(Empty, b) by { NothingObserved(); }
    SharedAuditMixesGaps(Empty, a, b);
  }

  lemma NothingObserved()
    ensures forall t, g, a :: !Observes([], t, g, a)
  {
  }
}
