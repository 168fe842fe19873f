/** Quality review checkpoints (knowledge_quality_review_checkpoints.go): an idempotent create whose search and
    append are two steps that other requests may come between. */
module Checkpoints {
  import opened Text
  import opened Sorting
  import Recurrences
  import TurnRecords

  datatype Outcome = Observe | RepairRequired | RiskAccepted | OtherOutcome(name: string)

  /** The gap ids are None for a slice that was not given, which is not encoded like an empty one. */
  datatype Request = Request(
    key: string, from: string, to: string, space: string, outcome: Outcome, rationale: string, gaps: Option<seq<string>>)

  /** SHA-256 taken as injective: what is hashed. */
  datatype KeyHash = KeyHash(text: string)

  datatype Fingerprint = Fingerprint(
    tenant: string, from: string, to: string, space: string, outcome: Outcome, rationale: string, gaps: Option<seq<string>>)

  datatype ReviewFilter = ReviewFilter(allSpaces: bool, space: string, timezone: string, windowDays: int, end: int)

  datatype Checkpoint = Checkpoint(
    id: string, tenant: string, createdAt: int, filter: ReviewFilter, key: KeyHash, fingerprint: Fingerprint)

  // ----- Normalising a request

  /** The ids after the loop that trims them: as far as the first one that is not valid or repeated. */
  function TrimmedPrefix(ids: seq<string>, k: nat): seq<string>
    requires k <= |ids|
  {
    seq(|ids|, i requires 0 <= i < |ids| => if i < k then Trim(ids[i]) else ids[i])
  }

  predicate GoodID(ids: seq<string>, i: nat)
    requires i < |ids|
  {
    Recurrences.ValidKnowledgeID(Trim(ids[i])) && forall j :: 0 <= j < i ==> Trim(ids[j]) != Trim(ids[i])
  }

  /** The loop stops at n, the first id that is not valid or repeats an earlier one. */
  predicate StopsAt(ids: seq<string>, n: nat) {
    n < |ids| && !GoodID(ids, n) && forall i :: 0 <= i < n ==> GoodID(ids, i)
  }

  predicate AllGood(ids: seq<string>) {
    forall i :: 0 <= i < |ids| ==> GoodID(ids, i)
  }

  function Trimmed(ids: seq<string>): (r: seq<string>)
    ensures |r| == |ids| && forall i :: 0 <= i < |ids| ==> r[i] == Trim(ids[i])
  {
    seq(|ids|, i requires 0 <= i < |ids| => Trim(ids[i]))
  }

  /** The ids are trimmed and sorted in the caller's own array; a bad id leaves those before it trimmed. */
  method NormalizeGapIDs(ids: array<string>) returns (ok: bool)
    modifies ids
    ensures ok <==> AllGood(old(ids[..]))
    ensures ok ==> ids[..] == SortBy(StringLess, Trimmed(old(ids[..])))
    ensures !ok ==> exists n :: StopsAt(old(ids[..]), n) && ids[..] == TrimmedPrefix(old(ids[..]), n)
  {
    hide Trim, Recurrences.ValidKnowledgeID, SortBy;
    ghost var given := ids[..];
    var seen: set<string> := {};
    for i := 0 to ids.Length
      invariant forall j :: 0 <= j < i ==> GoodID(given, j)
      invariant forall j :: 0 <= j < ids.Length ==> ids[j] == TrimmedPrefix(given, i)[j]
      invariant forall x :: x in seen <==> exists j :: 0 <= j < i && Trim(given[j]) == x
    {
      var id := Trim(ids[i]);
      assert id == Trim(given[i]);
      if !Recurrences.ValidKnowledgeID(id) || id in seen {
        assert StopsAt(given, i) && ids[..] == TrimmedPrefix(given, i);
        return false;
      }
      assert GoodID(given, i);
      seen := seen + {id};
      ids[i] := id;
    }
    assert ids[..] == Trimmed(given);
    var sorted := SortBy(StringLess, ids[..]);
    forall i | 0 <= i < ids.Length { ids[i] := sorted[i]; }
    assert ids[..] == sorted;
    return true;
  }

  function NormalizedGaps(gaps: Option<seq<string>>): Option<seq<string>> {
    match gaps case None => None case Some(ids) => Some(SortBy(StringLess, Trimmed(ids)))
  }

  function GapIDs(gaps: Option<seq<string>>): seq<string> {
    match gaps case None => [] case Some(ids) => ids
  }

  function Normalized(r: Request): Request {
    Request(Trim(r.key), Trim(r.from), Trim(r.to), Trim(r.space), r.outcome, Trim(r.rationale), NormalizedGaps(r.gaps))
  }

  /** windowOk stands for the parse of the date window, which depends on the clock. */
  predicate InOrder(r: Request, windowOk: bool) {
    && 16 <= |Trim(r.key)| <= 128 && Recurrences.ValidKnowledgeID(Trim(r.key))
    && windowOk && !r.outcome.OtherOutcome? && |Trim(r.rationale)| <= 500
    && |GapIDs(r.gaps)| <= 10 && AllGood(GapIDs(r.gaps))
    && (r.outcome.Observe? || (Trim(r.rationale) != "" && GapIDs(r.gaps) != []))
  }

  function HashOf(tenant: string, key: string): KeyHash {
    KeyHash(tenant + "\0" + key)
  }

  function FingerprintOf(tenant: string, r: Request): Fingerprint {
    Fingerprint(tenant, r.from, r.to, r.space, r.outcome, r.rationale, r.gaps)
  }

  /** A key hash names one tenant and one key, whatever the tenant id. */
  lemma HashInjective(a: string, k: string, b: string, l: string)
    requires '\0' !in k && '\0' !in l
    ensures HashOf(a, k) == HashOf(b, l) <==> a == b && k == l
  {
    if HashOf(a, k) == HashOf(b, l) {
      var s := a + "\0" + k;
      assert s[|a|] == '\0' && s[|b|] == '\0';
      assert forall i :: 0 <= i < |k| ==> s[|a| + 1 + i] == k[i];
      assert forall i :: 0 <= i < |l| ==> s[|b| + 1 + i] == l[i];
      assert s[..|a|] == a && s[..|b|] == b && s[|a| + 1..] == k && s[|b| + 1..] == l;
    }
  }

  lemma GoodIDsDistinct(ids: seq<string>)
    requires AllGood(ids)
    ensures NoDuplicates(Trimmed(ids))
  {
    hide Trim, Recurrences.ValidKnowledgeID;
    forall i, j | 0 <= i < j < |ids| ensures Trim(ids[i]) != Trim(ids[j]) { assert GoodID(ids, j); }
  }

  /** The order of the gap ids and the white space around them do not matter to the fingerprint. */
  lemma GapOrderDoesNotMatter(a: seq<string>, b: seq<string>)
    requires AllGood(a) && AllGood(b) && SameElements(Trimmed(a), Trimmed(b))
    ensures NormalizedGaps(Some(a)) == NormalizedGaps(Some(b))
  {
    hide SortBy, StringLess, AllGood, Trimmed, StrictTotal, Ascending;
    var x, y := Trimmed(a), Trimmed(b);
    GoodIDsDistinct(a);
    GoodIDsDistinct(b);
    StringsTotal(x);
    StringsTotal(y);
    SortAscends(StringLess, x, x);
    SortAscends(StringLess, y, y);
    SortElements(StringLess, x);
    SortElements(StringLess, y);
    StringsTotal(SortBy(StringLess, x));
    MembersAreElements(SortBy(StringLess, x), SortBy(StringLess, y)) by {
      forall s ensures s in x <==> s in y {}
    }
    AscendingUnique(StringLess, SortBy(StringLess, x), SortBy(StringLess, y));
  }

  lemma SortedGapsSame(a: seq<string>, b: seq<string>)
    requires NormalizedGaps(Some(a)) == NormalizedGaps(Some(b))
    ensures SameElements(Trimmed(a), Trimmed(b))
  {
    hide SortBy, StringLess, Trimmed;
    SortElements(StringLess, Trimmed(a));
    SortElements(StringLess, Trimmed(b));
    MembersAreElements(Trimmed(a), Trimmed(b)) by {
      forall s ensures s in Trimmed(a) <==> s in Trimmed(b) {}
    }
  }

  /** Two requests in order have one fingerprint exactly when they agree up to white space at the ends of
      their texts and of the gap ids, up to the order of the gap ids, and in whether a list of gaps was given. */
  lemma SameFingerprint(tenant: string, a: Request, b: Request)
    requires AllGood(GapIDs(a.gaps)) && AllGood(GapIDs(b.gaps))
    ensures FingerprintOf(tenant, Normalized(a)) == FingerprintOf(tenant, Normalized(b)) <==>
            && Trim(a.from) == Trim(b.from) && Trim(a.to) == Trim(b.to) && Trim(a.space) == Trim(b.space)
            && a.outcome == b.outcome && Trim(a.rationale) == Trim(b.rationale)
            && (a.gaps.Some? <==> b.gaps.Some?)
            && SameElements(Trimmed(GapIDs(a.gaps)), Trimmed(GapIDs(b.gaps)))
  {
    hide Trim, AllGood, Trimmed, NormalizedGaps, SameElements;
    GapsGiven(a.gaps);
    GapsGiven(b.gaps);
    if a.gaps.Some? && b.gaps.Some? {
      if SameElements(Trimmed(GapIDs(a.gaps)), Trimmed(GapIDs(b.gaps))) { GapOrderDoesNotMatter(a.gaps.value, b.gaps.value); }
      if NormalizedGaps(a.gaps) == NormalizedGaps(b.gaps) { SortedGapsSame(a.gaps.value, b.gaps.value); }
    } else {
      NoGapsSame();
    }
  }

  lemma GapsGiven(gaps: Option<seq<string>>)
    ensures NormalizedGaps(gaps).Some? <==> gaps.Some?
    ensures gaps.None? ==> NormalizedGaps(gaps) == None
  {
  }

  lemma NoGapsSame()
    ensures SameElements(Trimmed([]), Trimmed([]))
  {
  }

  /** A list of gaps that was not given and one that is empty ask for the same thing under different fingerprints. */
  lemma NoGapsIsNotEmptyGaps(tenant: string, r: Request)
    requires r.gaps == None
    ensures var empty := r.(gaps := Some([]));
            && GapIDs(r.gaps) == GapIDs(empty.gaps)
            && FingerprintOf(tenant, Normalized(r)) != FingerprintOf(tenant, Normalized(empty))
            && forall windowOk :: InOrder(r, windowOk) <==> InOrder(empty, windowOk)
  {
    hide Trim, Recurrences.ValidKnowledgeID;
  }

  // ----- The store

  predicate HasKey(c: Checkpoint, tenant: string, key: KeyHash) {
    c.tenant == tenant && c.key == key
  }

  function KeyIndex(all: seq<Checkpoint>, tenant: string, key: KeyHash): (n: nat)
    ensures n <= |all| && (n < |all| ==> HasKey(all[n], tenant, key)) && forall i :: 0 <= i < n ==> !HasKey(all[i], tenant, key)
  {
    if all == [] || HasKey(all[0], tenant, key) then 0 else 1 + KeyIndex(all[1..], tenant, key)
  }

  datatype Answer = Conflict | Ok(checkpoint: Checkpoint, created: bool)

  /** What the append answers: it searches again, under the lock it appends under. */
  function Appended(all: seq<Checkpoint>, c: Checkpoint): Answer {
    var n := KeyIndex(all, c.tenant, c.key);
    if n == |all| then Ok(c, true)
    else if all[n].fingerprint != c.fingerprint then Conflict
    else Ok(all[n], false)
  }

  class CheckpointStore {
    var records: seq<Checkpoint>

    constructor ()
      ensures records == []
    {
      records := [];
    }

    method FindByIdempotency(tenant: string, key: KeyHash) returns (found: Option<Checkpoint>)
      ensures var n := KeyIndex(records, tenant, key); found == if n < |records| then Some(records[n]) else None
    {
      for i := 0 to |records|
        invariant forall k :: 0 <= k < i ==> !HasKey(records[k], tenant, key)
      {
        if HasKey(records[i], tenant, key) { return Some(records[i]); }
      }
      return None;
    }

    method AppendCheckpoint(record: Checkpoint) returns (answer: Answer)
      modifies this
      ensures answer == Appended(old(records), record)
      ensures records == if answer.Ok? && answer.created then old(records) + [record] else old(records)
    {
      for i := 0 to |records|
        invariant records == old(records)
        invariant forall k :: 0 <= k < i ==> !HasKey(records[k], record.tenant, record.key)
      {
        if HasKey(records[i], record.tenant, record.key) {
          if records[i].fingerprint != record.fingerprint { return Conflict; }
          return Ok(records[i], false);
        }
      }
      records := records + [record];
      return Ok(record, true);
    }
  }

  // ----- Racing creates

  /** A create that did not find its key: it is still to append. */
  datatype Pending = Pending(tenant: string, key: KeyHash, fingerprint: Fingerprint)

  /** One finished create. */
  datatype Reply = Reply(tenant: string, key: KeyHash, fingerprint: Fingerprint, answer: Answer)

  datatype World = World(records: seq<Checkpoint>, pending: map<nat, Pending>, replies: seq<Reply>)

  /** A client first searches with its request; then, unless the projection or the gaps fail, appends. */
  datatype Action =
    | Find(client: nat, tenant: string, request: Request, windowOk: bool)
    | Append(appender: nat, id: string, createdAt: int, filter: ReviewFilter)
    | GiveUp(failed: nat)

  function Apply(w: World, a: Action): World {
    match a
    case Find(c, tenant, request, windowOk) =>
      if Trim(tenant) == "" || !InOrder(request, windowOk) then w.(pending := w.pending - {c})
      else
        var r := Normalized(request);
        var key, fingerprint := HashOf(tenant, r.key), FingerprintOf(tenant, r);
        var n := KeyIndex(w.records, tenant, key);
        if n == |w.records| then w.(pending := w.pending[c := Pending(tenant, key, fingerprint)])
        else
          var answer := if w.records[n].fingerprint != fingerprint then Conflict else Ok(w.records[n], false);
          w.(pending := w.pending - {c}, replies := w.replies + [Reply(tenant, key, fingerprint, answer)])
    case Append(c, id, createdAt, filter) =>
      if c !in w.pending then w
      else
        var p := w.pending[c];
        var record := Checkpoint(id, p.tenant, createdAt, filter, p.key, p.fingerprint);
        var answer := Appended(w.records, record);
        World(
          if KeyIndex(w.records, p.tenant, p.key) == |w.records| then w.records + [record] else w.records,
          w.pending - {c},
          w.replies + [Reply(p.tenant, p.key, p.fingerprint, answer)])
    case GiveUp(c) => w.(pending := w.pending - {c})
  }

  /** What a create has to ask for: a usable key of 16 to 128 characters, a window, at most 500 characters of
      rationale and ten distinct usable gap ids; an outcome other than observing needs both. */
  ghost predicate ProperRequest(tenant: string, r: Request, windowOk: bool) {
    && !Blank(tenant) && windowOk
    && 16 <= |Trim(r.key)| <= 128 && TurnRecords.ProperId(Trim(r.key)) && |Trim(r.rationale)| <= 500
    && |GapIDs(r.gaps)| <= 10 && (forall id :: id in GapIDs(r.gaps) ==> TurnRecords.ProperId(Trim(id)))
    && (forall i, j :: 0 <= i < j < |GapIDs(r.gaps)| ==> Trim(GapIDs(r.gaps)[i]) != Trim(GapIDs(r.gaps)[j]))
    && (r.outcome.Observe? || ((r.outcome.RepairRequired? || r.outcome.RiskAccepted?) && !Blank(r.rationale) && GapIDs(r.gaps) != []))
  }

  lemma ProperExactly(tenant: string, r: Request, windowOk: bool)
    ensures ProperRequest(tenant, r, windowOk) <==> Trim(tenant) != "" && InOrder(r, windowOk)
  {
    hide Recurrences.ValidKnowledgeID, TurnRecords.ProperId, Trim, Blank, AllGood;
    TrimOfBlank(tenant);
    TrimOfBlank(r.rationale);
    Recurrences.KnowledgeIDMeans(r.key);
    GoodExactly(GapIDs(r.gaps));
  }

  lemma GoodExactly(ids: seq<string>)
    ensures AllGood(ids) <==>
            && (forall id :: id in ids ==> TurnRecords.ProperId(Trim(id)))
            && (forall i, j :: 0 <= i < j < |ids| ==> Trim(ids[i]) != Trim(ids[j]))
  {
    hide Recurrences.ValidKnowledgeID, TurnRecords.ProperId, Trim;
    forall id ensures Recurrences.ValidKnowledgeID(Trim(id)) <==> TurnRecords.ProperId(Trim(id)) { Recurrences.KnowledgeIDMeans(id); }
    forall i | 0 <= i < |ids| ensures GoodID(ids, i) <==>
                TurnRecords.ProperId(Trim(ids[i])) && forall j :: 0 <= j < i ==> Trim(ids[j]) != Trim(ids[i]) {}
  }

  predicate FirstWithKey(all: seq<Checkpoint>, i: nat, tenant: string, key: KeyHash) {
    && i < |all| && all[i].tenant == tenant && all[i].key == key
    && forall k :: 0 <= k < i ==> !(all[k].tenant == tenant && all[k].key == key)
  }

  /** Each answer of an uninterrupted create and its cause: none for a request that is not in order and when a new
      key meets a failing projection; a new record for a new key; for a known key its record, or a conflict when
      that was made by another request. Only a new record changes the ledger. */
  ghost predicate CreateAnswered(before: seq<Checkpoint>, after: seq<Checkpoint>, answer: Option<Answer>, tenant: string, r: Request,
                                 windowOk: bool, projected: bool, id: string, createdAt: int, filter: ReviewFilter)
  {
    var key, fingerprint := HashOf(tenant, Trim(r.key)), FingerprintOf(tenant, Normalized(r));
    var proper := ProperRequest(tenant, r, windowOk);
    var free := forall i :: 0 <= i < |before| ==> !(before[i].tenant == tenant && before[i].key == key);
    var record := Checkpoint(id, tenant, createdAt, filter, key, fingerprint);
    && (answer == None <==> !proper || (free && !projected))
    && (proper && free && projected ==> answer == Some(Ok(record, true)) && after == before + [record])
    && (proper && !free ==>
          exists i: nat ::
            && FirstWithKey(before, i, tenant, key)
            && answer == Some(if before[i].fingerprint == fingerprint then Ok(before[i], false) else Conflict))
    && (!(proper && free && projected) ==> after == before)
  }

  /** The search and then, unless the projection or the gaps fail, the append, with nothing in between. */
  function AtOnce(records: seq<Checkpoint>, tenant: string, r: Request, windowOk: bool, projected: bool,
                  id: string, createdAt: int, filter: ReviewFilter): World
  {
    var found := Apply(World(records, map[], []), Find(0, tenant, r, windowOk));
    Apply(found, if projected then Append(0, id, createdAt, filter) else GiveUp(0))
  }

  lemma CreateAnswers(records: seq<Checkpoint>, tenant: string, r: Request, windowOk: bool, projected: bool,
                      id: string, createdAt: int, filter: ReviewFilter)
    ensures var after := AtOnce(records, tenant, r, windowOk, projected, id, createdAt, filter);
            CreateAnswered(records, after.records, if after.replies == [] then None else Some(after.replies[0].answer),
                           tenant, r, windowOk, projected, id, createdAt, filter)
  {
    hide InOrder, NormalizedGaps, Trim, ProperRequest, HashOf, FingerprintOf;
    ProperExactly(tenant, r, windowOk);
    var key := HashOf(tenant, Trim(r.key));
    var n := KeyIndex(records, tenant, key);
    if n < |records| { assert FirstWithKey(records, n, tenant, key); }
  }

  /** An uninterrupted Create. */
  method Create(store: CheckpointStore, tenant: string, request: Request, windowOk: bool, projected: bool,
                id: string, createdAt: int, filter: ReviewFilter)
    returns (answer: Option<Answer>)
    modifies store
    ensures var after := AtOnce(old(store.records), tenant, request, windowOk, projected, id, createdAt, filter);
            && store.records == after.records
            && (if after.replies == [] then answer == None else |after.replies| == 1 && answer == Some(after.replies[0].answer))
    ensures CreateAnswered(old(store.records), store.records, answer, tenant, request, windowOk, projected, id, createdAt, filter)
  {
    hide InOrder, Trim, CreateAnswered, HashOf, FingerprintOf, NormalizedGaps;
    CreateAnswers(store.records, tenant, request, windowOk, projected, id, createdAt, filter);
    if Trim(tenant) == "" || !InOrder(request, windowOk) { return None; }
    var r := Normalized(request);
    var key, fingerprint := HashOf(tenant, r.key), FingerprintOf(tenant, r);
    var existing := store.FindByIdempotency(tenant, key);
    if existing.Some? {
      return Some(if existing.value.fingerprint != fingerprint then Conflict else Ok(existing.value, false));
    }
    if !projected { return None; }
    var stored := store.AppendCheckpoint(Checkpoint(id, tenant, createdAt, filter, key, fingerprint));
    return Some(stored);
  }

  function Run(actions: seq<Action>): World {
    if actions == [] then World([], map[], [])
    else Apply(Run(actions[..|actions| - 1]), actions[|actions| - 1])
  }

  // ----- What every run keeps

  predicate DistinctKeys(all: seq<Checkpoint>) {
    forall i, j :: 0 <= i < j < |all| ==> !HasKey(all[i], all[j].tenant, all[j].key)
  }

  predicate IsCreation(r: Reply, tenant: string, key: KeyHash) {
    r.tenant == tenant && r.key == key && r.answer.Ok? && r.answer.created
  }

  function Creations(replies: seq<Reply>, tenant: string, key: KeyHash): nat {
    if replies == [] then 0
    else Creations(replies[..|replies| - 1], tenant, key) + (if IsCreation(replies[|replies| - 1], tenant, key) then 1 else 0)
  }

  /** An answer with a checkpoint shows the one record of its key, made by an equal request; a conflict means
      that the record of the key was made by another request. */
  predicate Truthful(all: seq<Checkpoint>, r: Reply) {
    var n := KeyIndex(all, r.tenant, r.key);
    && n < |all|
    && match r.answer
       case Ok(checkpoint, _) => checkpoint == all[n] && all[n].fingerprint == r.fingerprint
       case Conflict => all[n].fingerprint != r.fingerprint
  }

  predicate AllTruthful(w: World) {
    forall i :: 0 <= i < |w.replies| ==> Truthful(w.records, w.replies[i])
  }

  ghost predicate CreatedOnce(w: World) {
    forall tenant, key :: Creations(w.replies, tenant, key) == if KeyIndex(w.records, tenant, key) < |w.records| then 1 else 0
  }

  ghost predicate Inv(w: World) {
    DistinctKeys(w.records) && AllTruthful(w) && CreatedOnce(w)
  }

  lemma KeyIndexIs(all: seq<Checkpoint>, tenant: string, key: KeyHash, n: nat)
    requires n <= |all| && (n < |all| ==> HasKey(all[n], tenant, key)) && forall i :: 0 <= i < n ==> !HasKey(all[i], tenant, key)
    ensures KeyIndex(all, tenant, key) == n
  {
  }

  lemma KeyIndexAppend(all: seq<Checkpoint>, c: Checkpoint, tenant: string, key: KeyHash)
    ensures KeyIndex(all + [c], tenant, key) ==
            if KeyIndex(all, tenant, key) < |all| then KeyIndex(all, tenant, key)
            else if HasKey(c, tenant, key) then |all| else |all| + 1
  {
    var m := KeyIndex(all, tenant, key);
    var more := all + [c];
    assert forall i :: 0 <= i < |all| ==> more[i] == all[i];
    assert more[|all|] == c;
    KeyIndexIs(more, tenant, key, if m < |all| then m else if HasKey(c, tenant, key) then |all| else |all| + 1);
  }

  lemma CreationsSnoc(replies: seq<Reply>, r: Reply, tenant: string, key: KeyHash)
    ensures Creations(replies + [r], tenant, key) == Creations(replies, tenant, key) + (if IsCreation(r, tenant, key) then 1 else 0)
  {
    assert (replies + [r])[..|replies|] == replies;
  }

  lemma TruthfulMore(all: seq<Checkpoint>, c: Checkpoint, r: Reply)
    requires Truthful(all, r)
    ensures Truthful(all + [c], r)
  {
    KeyIndexAppend(all, c, r.tenant, r.key);
  }

  /** A reply that answers from a record that is there. */
  lemma ReplyKeeps(w: World, r: Reply, pending: map<nat, Pending>)
    requires Inv(w) && Truthful(w.records, r) && !IsCreation(r, r.tenant, r.key)
    ensures Inv(World(w.records, pending, w.replies + [r]))
  {
    hide Truthful, DistinctKeys, Creations;
    forall tenant, key
      ensures Creations(w.replies + [r], tenant, key) == if KeyIndex(w.records, tenant, key) < |w.records| then 1 else 0
    {
      CreationsSnoc(w.replies, r, tenant, key);
    }
  }

  /** A reply that answers with the record it appends. */
  lemma CreationKeeps(w: World, c: Checkpoint, r: Reply, pending: map<nat, Pending>)
    requires Inv(w) && KeyIndex(w.records, c.tenant, c.key) == |w.records|
    requires r == Reply(c.tenant, c.key, c.fingerprint, Ok(c, true))
    ensures Inv(World(w.records + [c], pending, w.replies + [r]))
  {
    hide Truthful, Creations;
    var all, replies := w.records + [c], w.replies + [r];
    forall i | 0 <= i < |replies| ensures Truthful(all, replies[i]) {
      if i < |w.replies| {
        assert Truthful(w.records, w.replies[i]);
        TruthfulMore(w.records, c, w.replies[i]);
      } else {
        CreatedIsTruthful(w.records, c);
      }
    }
    forall tenant, key
      ensures Creations(replies, tenant, key) == if KeyIndex(all, tenant, key) < |all| then 1 else 0
    {
      CreationsSnoc(w.replies, r, tenant, key);
      KeyIndexAppend(w.records, c, tenant, key);
    }
  }

  lemma CreatedIsTruthful(all: seq<Checkpoint>, c: Checkpoint)
    requires KeyIndex(all, c.tenant, c.key) == |all|
    ensures Truthful(all + [c], Reply(c.tenant, c.key, c.fingerprint, Ok(c, true)))
  {
    KeyIndexAppend(all, c, c.tenant, c.key);
  }

  lemma StepKeeps(w: World, a: Action)
    requires Inv(w)
    ensures Inv(Apply(w, a))
    ensures w.records <= Apply(w, a).records && w.replies <= Apply(w, a).replies
  {
    hide Creations, DistinctKeys, CreatedOnce, AllTruthful, InOrder, Normalized, Trim, Inv;
    match a
    case Find(c, tenant, request, windowOk) =>
      if Trim(tenant) != "" && InOrder(request, windowOk) {
        FindKeeps(w, c, tenant, Normalized(request));
      } else {
        PendingKeeps(w, w.pending - {c});
      }
    case Append(c, id, createdAt, filter) =>
      if c in w.pending {
        var p := w.pending[c];
        AppendKeeps(w, Checkpoint(id, p.tenant, createdAt, filter, p.key, p.fingerprint), w.pending - {c});
      }
    case GiveUp(c) => PendingKeeps(w, w.pending - {c});
  }

  lemma PendingKeeps(w: World, pending: map<nat, Pending>)
    requires Inv(w)
    ensures Inv(w.(pending := pending))
  {
    hide DistinctKeys, Truthful, Creations;
  }

  lemma FindKeeps(w: World, c: nat, tenant: string, r: Request)
    requires Inv(w)
    ensures var key, fingerprint := HashOf(tenant, r.key), FingerprintOf(tenant, r);
            var n := KeyIndex(w.records, tenant, key);
            if n == |w.records| then Inv(w.(pending := w.pending[c := Pending(tenant, key, fingerprint)]))
            else
              var answer := if w.records[n].fingerprint != fingerprint then Conflict else Ok(w.records[n], false);
              Inv(w.(pending := w.pending - {c}, replies := w.replies + [Reply(tenant, key, fingerprint, answer)]))
  {
    hide Inv;
    var key, fingerprint := HashOf(tenant, r.key), FingerprintOf(tenant, r);
    var n := KeyIndex(w.records, tenant, key);
    if n == |w.records| {
      PendingKeeps(w, w.pending[c := Pending(tenant, key, fingerprint)]);
    } else {
      var answer := if w.records[n].fingerprint != fingerprint then Conflict else Ok(w.records[n], false);
      ReplyKeeps(w, Reply(tenant, key, fingerprint, answer), w.pending - {c});
    }
  }

  lemma AppendKeeps(w: World, c: Checkpoint, pending: map<nat, Pending>)
    requires Inv(w)
    ensures var reply := Reply(c.tenant, c.key, c.fingerprint, Appended(w.records, c));
            Inv(World(if KeyIndex(w.records, c.tenant, c.key) == |w.records| then w.records + [c] else w.records,
                      pending, w.replies + [reply]))
  {
    hide Inv;
    var reply := Reply(c.tenant, c.key, c.fingerprint, Appended(w.records, c));
    if KeyIndex(w.records, c.tenant, c.key) == |w.records| { CreationKeeps(w, c, reply, pending); }
    else { ReplyKeeps(w, reply, pending); }
  }

  // ----- Theorems about runs

  lemma {:induction false} RunKeeps(actions: seq<Action>)
    ensures Inv(Run(actions))
    decreases |actions|
  {
    hide Inv, Apply;
    if actions == [] {
      EmptyKeeps();
    } else {
      RunKeeps(actions[..|actions| - 1]);
      StepKeeps(Run(actions[..|actions| - 1]), actions[|actions| - 1]);
    }
  }

  lemma EmptyKeeps()
    ensures Inv(World([], map[], []))
  {
  }

  /** The ledger and the replies only grow, at their ends. */
  lemma {:induction false} RunGrows(actions: seq<Action>, k: nat)
    requires k <= |actions|
    ensures Run(actions[..k]).records <= Run(actions).records && Run(actions[..k]).replies <= Run(actions).replies
    decreases |actions|
  {
    hide Inv, Apply;
    if k == |actions| {
      assert actions[..k] == actions;
    } else {
      var before := actions[..|actions| - 1];
      assert before[..k] == actions[..k];
      RunGrows(before, k);
      RunKeeps(before);
      StepKeeps(Run(before), actions[|actions| - 1]);
    }
  }

  /** Exactly once: in every interleaving there is at most one record for each tenant and key; all replies for
      one key that show a checkpoint show the same one, to equal requests only; and exactly one of them, if there
      is a record, says that it created it. */
  lemma IdempotentCreate(actions: seq<Action>, i: nat, j: nat)
    requires i < |Run(actions).replies| && j < |Run(actions).replies|
    requires var replies := Run(actions).replies; replies[i].tenant == replies[j].tenant && replies[i].key == replies[j].key
    ensures var w := Run(actions);
            var a, b := w.replies[i], w.replies[j];
            && DistinctKeys(w.records)
            && (a.answer.Ok? && b.answer.Ok? ==> a.answer.checkpoint == b.answer.checkpoint && a.fingerprint == b.fingerprint)
            && (a.answer.Ok? ==> (b.answer == Conflict <==> a.fingerprint != b.fingerprint))
            && Creations(w.replies, a.tenant, a.key) == 1
  {
    hide Run, Creations, DistinctKeys;
    RunKeeps(actions);
    var w := Run(actions);
    assert Truthful(w.records, w.replies[i]) && Truthful(w.records, w.replies[j]);
  }

  /** The ledger changes only by a step whose reply says that it created the new record; a conflicting or a
      repeated create never changes it, in its search or in its append. */
  lemma OnlyCreationsChange(w: World, a: Action)
    ensures var after := Apply(w, a);
            after.records != w.records ==>
              && |after.replies| == |w.replies| + 1
              && var r := after.replies[|w.replies|];
              r.answer.Ok? && r.answer.created && after.records == w.records + [r.answer.checkpoint]
  {
    hide InOrder, Normalized, Trim;
    match a
    case Find(_, _, _, _) =>
    case Append(_, _, _, _) =>
    case GiveUp(_) =>
  }

  // ----- The predecessor of a checkpoint

  predicate Compatible(current: Checkpoint, c: Checkpoint) {
    && current.tenant == c.tenant
    && current.filter.(end := 0) == c.filter.(end := 0)
    && c.filter.end < current.filter.end
  }

  /** A later window, then a later creation, then the greater id. */
  predicate Later(a: Checkpoint, b: Checkpoint) {
    if a.filter.end != b.filter.end then a.filter.end > b.filter.end
    else if a.createdAt != b.createdAt then a.createdAt > b.createdAt
    else StringLess(b.id, a.id)
  }

  lemma LaterTransitive(a: Checkpoint, b: Checkpoint, c: Checkpoint)
    requires Later(a, b) && !Later(c, b)
    ensures !Later(c, a)
  {
    hide StringLess;
    StringLessStrict(a.id, b.id);
    StringLessStrict(b.id, c.id);
    StringLessStrict(a.id, c.id);
    if StringLess(b.id, a.id) && StringLess(a.id, c.id) { StringLessTransitive(b.id, a.id, c.id); }
  }

  /** The record is of an earlier window of the same review. */
  predicate Precedes(c: Checkpoint, current: Checkpoint) {
    && c.tenant == current.tenant && c.filter.allSpaces == current.filter.allSpaces && c.filter.space == current.filter.space
    && c.filter.timezone == current.filter.timezone && c.filter.windowDays == current.filter.windowDays
    && c.filter.end < current.filter.end
  }

  /** The record is not later: its window ends earlier, or at the same time and it was made earlier, or at the
      same instant and its id is not greater in byte order. */
  predicate NotLater(c: Checkpoint, best: Checkpoint) {
    || c.filter.end < best.filter.end
    || (c.filter.end == best.filter.end
        && (c.createdAt < best.createdAt || (c.createdAt == best.createdAt && !StringLess(best.id, c.id))))
  }

  lemma LaterMeans(c: Checkpoint, best: Checkpoint)
    ensures !Later(c, best) <==> NotLater(c, best)
    ensures Compatible(best, c) <==> Precedes(c, best)
  {
    hide StringLess;
  }

  /** The latest compatible record, if there is one. */
  method SelectPredecessor(current: Checkpoint, records: seq<Checkpoint>) returns (selected: Option<Checkpoint>)
    ensures selected.None? <==> forall i :: 0 <= i < |records| ==> !Compatible(current, records[i])
    ensures selected.Some? ==> selected.value in records && Compatible(current, selected.value)
    ensures selected.Some? ==> forall i :: 0 <= i < |records| && Compatible(current, records[i]) ==> !Later(records[i], selected.value)
    // the same in terms of the fields
    ensures selected.None? <==> forall i :: 0 <= i < |records| ==> !Precedes(records[i], current)
    ensures selected.Some? ==> Precedes(selected.value, current)
    ensures selected.Some? ==> forall i :: 0 <= i < |records| && Precedes(records[i], current) ==> NotLater(records[i], selected.value)
  {
    hide Later, Compatible, Precedes, NotLater;
    forall c, best ensures (!Later(c, best) <==> NotLater(c, best)) && (Compatible(best, c) <==> Precedes(c, best)) {
      LaterMeans(c, best);
    }
    selected := None;
    for i := 0 to |records|
      invariant selected.None? <==> forall k :: 0 <= k < i ==> !Compatible(current, records[k])
      invariant selected.Some? ==> selected.value in records && Compatible(current, selected.value)
      invariant selected.Some? ==> forall k :: 0 <= k < i && Compatible(current, records[k]) ==> !Later(records[k], selected.value)
    {
      if Compatible(current, records[i]) {
        LaterIrreflexive(records[i]);
        if selected.None? {
          selected := Some(records[i]);
        } else if Later(records[i], selected.value) {
          forall k | 0 <= k < i && Compatible(current, records[k]) ensures !Later(records[k], records[i]) {
            LaterTransitive(records[i], selected.value, records[k]);
          }
          selected := Some(records[i]);
        }
      }
    }
  }

  lemma LaterIrreflexive(c: Checkpoint)
    ensures !Later(c, c)
  {
    hide StringLess;
    StringLessStrict(c.id, c.id);
  }
}
