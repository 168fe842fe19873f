/** Verification of repaired gaps (knowledge_repair_verification.go): snapshots of the knowledge of a space,
    attempts, and the projection that says whether a repair is still verified. */
module Verification {
  import opened Text
  import opened Sorting
  import Recurrences
  import TurnRecords
  import Retrieval

  datatype Review = Pending | Active | Rejected | Archived

  datatype Document = Document(
    id: string, spaceID: string, contentHash: string, updatedAt: int, status: Retrieval.Status,
    review: string, lexicalReady: string, vectorStatus: string)

  datatype Entry = Entry(
    documentID: string, contentHash: string, updatedAt: int, status: Retrieval.Status, review: Review,
    lexicalReady: string, vectorStatus: string)

  /** SHA-256 of the encoded entries, taken as injective: the entries themselves, in order. */
  datatype Fingerprint = Fingerprint(entries: seq<Entry>)

  // ----- Snapshots

  function SpaceOf(spaceID: string): string {
    if Trim(spaceID) == "" then "default" else Trim(spaceID)
  }

  function EffectiveReview(review: string): Review {
    var r := Trim(review);
    if r == "" || r == "active" then Active
    else if r == "rejected" then Rejected
    else if r == "archived" then Archived
    else Pending
  }

  /** A document that counts as knowledge of the space. */
  predicate InSnapshot(d: Document, spaceID: string) {
    SpaceOf(d.spaceID) == SpaceOf(spaceID) && d.status.Ready? && EffectiveReview(d.review).Active?
  }

  function EntryOf(d: Document): Entry {
    Entry(d.id, d.contentHash, d.updatedAt, d.status, EffectiveReview(d.review), d.lexicalReady, d.vectorStatus)
  }

  // ----- What a snapshot looks at

  /** The space names agree once trimmed; no name is the name "default". */
  predicate SameSpace(a: string, b: string) {
    || Trim(a) == Trim(b)
    || (Blank(a) && Trim(b) == "default")
    || (Trim(a) == "default" && Blank(b))
  }

  /** A document that counts: ready, active or without a review, and of the space. */
  predicate Counts(d: Document, spaceID: string) {
    d.status == Retrieval.Ready && (Blank(d.review) || Trim(d.review) == "active") && SameSpace(d.spaceID, spaceID)
  }

  lemma CountsExactly(d: Document, spaceID: string)
    ensures InSnapshot(d, spaceID) <==> Counts(d, spaceID)
  {
    hide Trim, Blank;
    TrimOfBlank(d.review);
    TrimOfBlank(d.spaceID);
    TrimOfBlank(spaceID);
  }

  /** All that is looked at of a document. */
  predicate Unchanged(a: Document, b: Document) {
    && a.id == b.id && a.contentHash == b.contentHash && a.updatedAt == b.updatedAt
    && a.lexicalReady == b.lexicalReady && a.vectorStatus == b.vectorStatus
  }

  /** Two documents that count have one entry exactly when nothing that is looked at differs. */
  lemma SameEntry(a: Document, spaceA: string, b: Document, spaceB: string)
    requires Counts(a, spaceA) && Counts(b, spaceB)
    ensures EntryOf(a) == EntryOf(b) <==> Unchanged(a, b)
  {
    hide Trim, Blank;
    CountsExactly(a, spaceA);
    CountsExactly(b, spaceB);
  }

  /** The review states an entry distinguishes. */
  lemma ReviewsExactly(review: string)
    ensures var r := EffectiveReview(review);
            && (r == Active <==> Blank(review) || Trim(review) == "active")
            && (r == Rejected <==> Trim(review) == "rejected")
            && (r == Archived <==> Trim(review) == "archived")
  {
    hide Trim, Blank;
    TrimOfBlank(review);
  }

  predicate HasUnchanged(d: Document, docs: seq<Document>, spaceID: string) {
    exists j :: 0 <= j < |docs| && Counts(docs[j], spaceID) && Unchanged(d, docs[j])
  }

  /** Two collections of documents hold the same knowledge: each document that counts on one side is, unchanged,
      one that counts on the other. */
  predicate Covered(a: seq<Document>, spaceA: string, b: seq<Document>, spaceB: string) {
    forall i :: 0 <= i < |a| && Counts(a[i], spaceA) ==> HasUnchanged(a[i], b, spaceB)
  }

  predicate SameKnowledge(a: seq<Document>, spaceA: string, b: seq<Document>, spaceB: string) {
    Covered(a, spaceA, b, spaceB) && Covered(b, spaceB, a, spaceA)
  }

  function Entries(docs: seq<Document>, spaceID: string): seq<Entry> {
    if docs == [] then []
    else (if InSnapshot(docs[0], spaceID) then [EntryOf(docs[0])] else []) + Entries(docs[1..], spaceID)
  }

  predicate ByDocument(a: Entry, b: Entry) {
    StringLess(a.documentID, b.documentID)
  }

  function Snapshot(docs: seq<Document>, spaceID: string): Fingerprint {
    Fingerprint(SortBy(ByDocument, Entries(docs, spaceID)))
  }

  lemma EntriesStep(docs: seq<Document>, i: nat, spaceID: string)
    requires i < |docs|
    ensures Entries(docs[i..], spaceID) ==
            (if InSnapshot(docs[i], spaceID) then [EntryOf(docs[i])] else []) + Entries(docs[i + 1..], spaceID)
    ensures Entries([], spaceID) == []
  {
    hide InSnapshot;
    assert docs[i..][1..] == docs[i + 1..];
  }

  method SnapshotFingerprint(docs: seq<Document>, spaceID: string) returns (fingerprint: Fingerprint)
    ensures fingerprint == Snapshot(docs, spaceID)
  {
    hide Entries, InSnapshot, SortBy;
    var entries := [];
    assert docs[0..] == docs;
    for i := 0 to |docs|
      invariant Entries(docs, spaceID) == entries + Entries(docs[i..], spaceID)
    {
      EntriesStep(docs, i, spaceID);
      if InSnapshot(docs[i], spaceID) { entries := entries + [EntryOf(docs[i])]; }
    }
    assert docs[|docs|..] == [];
    NoEntries(spaceID);
    assert entries == Entries(docs, spaceID);
    return Fingerprint(SortBy(ByDocument, entries));
  }

  lemma NoEntries(spaceID: string)
    ensures Entries([], spaceID) == []
  {
  }

  predicate DistinctIDs(docs: seq<Document>) {
    forall i, j :: 0 <= i < j < |docs| ==> docs[i].id != docs[j].id
  }

  predicate DistinctDocuments(entries: seq<Entry>) {
    forall i, j :: 0 <= i < j < |entries| ==> entries[i].documentID != entries[j].documentID
  }

  lemma {:induction false} EntriesFromDocuments(docs: seq<Document>, spaceID: string, e: Entry)
    ensures e in Entries(docs, spaceID) <==> exists i :: 0 <= i < |docs| && InSnapshot(docs[i], spaceID) && e == EntryOf(docs[i])
  {
    hide InSnapshot, Entries, EntryOf;
    if docs == [] {
      NoEntries(spaceID);
    } else {
      var rest := docs[1..];
      assert docs[0..] == docs;
      EntriesStep(docs, 0, spaceID);
      EntriesFromDocuments(rest, spaceID, e);
      assert forall i :: 0 <= i < |rest| ==> rest[i] == docs[i + 1];
      if k :| 0 <= k < |rest| && InSnapshot(rest[k], spaceID) && e == EntryOf(rest[k]) {
        assert InSnapshot(docs[k + 1], spaceID);
      }
      if k :| 0 <= k < |docs| && InSnapshot(docs[k], spaceID) && e == EntryOf(docs[k]) {
        if k > 0 { assert InSnapshot(rest[k - 1], spaceID); }
      }
    }
  }

  /** A document that counts is unchanged among others exactly when its entry is among theirs. */
  lemma EntryFound(d: Document, space: string, docs: seq<Document>, spaceID: string)
    requires Counts(d, space)
    ensures EntryOf(d) in Entries(docs, spaceID) <==> HasUnchanged(d, docs, spaceID)
  {
    hide Counts, Unchanged, Entries, EntryOf, InSnapshot;
    EntriesFromDocuments(docs, spaceID, EntryOf(d));
    forall j | 0 <= j < |docs|
      ensures InSnapshot(docs[j], spaceID) && EntryOf(d) == EntryOf(docs[j]) <==> Counts(docs[j], spaceID) && Unchanged(d, docs[j])
    {
      CountsExactly(docs[j], spaceID);
      if Counts(docs[j], spaceID) { SameEntry(d, space, docs[j], spaceID); }
    }
  }

  lemma EntryOfCounted(a: seq<Document>, spaceA: string, e: Entry)
    ensures e in Entries(a, spaceA) <==> exists i :: 0 <= i < |a| && Counts(a[i], spaceA) && e == EntryOf(a[i])
  {
    hide Counts, Entries, EntryOf, InSnapshot;
    EntriesFromDocuments(a, spaceA, e);
    forall i | 0 <= i < |a| ensures InSnapshot(a[i], spaceA) <==> Counts(a[i], spaceA) { CountsExactly(a[i], spaceA); }
  }

  lemma CoveredEntries(a: seq<Document>, spaceA: string, b: seq<Document>, spaceB: string)
    ensures Covered(a, spaceA, b, spaceB) ==> forall e :: e in Entries(a, spaceA) ==> e in Entries(b, spaceB)
    ensures (forall e :: e in Entries(a, spaceA) ==> e in Entries(b, spaceB)) ==> Covered(a, spaceA, b, spaceB)
  {
    hide Counts, Entries, EntryOf, HasUnchanged;
    if Covered(a, spaceA, b, spaceB) {
      forall e | e in Entries(a, spaceA) ensures e in Entries(b, spaceB) {
        EntryOfCounted(a, spaceA, e);
        var i :| 0 <= i < |a| && Counts(a[i], spaceA) && e == EntryOf(a[i]);
        EntryFound(a[i], spaceA, b, spaceB);
      }
    }
    if forall e :: e in Entries(a, spaceA) ==> e in Entries(b, spaceB) {
      forall i | 0 <= i < |a| && Counts(a[i], spaceA) ensures HasUnchanged(a[i], b, spaceB) {
        EntryOfCounted(a, spaceA, EntryOf(a[i]));
        EntryFound(a[i], spaceA, b, spaceB);
      }
    }
  }

  lemma {:induction false} EntriesDistinct(docs: seq<Document>, spaceID: string)
    requires DistinctIDs(docs)
    ensures DistinctDocuments(Entries(docs, spaceID)) && NoDuplicates(Entries(docs, spaceID))
  {
    hide InSnapshot, Entries;
    if docs == [] {
      NoEntries(spaceID);
    } else {
      var rest := docs[1..];
      assert docs[0..] == docs;
      EntriesStep(docs, 0, spaceID);
      assert forall i :: 0 <= i < |rest| ==> rest[i] == docs[i + 1];
      EntriesDistinct(rest, spaceID);
      forall e | e in Entries(rest, spaceID) ensures e.documentID != docs[0].id {
        EntriesFromDocuments(rest, spaceID, e);
      }
    }
  }

  lemma ByDocumentTotal(entries: seq<Entry>)
    requires DistinctDocuments(entries)
    ensures StrictTotal(ByDocument, entries)
  {
    hide StringLess;
    forall x, y | x in entries && y in entries
      ensures !(ByDocument(x, y) && ByDocument(y, x))
      ensures x != y ==> ByDocument(x, y) || ByDocument(y, x)
    {
      StringLessStrict(x.documentID, y.documentID);
      if x != y { DistinctAt(entries, x, y); }
    }
    forall x, y, z | x in entries && y in entries && z in entries && ByDocument(x, y) && ByDocument(y, z) ensures ByDocument(x, z) {
      StringLessTransitive(x.documentID, y.documentID, z.documentID);
    }
  }

  lemma DistinctAt(entries: seq<Entry>, x: Entry, y: Entry)
    requires DistinctDocuments(entries) && x in entries && y in entries && x != y
    ensures x.documentID != y.documentID
  {
    var i :| 0 <= i < |entries| && entries[i] == x;
    var j :| 0 <= j < |entries| && entries[j] == y;
  }

  /** In whatever order the documents are listed, two fingerprints agree exactly when they were taken of the
      same set of entries. */
  lemma SnapshotIsSet(a: seq<Document>, spaceA: string, b: seq<Document>, spaceB: string)
    requires DistinctIDs(a) && DistinctIDs(b)
    ensures Snapshot(a, spaceA) == Snapshot(b, spaceB) <==> SameElements(Entries(a, spaceA), Entries(b, spaceB))
  {
    hide Entries, SortBy, StrictTotal, DistinctIDs, DistinctDocuments, Ascending, ByDocument;
    var x, y := Entries(a, spaceA), Entries(b, spaceB);
    EntriesDistinct(a, spaceA);
    EntriesDistinct(b, spaceB);
    ByDocumentTotal(x);
    ByDocumentTotal(y);
    SortAscends(ByDocument, x, x);
    SortAscends(ByDocument, y, y);
    SortElements(ByDocument, x);
    SortElements(ByDocument, y);
    if SameElements(x, y) {
      MembersAreElements(SortBy(ByDocument, x), SortBy(ByDocument, y)) by {
        forall e ensures e in x <==> e in y {}
      }
      SameTotal(x, SortBy(ByDocument, x));
      AscendingUnique(ByDocument, SortBy(ByDocument, x), SortBy(ByDocument, y));
    }
    if Snapshot(a, spaceA) == Snapshot(b, spaceB) {
      forall e ensures e in x <==> e in y {}
    }
  }

  /** Two fingerprints agree exactly when the documents that count are the same and unchanged. */
  lemma SnapshotMeans(a: seq<Document>, spaceA: string, b: seq<Document>, spaceB: string)
    requires DistinctIDs(a) && DistinctIDs(b)
    ensures Snapshot(a, spaceA) == Snapshot(b, spaceB) <==> SameKnowledge(a, spaceA, b, spaceB)
  {
    hide Snapshot, Entries, Covered, DistinctIDs;
    SnapshotIsSet(a, spaceA, b, spaceB);
    CoveredEntries(a, spaceA, b, spaceB);
    CoveredEntries(b, spaceB, a, spaceA);
    var x, y := Entries(a, spaceA), Entries(b, spaceB);
    if (forall e :: e in x ==> e in y) && (forall e :: e in y ==> e in x) { MembersAreElements(x, y); }
    if SameElements(x, y) { ElementsAreMembers(x, y); }
  }

  lemma ElementsAreMembers(x: seq<Entry>, y: seq<Entry>)
    requires SameElements(x, y)
    ensures forall e :: e in x <==> e in y
  {
  }

  lemma SameTotal(x: seq<Entry>, y: seq<Entry>)
    requires StrictTotal(ByDocument, x) && forall e :: e in y <==> e in x
    ensures StrictTotal(ByDocument, y)
  {
    hide ByDocument;
  }

  // ----- Attempts

  datatype Attempt = Attempt(id: string, tenant: string, gap: string, completedAt: int, snapshot: Fingerprint, passed: bool)

  datatype State = Unverified | Verified | Stale

  datatype Projection = Projection(state: State, attemptID: string, snapshot: Fingerprint)

  const NoSnapshot := Fingerprint([])

  predicate ValidAttempt(a: Attempt) {
    Recurrences.ValidKnowledgeID(a.id) && Recurrences.ValidKnowledgeID(a.tenant) && Recurrences.ValidKnowledgeID(a.gap)
  }

  function Matching(attempts: seq<Attempt>, tenant: string, gap: string): seq<Attempt> {
    if attempts == [] then []
    else
      (if attempts[0].tenant == tenant && (gap == "" || attempts[0].gap == gap) then [attempts[0]] else [])
      + Matching(attempts[1..], tenant, gap)
  }

  predicate Newer(a: Attempt, b: Attempt) {
    a.completedAt > b.completedAt
  }

  /** At most a hundred attempts, newest first. */
  function Listed(attempts: seq<Attempt>, tenant: string, gap: string): seq<Attempt> {
    var all := StableSort(Newer, Matching(attempts, tenant, gap));
    if |all| > 100 then all[..100] else all
  }

  function FirstPassed(items: seq<Attempt>): (n: nat)
    ensures n <= |items| && (n < |items| ==> items[n].passed) && forall i :: 0 <= i < n ==> !items[i].passed
  {
    if items == [] || items[0].passed then 0 else 1 + FirstPassed(items[1..])
  }

  function Projected(attempts: seq<Attempt>, tenant: string, gap: string, spaceID: string, docs: seq<Document>): Projection {
    var items := Listed(attempts, tenant, gap);
    var n := FirstPassed(items);
    if n == |items| then Projection(Unverified, "", NoSnapshot)
    else
      Projection(if Snapshot(docs, spaceID) == items[n].snapshot then Verified else Stale, items[n].id, items[n].snapshot)
  }

  lemma AttemptsExactly(a: Attempt)
    ensures ValidAttempt(a) <==> forall id :: id in {a.id, a.tenant, a.gap} ==> TurnRecords.ProperId(Trim(id))
  {
    hide Recurrences.ValidKnowledgeID, TurnRecords.ProperId, Trim;
    forall id ensures Recurrences.ValidKnowledgeID(id) <==> TurnRecords.ProperId(Trim(id)) { Recurrences.KnowledgeIDMeans(id); }
  }

  class VerificationStore {
    var attempts: seq<Attempt>

    constructor ()
      ensures attempts == []
    {
      attempts := [];
    }

    method AppendRepairVerification(attempt: Attempt) returns (ok: bool)
      modifies this
      ensures ok <==> forall id :: id in {attempt.id, attempt.tenant, attempt.gap} ==> TurnRecords.ProperId(Trim(id))
      ensures attempts == if ok then old(attempts) + [attempt] else old(attempts)
    {
      hide ValidAttempt;
      AttemptsExactly(attempt);
      if !ValidAttempt(attempt) { return false; }
      attempts := attempts + [attempt];
      return true;
    }

    method ListRepairVerifications(tenant: string, gap: string) returns (found: seq<Attempt>)
      ensures found == StableSort(Newer, Matching(attempts, tenant, gap))
    {
      found := Filter(attempts, tenant, gap);
    }
  }

  method Filter(attempts: seq<Attempt>, tenant: string, gap: string) returns (found: seq<Attempt>)
    ensures found == StableSort(Newer, Matching(attempts, tenant, gap))
  {
    hide Matching, StableSort;
    found := [];
    assert attempts[0..] == attempts;
    for i := 0 to |attempts|
      invariant Matching(attempts, tenant, gap) == found + Matching(attempts[i..], tenant, gap)
    {
      MatchingStep(attempts, i, tenant, gap);
      if attempts[i].tenant == tenant && (gap == "" || attempts[i].gap == gap) { found := found + [attempts[i]]; }
    }
    assert attempts[|attempts|..] == [];
    NoMatching(tenant, gap);
    assert found == Matching(attempts, tenant, gap);
    found := StableSort(Newer, found);
  }

  lemma MatchingStep(attempts: seq<Attempt>, i: nat, tenant: string, gap: string)
    requires i < |attempts|
    ensures Matching(attempts[i..], tenant, gap) ==
            (if attempts[i].tenant == tenant && (gap == "" || attempts[i].gap == gap) then [attempts[i]] else [])
            + Matching(attempts[i + 1..], tenant, gap)
  {
    assert attempts[i..][1..] == attempts[i + 1..];
  }

  lemma NoMatching(tenant: string, gap: string)
    ensures Matching([], tenant, gap) == []
  {
  }

  method Project(attempts: seq<Attempt>, tenant: string, gap: string, spaceID: string, docs: seq<Document>)
    returns (projection: Projection)
    ensures projection == Projected(attempts, tenant, gap, spaceID, docs)
  {
    hide StableSort, Matching, Snapshot;
    var items := Filter(attempts, tenant, gap);
    if |items| > 100 { items := items[..100]; }
    projection := Projection(Unverified, "", NoSnapshot);
    for i := 0 to |items|
      invariant forall k :: 0 <= k < i ==> !items[k].passed
      invariant projection == Projection(Unverified, "", NoSnapshot)
    {
      if items[i].passed {
        var current := SnapshotFingerprint(docs, spaceID);
        return Projection(if current == items[i].snapshot then Verified else Stale, items[i].id, items[i].snapshot);
      }
    }
  }

  // ----- What a projection means

  /** Verified exactly when the newest passed attempt that is listed was taken of the same knowledge as the space
      has now, whatever the order of the documents then and now; Stale when there is such an attempt but the
      knowledge is another; Unverified when there is none. */
  lemma VerifiedMeans(attempts: seq<Attempt>, tenant: string, gap: string, spaceID: string,
                      docs: seq<Document>, earlier: seq<Document>, earlierSpace: string)
    requires DistinctIDs(docs) && DistinctIDs(earlier)
    requires var items := Listed(attempts, tenant, gap); var n := FirstPassed(items);
             n < |items| ==> items[n].snapshot == Snapshot(earlier, earlierSpace)
    ensures var items := Listed(attempts, tenant, gap); var n := FirstPassed(items);
            Projected(attempts, tenant, gap, spaceID, docs).state ==
              if n == |items| then Unverified
              else if SameKnowledge(docs, spaceID, earlier, earlierSpace) then Verified else Stale
  {
    hide Listed, Snapshot, SameKnowledge;
    SnapshotMeans(docs, spaceID, earlier, earlierSpace);
  }

  predicate InTimeOrder(attempts: seq<Attempt>) {
    forall i, j :: 0 <= i < j < |attempts| ==> attempts[i].completedAt < attempts[j].completedAt
  }

  lemma {:induction false} MatchingMembers(attempts: seq<Attempt>, tenant: string, gap: string, a: Attempt)
    ensures a in Matching(attempts, tenant, gap) <==> a in attempts && a.tenant == tenant && (gap == "" || a.gap == gap)
  {
    hide Matching;
    if attempts == [] {
      NoMatching(tenant, gap);
    } else {
      assert attempts[0..] == attempts;
      MatchingStep(attempts, 0, tenant, gap);
      MatchingMembers(attempts[1..], tenant, gap, a);
      assert attempts == [attempts[0]] + attempts[1..];
    }
  }

  lemma {:induction false} MatchingInOrder(attempts: seq<Attempt>, tenant: string, gap: string)
    requires InTimeOrder(attempts)
    ensures InTimeOrder(Matching(attempts, tenant, gap))
  {
    hide Matching;
    if attempts == [] {
      NoMatching(tenant, gap);
    } else {
      var rest := attempts[1..];
      assert attempts[0..] == attempts;
      assert forall i :: 0 <= i < |rest| ==> rest[i] == attempts[i + 1];
      MatchingStep(attempts, 0, tenant, gap);
      MatchingInOrder(rest, tenant, gap);
      forall a | a in Matching(rest, tenant, gap) ensures attempts[0].completedAt < a.completedAt {
        MatchingMembers(rest, tenant, gap, a);
        var i :| 0 <= i < |rest| && rest[i] == a;
      }
    }
  }

  /** With a clock that never stands still, the listed attempts are the last hundred of the gap, latest first. */
  lemma ListedAreLatest(attempts: seq<Attempt>, tenant: string, gap: string)
    requires InTimeOrder(attempts)
    ensures var all := Matching(attempts, tenant, gap);
            var k := if |all| > 100 then 100 else |all|;
            Listed(attempts, tenant, gap) == Reversed(all[|all| - k..])
  {
    hide Matching, StableSort, Reversed;
    var all := Matching(attempts, tenant, gap);
    MatchingInOrder(attempts, tenant, gap);
    StableSortReverses(Newer, all);
    var k := if |all| > 100 then 100 else |all|;
    assert Reversed(all)[..k] == Reversed(all[|all| - k..]);
    assert Reversed(all)[..|all|] == Reversed(all);
  }
}
