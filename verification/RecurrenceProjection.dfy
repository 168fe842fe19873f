/** What the recurrence ledger shows of a gap: the list of knowledge_recurrence.go and Project of
    knowledge_recurrence_service.go. */
module RecurrenceProjections {
  import opened Text
  import opened Sorting
  import opened Recurrences

  predicate Listable(r: Recurrence, tenant: string, gap: string, status: Option<Status>) {
    r.tenant == tenant && (gap == "" || r.gap == gap) && (status.Some? ==> r.status == status.value)
  }

  function Matching(records: seq<Recurrence>, tenant: string, gap: string, status: Option<Status>): seq<Recurrence> {
    if records == [] then []
    else (if Listable(records[0], tenant, gap, status) then [records[0]] else []) + Matching(records[1..], tenant, gap, status)
  }

  /** Later updates first, then greater ids. */
  predicate Newer(a: Recurrence, b: Recurrence) {
    if a.updatedAt == b.updatedAt then StringLess(b.id, a.id) else a.updatedAt > b.updatedAt
  }

  function Listed(records: seq<Recurrence>, tenant: string, gap: string, status: Option<Status>, limit: int): seq<Recurrence> {
    var all := StableSort(Newer, Matching(records, tenant, gap, status));
    var most := if limit <= 0 then 20 else limit;
    if |all| > most then all[..most] else all
  }

  lemma MatchingStep(records: seq<Recurrence>, i: nat, tenant: string, gap: string, status: Option<Status>)
    requires i < |records|
    ensures Matching(records[i..], tenant, gap, status) ==
            (if Listable(records[i], tenant, gap, status) then [records[i]] else []) + Matching(records[i + 1..], tenant, gap, status)
    ensures Matching([], tenant, gap, status) == []
  {
    assert records[i..][1..] == records[i + 1..];
  }

  lemma NoMatching(tenant: string, gap: string, status: Option<Status>)
    ensures Matching([], tenant, gap, status) == []
  {
  }

  method ListRepairRecurrences(records: seq<Recurrence>, tenant: string, gap: string, status: Option<Status>, limit: int)
    returns (items: seq<Recurrence>)
    ensures items == Listed(records, tenant, gap, status, limit)
  {
    hide Matching, Listable, StableSort;
    items := [];
    assert records[0..] == records;
    for i := 0 to |records|
      invariant Matching(records, tenant, gap, status) == items + Matching(records[i..], tenant, gap, status)
    {
      MatchingStep(records, i, tenant, gap, status);
      if Listable(records[i], tenant, gap, status) { items := items + [records[i]]; }
    }
    assert records[|records|..] == [];
    NoMatching(tenant, gap, status);
    assert items == Matching(records, tenant, gap, status);
    items := StableSort(Newer, items);
    var most := if limit <= 0 then 20 else limit;
    if |items| > most { items := items[..most]; }
  }

  datatype Projection = NoRecurrence | Shows(state: Status, record: Recurrence)

  /** The first suspected item decides, otherwise the newest. */
  function FirstSuspected(items: seq<Recurrence>): (n: nat)
    ensures n <= |items| && (n < |items| ==> items[n].status == Suspected) && forall i :: 0 <= i < n ==> items[i].status != Suspected
  {
    if items == [] || items[0].status == Suspected then 0 else 1 + FirstSuspected(items[1..])
  }

  function Projected(records: seq<Recurrence>, tenant: string, gap: string): Projection {
    var items := Listed(records, tenant, gap, None, 100);
    var n := FirstSuspected(items);
    if items == [] then NoRecurrence
    else if n < |items| then Shows(Suspected, items[n])
    else Shows(if items[0].status == Confirmed then Confirmed else Dismissed, items[0])
  }

  method ProjectRecurrence(records: seq<Recurrence>, tenant: string, gap: string) returns (projection: Projection)
    ensures projection == Projected(records, tenant, gap)
  {
    hide Listed;
    var items := ListRepairRecurrences(records, tenant, gap, None, 100);
    if |items| == 0 { return NoRecurrence; }
    for i := 0 to |items|
      invariant forall k :: 0 <= k < i ==> items[k].status != Suspected
    {
      if items[i].status == Suspected { return Shows(Suspected, items[i]); }
    }
    return Shows(if items[0].status == Confirmed then Confirmed else Dismissed, items[0]);
  }

  lemma {:induction false} MatchingMembers(records: seq<Recurrence>, tenant: string, gap: string, status: Option<Status>, r: Recurrence)
    ensures r in Matching(records, tenant, gap, status) <==> r in records && Listable(r, tenant, gap, status)
  {
    hide Matching, Listable;
    if records == [] {
      NoMatching(tenant, gap, status);
    } else {
      assert records[0..] == records;
      MatchingStep(records, 0, tenant, gap, status);
      MatchingMembers(records[1..], tenant, gap, status, r);
      assert records == [records[0]] + records[1..];
    }
  }

  lemma {:induction false} MatchingDistinct(records: seq<Recurrence>, tenant: string, gap: string, status: Option<Status>)
    requires DistinctRecords(records)
    ensures NoDuplicates(Matching(records, tenant, gap, status))
  {
    hide Matching;
    if records == [] {
      NoMatching(tenant, gap, status);
    } else {
      var rest := records[1..];
      assert records[0..] == records;
      assert forall i :: 0 <= i < |rest| ==> rest[i] == records[i + 1];
      MatchingStep(records, 0, tenant, gap, status);
      MatchingDistinct(rest, tenant, gap, status);
      var first := if Listable(records[0], tenant, gap, status) then [records[0]] else [];
      forall r | r in first ensures r !in Matching(rest, tenant, gap, status) {
        MatchingMembers(rest, tenant, gap, status, r);
        NotAgain(records, r);
      }
      DistinctAppend(first, Matching(rest, tenant, gap, status));
    }
  }

  lemma NotAgain(records: seq<Recurrence>, r: Recurrence)
    requires DistinctRecords(records) && records != [] && r == records[0]
    ensures r !in records[1..]
  {
    assert forall i :: 0 <= i < |records| - 1 ==> records[1..][i] == records[i + 1];
  }

  /** Records of one tenant with different ids are totally ordered. */
  lemma NewerTotal(items: seq<Recurrence>)
    requires forall x, y :: x in items && y in items && x != y ==> x.id != y.id
    ensures StrictTotal(Newer, items)
  {
    hide StringLess;
    forall x, y | x in items && y in items
      ensures !(Newer(x, y) && Newer(y, x))
      ensures x != y ==> Newer(x, y) || Newer(y, x)
    {
      StringLessStrict(x.id, y.id);
    }
    forall x, y, z | x in items && y in items && z in items && Newer(x, y) && Newer(y, z) ensures Newer(x, z) {
      NewerTransitive(x, y, z);
    }
  }

  lemma NewerTransitive(x: Recurrence, y: Recurrence, z: Recurrence)
    requires Newer(x, y) && Newer(y, z)
    ensures Newer(x, z)
  {
    hide StringLess;
    if StringLess(z.id, y.id) && StringLess(y.id, x.id) { StringLessTransitive(z.id, y.id, x.id); }
  }

  lemma SameIDSameRecord(records: seq<Recurrence>, x: Recurrence, y: Recurrence)
    requires DistinctRecords(records) && x in records && y in records && x.tenant == y.tenant && x.id == y.id
    ensures x == y
  {
    var i :| 0 <= i < |records| && records[i] == x;
    var j :| 0 <= j < |records| && records[j] == y;
  }

  /** How many of the records asked for are newer. */
  function Ahead(records: seq<Recurrence>, tenant: string, gap: string, status: Option<Status>, r: Recurrence): nat {
    Before(Newer, Matching(records, tenant, gap, status), r)
  }

  /** Later updates come first, and of updates at one time greater ids in byte order. */
  predicate NewestFirst(items: seq<Recurrence>) {
    forall i, j :: 0 <= i < j < |items| ==>
      items[i].updatedAt > items[j].updatedAt || (items[i].updatedAt == items[j].updatedAt && StringLess(items[j].id, items[i].id))
  }

  lemma AllListed(records: seq<Recurrence>, tenant: string, gap: string, status: Option<Status>)
    requires DistinctRecords(records)
    ensures var all := Matching(records, tenant, gap, status);
            StrictTotal(Newer, all) && Ascending(Newer, StableSort(Newer, all))
  {
    hide Matching, StableSort, SortBy, Newer, Ascending, StrictTotal, NoDuplicates, DistinctRecords;
    var all := Matching(records, tenant, gap, status);
    MatchingDistinct(records, tenant, gap, status);
    forall x, y | x in all && y in all && x != y ensures x.id != y.id {
      MatchingMembers(records, tenant, gap, status, x);
      MatchingMembers(records, tenant, gap, status, y);
      if x.id == y.id { SameIDSameRecord(records, x, y); }
    }
    NewerTotal(all);
    StableSortIsSort(Newer, all, all);
    SortAscends(Newer, all, all);
  }

  /** The listed records are those asked for that fewer than the limit of those asked for are newer than, newest
      first; the limit is twenty if none is given. */
  lemma ListedMeans(records: seq<Recurrence>, tenant: string, gap: string, status: Option<Status>, limit: int, r: Recurrence)
    requires DistinctRecords(records)
    ensures var items := Listed(records, tenant, gap, status, limit);
            var most := if limit <= 0 then 20 else limit;
            && Ascending(Newer, items) && NewestFirst(items)
            && (r in items <==>
                && r in records && r.tenant == tenant && (gap == "" || r.gap == gap) && (status == None || status == Some(r.status))
                && Ahead(records, tenant, gap, status, r) < most)
  {
    hide Matching, StableSort, Newer, Ascending, StrictTotal, Before, NewestFirst;
    var all := Matching(records, tenant, gap, status);
    var sorted, items := StableSort(Newer, all), Listed(records, tenant, gap, status, limit);
    AllListed(records, tenant, gap, status);
    StableSortElements(Newer, all);
    MatchingMembers(records, tenant, gap, status, r);
    SortKeepsRank(Newer, all, r);
    AscendingPrefix(sorted, |items|);
    AscendingIsNewest(items);
    forall i | 0 <= i < |sorted| ensures Before(Newer, sorted, sorted[i]) == i { RankIsPosition(Newer, sorted, i, all); }
    if r in items {
      var i :| 0 <= i < |items| && items[i] == r;
      assert sorted[i] == r;
    }
    if r in sorted && Before(Newer, sorted, r) < (if limit <= 0 then 20 else limit) {
      var i :| 0 <= i < |sorted| && sorted[i] == r;
      assert items[i] == r;
    }
  }

  lemma AscendingIsNewest(items: seq<Recurrence>)
    requires Ascending(Newer, items)
    ensures NewestFirst(items)
  {
    hide StringLess;
  }

  lemma AscendingPrefix(sorted: seq<Recurrence>, n: nat)
    requires Ascending(Newer, sorted) && n <= |sorted|
    ensures Ascending(Newer, sorted[..n])
  {
    hide Newer;
  }

  lemma ProjectionOf(records: seq<Recurrence>, tenant: string, gap: string, r: Recurrence)
    requires DistinctRecords(records) && OneOpenEach(records) && gap != ""
    requires r in records && r.tenant == tenant && r.gap == gap
    ensures var p := Projected(records, tenant, gap);
            && p.Shows?
            && p.record in records && p.record.tenant == tenant && p.record.gap == gap && p.record.status == p.state
            && (r.status == Suspected ==>
                  if Ahead(records, tenant, gap, None, r) < 100 then p == Shows(Suspected, r) else p.state != Suspected)
            && (p.state != Suspected ==> r.updatedAt <= p.record.updatedAt && !Newer(r, p.record))
  {
    hide Matching, Newer, DistinctRecords, OneOpenEach, Ascending, StableSort, Ahead, StrictTotal;
    var items := Listed(records, tenant, gap, None, 100);
    var all := Matching(records, tenant, gap, None);
    var sorted := StableSort(Newer, all);
    MatchingMembers(records, tenant, gap, None, r);
    StableSortElements(Newer, all);
    AllListed(records, tenant, gap, None);
    NotNewerThanFirst(sorted, r);
    assert items != [] && items[0] == sorted[0];
    ListedMeans(records, tenant, gap, None, 100, r);
    var n := FirstSuspected(items);
    var shown := if n < |items| then items[n] else items[0];
    assert shown in items;
    ListedMeans(records, tenant, gap, None, 100, shown);
    if n < |items| && r.status == Suspected { OneOpen(records, r, shown); }
  }

  /** What Project says in every reachable ledger of a gap with records: its suspected record, exactly when it
      has one that fewer than a hundred of its records are newer than; otherwise the verdict of the record that
      was updated last. */
  lemma ProjectionMeans(actions: seq<Action>, gapOf: (string, string) -> string, tenant: string, gap: string, r: Recurrence)
    requires OneGapEach(actions, gapOf) && gap != ""
    requires r in Run(actions).ledger.records && r.tenant == tenant && r.gap == gap
    ensures var records := Run(actions).ledger.records;
            var p := Projected(records, tenant, gap);
            && p.Shows?
            && p.record in records && p.record.tenant == tenant && p.record.gap == gap && p.record.status == p.state
            && (r.status == Suspected ==>
                  if Ahead(records, tenant, gap, None, r) < 100 then p == Shows(Suspected, r) else p.state != Suspected)
            && (p.state != Suspected ==> r.updatedAt <= p.record.updatedAt && !Newer(r, p.record))
  {
    hide Matching, Projected, Newer, Run, DistinctRecords, OneOpenEach, DistinctKeys, GapsAgree, AllNamed,
      CountsAtMost, AllResolve, AllHeldOld, Ahead;
    RunKeeps(actions, gapOf);
    ProjectionOf(Run(actions).ledger.records, tenant, gap, r);
  }

  lemma OneOpen(records: seq<Recurrence>, x: Recurrence, y: Recurrence)
    requires OneOpenEach(records) && x in records && y in records
    requires x.tenant == y.tenant && x.gap == y.gap && x.status == Suspected && y.status == Suspected
    ensures x == y
  {
    var i :| 0 <= i < |records| && records[i] == x;
    var j :| 0 <= j < |records| && records[j] == y;
  }

  lemma NotNewerThanFirst(items: seq<Recurrence>, r: Recurrence)
    requires Ascending(Newer, items) && r in items
    ensures !Newer(r, items[0]) && r.updatedAt <= items[0].updatedAt
  {
    hide StringLess;
    var j :| 0 <= j < |items| && items[j] == r;
    StringLessStrict(r.id, items[0].id);
    if j > 0 { assert Newer(items[0], items[j]); }
  }
}
