/** The evaluation part of the quality trends (knowledge_quality_trends.go): a window of civil days, the selected
    observations and their weekly buckets. */
module Trends {
  import opened Text

  datatype Status = Passed | Failed | Unavailable | OtherStatus(name: string)

  datatype Observation = Observation(id: string, gap: string, space: string, observedAt: int, status: Status)

  /** A date parameter: not given, not a date, or a civil day. */
  datatype DateText = Empty | Malformed | Day(number: int)

  /** The days from start up to but not including end. */
  datatype Window = Window(start: int, end: int)

  datatype Bucket = Bucket(startDay: int, passed: nat, failed: nat, unavailable: nat, total: nat)

  const MAX_DAYS := 90
  const DEFAULT_DAYS := 30
  const MAX_BUCKETS := 13

  /** The civil day of an instant and the first instant of a day, in one location. */
  ghost predicate Calendar(day: int -> int, first: int -> int) {
    forall t, d :: day(t) >= d <==> t >= first(d)
  }

  // ----- The window

  function ParseFilter(from: DateText, to: DateText, today: int): Option<Window> {
    if from.Empty? && to.Empty? then Some(Window(today + 1 - DEFAULT_DAYS, today + 1))
    else if from.Empty? || to.Empty? || from.Malformed? || to.Malformed? then None
    else
      var days := to.number + 1 - from.number;
      if days < 1 || days > MAX_DAYS then None else Some(Window(from.number, to.number + 1))
  }

  predicate Parsed(w: Window) {
    1 <= w.end - w.start <= MAX_DAYS
  }

  lemma ParsedWindows(from: DateText, to: DateText, today: int)
    ensures var p := ParseFilter(from, to, today);
            && (p.Some? ==> Parsed(p.value))
            && (from.Empty? && to.Empty? ==> p == Some(Window(today - 29, today + 1)))
            && (p.Some? ==> (from.Empty? && to.Empty?) || (from.Day? && to.Day?))
            && (from.Day? && to.Day? ==> (p.Some? <==> Parsed(Window(from.number, to.number + 1))))
            && (p.Some? && from.Day? ==> p.value == Window(from.number, to.number + 1))
  {
  }

  predicate InWindow(o: Observation, w: Window, first: int -> int) {
    first(w.start) <= o.observedAt < first(w.end)
  }

  /** An instant is in the window exactly when its civil day is. */
  lemma WindowIsDays(o: Observation, w: Window, day: int -> int, first: int -> int)
    requires Calendar(day, first)
    ensures InWindow(o, w, first) <==> w.start <= day(o.observedAt) < w.end
  {
    assert day(o.observedAt) >= w.start <==> o.observedAt >= first(w.start);
    assert day(o.observedAt) >= w.end <==> o.observedAt >= first(w.end);
  }

  // ----- The selection

  /** What the projection is asked for: the gaps it may look at and the space, if it is one space only. */
  datatype Scope = Scope(gaps: set<string>, space: Option<string>, window: Window)

  predicate InScope(o: Observation, scope: Scope, first: int -> int) {
    && o.gap in scope.gaps
    && (scope.space.Some? ==> o.space == scope.space.value)
    && InWindow(o, scope.window, first)
  }

  function Selected(all: seq<Observation>, scope: Scope, first: int -> int): seq<Observation> {
    if all == [] then []
    else
      var last := all[|all| - 1];
      Selected(all[..|all| - 1], scope, first) + (if InScope(last, scope, first) then [last] else [])
  }

  function CountStatus(all: seq<Observation>, status: Status): nat {
    if all == [] then 0
    else CountStatus(all[..|all| - 1], status) + (if all[|all| - 1].status == status then 1 else 0)
  }

  lemma {:induction false} SelectedInScope(all: seq<Observation>, scope: Scope, first: int -> int)
    ensures forall i :: 0 <= i < |Selected(all, scope, first)| ==> InScope(Selected(all, scope, first)[i], scope, first)
  {
    hide InScope;
    if all != [] { SelectedInScope(all[..|all| - 1], scope, first); }
  }

  /** Exactly the observations of a gap in scope, of the space if there is one, from the first instant of the first
      day on and before the first instant after the last are selected, as often as they occur. */
  lemma {:induction false} SelectedExactly(all: seq<Observation>, scope: Scope, first: int -> int, o: Observation)
    ensures var inside := o.gap in scope.gaps && (scope.space == None || scope.space == Some(o.space))
                          && first(scope.window.start) <= o.observedAt && o.observedAt < first(scope.window.end);
            multiset(Selected(all, scope, first))[o] == if inside then multiset(all)[o] else 0
  {
    if all != [] {
      var n := |all| - 1;
      SelectedExactly(all[..n], scope, first, o);
      assert all == all[..n] + [all[n]];
    }
  }

  lemma CountSnoc(all: seq<Observation>, o: Observation, status: Status)
    ensures CountStatus(all + [o], status) == CountStatus(all, status) + (if o.status == status then 1 else 0)
  {
    assert (all + [o])[..|all|] == all;
  }

  // ----- The buckets

  function BucketCount(w: Window): int {
    var n := (w.end - w.start + 6) / 7;
    if n > MAX_BUCKETS then MAX_BUCKETS else n
  }

  /** Conversion of a quotient to int truncates toward zero. */
  function TruncatedDiv(a: int, b: int): int
    requires b > 0
  {
    if a >= 0 then a / b else -((-a) / b)
  }

  function BucketIndex(o: Observation, w: Window, day: int -> int): int {
    TruncatedDiv(day(o.observedAt) - w.start, 7)
  }

  function Counted(b: Bucket, status: Status): Bucket {
    var c := b.(total := b.total + 1);
    match status
    case Passed => c.(passed := c.passed + 1)
    case Failed => c.(failed := c.failed + 1)
    case Unavailable => c.(unavailable := c.unavailable + 1)
    case OtherStatus(_) => c
  }

  /** The k-th bucket: the observations of the k-th week of the window. */
  function BucketAt(all: seq<Observation>, w: Window, day: int -> int, k: nat): Bucket {
    if all == [] then Bucket(w.start + 7 * k, 0, 0, 0, 0)
    else
      var before := BucketAt(all[..|all| - 1], w, day, k);
      var last := all[|all| - 1];
      if BucketIndex(last, w, day) == k then Counted(before, last.status) else before
  }

  lemma BucketSnoc(all: seq<Observation>, o: Observation, w: Window, day: int -> int, k: nat)
    ensures BucketAt(all + [o], w, day, k) ==
            if BucketIndex(o, w, day) == k then Counted(BucketAt(all, w, day, k), o.status) else BucketAt(all, w, day, k)
  {
    assert (all + [o])[..|all|] == all;
  }

  /** qualityTrendEvalBuckets: slots updated in place; an observation outside them is skipped. */
  method EvalBuckets(all: seq<Observation>, w: Window, day: int -> int) returns (buckets: array<Bucket>)
    requires w.start <= w.end
    ensures fresh(buckets) && buckets.Length == BucketCount(w)
    ensures forall k :: 0 <= k < buckets.Length ==> buckets[k] == BucketAt(all, w, day, k)
  {
    hide BucketIndex, Counted;
    buckets := new Bucket[BucketCount(w)](k => Bucket(w.start + 7 * k, 0, 0, 0, 0));
    assert all[..0] == [];
    for i := 0 to |all|
      invariant fresh(buckets)
      invariant forall k :: 0 <= k < buckets.Length ==> buckets[k] == BucketAt(all[..i], w, day, k)
    {
      var index := BucketIndex(all[i], w, day);
      assert all[..i + 1] == all[..i] + [all[i]];
      forall k | 0 <= k < buckets.Length
        ensures BucketAt(all[..i + 1], w, day, k) ==
                if index == k then Counted(buckets[k], all[i].status) else buckets[k]
      {
        BucketSnoc(all[..i], all[i], w, day, k);
      }
      if 0 <= index < buckets.Length { buckets[index] := Counted(buckets[index], all[i].status); }
    }
    assert all[..|all|] == all;
  }

  datatype Eval = Eval(passed: nat, failed: nat, unavailable: nat, total: nat)

  /** The part of Project that selects and counts the observations. */
  method ProjectEval(all: seq<Observation>, scope: Scope, first: int -> int) returns (eval: Eval, selected: seq<Observation>)
    ensures selected == Selected(all, scope, first)
    ensures eval == Eval(CountStatus(selected, Passed), CountStatus(selected, Failed), CountStatus(selected, Unavailable), |selected|)
  {
    hide InScope;
    selected := [];
    eval := Eval(0, 0, 0, 0);
    for i := 0 to |all|
      invariant selected == Selected(all[..i], scope, first)
      invariant eval == Eval(CountStatus(selected, Passed), CountStatus(selected, Failed), CountStatus(selected, Unavailable), |selected|)
    {
      assert all[..i + 1][..i] == all[..i];
      if InScope(all[i], scope, first) {
        CountSnoc(selected, all[i], Passed);
        CountSnoc(selected, all[i], Failed);
        CountSnoc(selected, all[i], Unavailable);
        selected := selected + [all[i]];
        eval := eval.(total := eval.total + 1);
        match all[i].status {
          case Passed => eval := eval.(passed := eval.passed + 1);
          case Failed => eval := eval.(failed := eval.failed + 1);
          case Unavailable => eval := eval.(unavailable := eval.unavailable + 1);
          case OtherStatus(_) =>
        }
      }
    }
    assert all[..|all|] == all;
  }

  // ----- Nothing is lost

  /** The cap on the number of buckets never binds, and every day of the window has its bucket. */
  lemma CapNeverBinds(w: Window, d: int)
    requires Parsed(w)
    ensures BucketCount(w) == (w.end - w.start + 6) / 7 <= MAX_BUCKETS
    ensures w.start <= d < w.end ==> 0 <= TruncatedDiv(d - w.start, 7) < BucketCount(w)
    ensures w.start <= d < w.end ==>
              var k := TruncatedDiv(d - w.start, 7); w.start + 7 * k <= d < w.start + 7 * k + 7
  {
  }

  /** Adds up one count of the first n buckets. */
  function SumOf(all: seq<Observation>, w: Window, day: int -> int, n: nat, count: Bucket -> nat): nat {
    if n == 0 then 0 else SumOf(all, w, day, n - 1, count) + count(BucketAt(all, w, day, n - 1))
  }

  function Total(b: Bucket): nat { b.total }

  function PassedIn(b: Bucket): nat { b.passed }

  function FailedIn(b: Bucket): nat { b.failed }

  function UnavailableIn(b: Bucket): nat { b.unavailable }

  /** How much one observation adds to a count. */
  function Adds(status: Status, count: Bucket -> nat): int {
    var zero := Bucket(0, 0, 0, 0, 0); count(Counted(zero, status)) - count(zero)
  }

  /** A count to which an observation adds the same in every bucket. */
  ghost predicate Additive(count: Bucket -> nat) {
    && (forall b, status :: count(Counted(b, status)) == count(b) + Adds(status, count))
    && forall day :: count(Bucket(day, 0, 0, 0, 0)) == 0
  }

  lemma {:induction false} SumOfNone(w: Window, day: int -> int, n: nat, count: Bucket -> nat)
    requires Additive(count)
    ensures SumOf([], w, day, n, count) == 0
  {
    if n > 0 { SumOfNone(w, day, n - 1, count); }
  }

  /** One more observation adds to exactly the one bucket of its week. */
  lemma {:induction false} SumOfSnoc(all: seq<Observation>, o: Observation, w: Window, day: int -> int, n: nat, count: Bucket -> nat)
    requires Additive(count)
    ensures SumOf(all + [o], w, day, n, count) ==
            SumOf(all, w, day, n, count) + (if 0 <= BucketIndex(o, w, day) < n then Adds(o.status, count) else 0)
  {
    hide BucketAt, BucketIndex, Adds, Counted;
    if n > 0 {
      SumOfSnoc(all, o, w, day, n - 1, count);
      BucketSnoc(all, o, w, day, n - 1);
    }
  }

  function AddsAll(all: seq<Observation>, count: Bucket -> nat): int {
    if all == [] then 0 else AddsAll(all[..|all| - 1], count) + Adds(all[|all| - 1].status, count)
  }

  predicate AllIn(all: seq<Observation>, w: Window, first: int -> int) {
    forall i :: 0 <= i < |all| ==> InWindow(all[i], w, first)
  }

  lemma {:induction false} SumIsAll(all: seq<Observation>, w: Window, day: int -> int, first: int -> int, count: Bucket -> nat)
    requires Calendar(day, first) && Parsed(w) && AllIn(all, w, first) && Additive(count)
    ensures SumOf(all, w, day, BucketCount(w), count) == AddsAll(all, count)
  {
    hide Additive, Adds, SumOf, BucketCount, Calendar;
    if all == [] {
      BucketCountPositive(w);
      SumOfNone(w, day, BucketCount(w), count);
    } else {
      var before, o := all[..|all| - 1], all[|all| - 1];
      SumIsAll(before, w, day, first, count);
      assert all == before + [o];
      BucketCountPositive(w);
      SumOfSnoc(before, o, w, day, BucketCount(w), count);
      WindowIsDays(o, w, day, first);
      CapNeverBinds(w, day(o.observedAt));
    }
  }

  lemma BucketCountPositive(w: Window)
    requires Parsed(w)
    ensures BucketCount(w) > 0
  {
  }

  lemma CountsAreAdditive()
    ensures Additive(Total) && Additive(PassedIn) && Additive(FailedIn) && Additive(UnavailableIn)
  {
  }

  lemma {:induction false} AddsAllMeans(all: seq<Observation>)
    ensures AddsAll(all, Total) == |all|
    ensures AddsAll(all, PassedIn) == CountStatus(all, Passed)
    ensures AddsAll(all, FailedIn) == CountStatus(all, Failed)
    ensures AddsAll(all, UnavailableIn) == CountStatus(all, Unavailable)
  {
    if all != [] {
      AddsAllMeans(all[..|all| - 1]);
      AddsOne(all[|all| - 1].status);
    }
  }

  lemma AddsOne(status: Status)
    ensures Adds(status, Total) == 1
    ensures Adds(status, PassedIn) == if status.Passed? then 1 else 0
    ensures Adds(status, FailedIn) == if status.Failed? then 1 else 0
    ensures Adds(status, UnavailableIn) == if status.Unavailable? then 1 else 0
  {
  }

  /** The buckets lose nothing: for every window that parses, the totals and the counts of each status, added over
      all buckets, are the counts of the projection. */
  lemma BucketsConserve(all: seq<Observation>, scope: Scope, day: int -> int, first: int -> int)
    requires Calendar(day, first) && Parsed(scope.window)
    ensures var selected := Selected(all, scope, first);
            var n := BucketCount(scope.window);
            && n > 0
            && SumOf(selected, scope.window, day, n, Total) == |selected|
            && SumOf(selected, scope.window, day, n, PassedIn) == CountStatus(selected, Passed)
            && SumOf(selected, scope.window, day, n, FailedIn) == CountStatus(selected, Failed)
            && SumOf(selected, scope.window, day, n, UnavailableIn) == CountStatus(selected, Unavailable)
  {
    hide SumOf, AddsAll, CountStatus, Additive, Calendar, BucketCount, Selected;
    var selected := Selected(all, scope, first);
    SelectedInScope(all, scope, first);
    BucketCountPositive(scope.window);
    CountsAreAdditive();
    AddsAllMeans(selected);
    SumIsAll(selected, scope.window, day, first, Total);
    SumIsAll(selected, scope.window, day, first, PassedIn);
    SumIsAll(selected, scope.window, day, first, FailedIn);
    SumIsAll(selected, scope.window, day, first, UnavailableIn);
  }

  /** The observations of the seven days from start on. */
  function Week(all: seq<Observation>, day: int -> int, start: int): seq<Observation> {
    if all == [] then []
    else
      var o := all[|all| - 1];
      Week(all[..|all| - 1], day, start) + (if start <= day(o.observedAt) < start + 7 then [o] else [])
  }

  /** A bucket counts the observations of its seven days and no others, each status by itself; what the counts
      leave to the total are the observations of another status. */
  lemma {:induction false} BucketIsWeek(all: seq<Observation>, w: Window, day: int -> int, k: nat)
    requires forall i :: 0 <= i < |all| ==> w.start <= day(all[i].observedAt)
    ensures var week := Week(all, day, w.start + 7 * k);
            && BucketAt(all, w, day, k) == Bucket(w.start + 7 * k, CountStatus(week, Passed), CountStatus(week, Failed),
                                                  CountStatus(week, Unavailable), |week|)
            && (|week| == CountStatus(week, Passed) + CountStatus(week, Failed) + CountStatus(week, Unavailable) <==>
                forall i :: 0 <= i < |week| ==> !week[i].status.OtherStatus?)
  {
    hide BucketIndex, CountStatus;
    StatusesCount(Week(all, day, w.start + 7 * k));
    if all == [] {
      NothingCounted();
    } else {
      var before, o := all[..|all| - 1], all[|all| - 1];
      BucketIsWeek(before, w, day, k);
      assert forall i :: 0 <= i < |before| ==> before[i] == all[i];
      WeekOf(o, w, day, k);
      var week := Week(before, day, w.start + 7 * k);
      CountSnoc(week, o, Passed);
      CountSnoc(week, o, Failed);
      CountSnoc(week, o, Unavailable);
      assert week + [] == week;
    }
  }

  lemma NothingCounted()
    ensures CountStatus([], Passed) == CountStatus([], Failed) == CountStatus([], Unavailable) == 0
  {
  }

  lemma {:induction false} StatusesCount(all: seq<Observation>)
    ensures var n := CountStatus(all, Passed) + CountStatus(all, Failed) + CountStatus(all, Unavailable);
            n <= |all| && (n == |all| <==> forall i :: 0 <= i < |all| ==> !all[i].status.OtherStatus?)
  {
    if all != [] {
      var before := all[..|all| - 1];
      StatusesCount(before);
      assert forall i :: 0 <= i < |before| ==> before[i] == all[i];
    }
  }

  lemma WeekOf(o: Observation, w: Window, day: int -> int, k: nat)
    requires w.start <= day(o.observedAt)
    ensures BucketIndex(o, w, day) == k <==> w.start + 7 * k <= day(o.observedAt) < w.start + 7 * k + 7
  {
  }
}
