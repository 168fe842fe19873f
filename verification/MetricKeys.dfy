/** The keys of the in-memory metrics (metric_key.go) and what the map of metrics.go means through them. */
module MetricKeys {
  import opened Text
  import opened Splitting
  import opened Sorting

  datatype Series = Series(name: string, labels: map<string, string>)

  // ----- Printing a key

  function EscapeLabelValue(value: string): string {
    ReplaceAll(ReplaceAll(value, "\\", "\\\\"), "\"", "\\\"")
  }

  function LabelText(tag: string, value: string): string {
    tag + "=\"" + EscapeLabelValue(value) + "\""
  }

  function LabelsText(names: seq<string>, labels: map<string, string>): string
    requires forall i :: 0 <= i < |names| ==> names[i] in labels
  {
    if names == [] then ""
    else
      LabelText(names[0], labels[names[0]]) + if |names| == 1 then "" else "," + LabelsText(names[1..], labels)
  }

  /** Some order of the elements of a set: what a range over a Go map happens to yield. */
  ghost function SomeOrder(s: set<string>): (r: seq<string>)
    ensures NoDuplicates(r) && forall x :: x in r <==> x in s
  {
    if s == {} then [] else var x :| x in s; [x] + SomeOrder(s - {x})
  }

  ghost function SortedNames(s: set<string>): (r: seq<string>)
    ensures forall x :: x in r <==> x in s
    ensures |r| == 0 <==> s == {}
  {
    SortElements(StringLess, SomeOrder(s));
    var r := SortBy(StringLess, SomeOrder(s));
    assert r != [] ==> r[0] in r;
    r
  }

  /** The sorted names do not depend on the order of the range. */
  lemma SortedNamesUnique(s: set<string>, r: seq<string>)
    requires NoDuplicates(r) && forall x :: x in r <==> x in s
    ensures SortBy(StringLess, r) == SortedNames(s)
  {
    hide SortBy, Ascending, StrictTotal;
    var q := SomeOrder(s);
    StringsTotal(r);
    StringsTotal(q);
    SortAscends(StringLess, r, r);
    SortAscends(StringLess, q, q);
    SortElements(StringLess, r);
    SortElements(StringLess, q);
    StringsTotal(SortBy(StringLess, r));
    MembersAreElements(SortBy(StringLess, r), SortBy(StringLess, q));
    AscendingUnique(StringLess, SortBy(StringLess, r), SortBy(StringLess, q));
  }

  /** The key of a series. */
  ghost function KeyOf(s: Series): string {
    if s.labels == map[] then s.name
    else s.name + "{" + LabelsText(SortedNames(s.labels.Keys), s.labels) + "}"
  }

  /** The names of the labels in the order in which the range over the map yields them, then sorted. */
  method LabelNames(labels: map<string, string>) returns (keys: seq<string>)
    ensures keys == SortedNames(labels.Keys)
  {
    hide SortedNames, SortBy, SomeOrder;
    keys := [];
    var left := labels.Keys;
    while left != {}
      invariant left <= labels.Keys
      invariant NoDuplicates(keys) && forall x :: x in keys <==> x in labels.Keys && x !in left
      decreases |left|
    {
      var k :| k in left;
      keys, left := keys + [k], left - {k};
    }
    SortedNamesUnique(labels.Keys, keys);
    keys := SortBy(StringLess, keys);
  }

  method WriteLabels(name: string, keys: seq<string>, labels: map<string, string>) returns (key: string)
    requires keys != [] && forall i :: 0 <= i < |keys| ==> keys[i] in labels
    ensures key == name + "{" + LabelsText(keys, labels) + "}"
  {
    hide LabelsText, LabelText;
    key := name + "{";
    LabelsEnd(labels);
    ghost var text := name + "{" + LabelsText(keys, labels);
    assert keys[0..] == keys;
    var i := 0;
    while i < |keys|
      invariant i <= |keys|
      invariant text == key + (if 0 < i < |keys| then "," else "") + LabelsText(keys[i..], labels)
    {
      LabelsStep(keys, i, labels);
      if i > 0 { key := key + ","; }
      key := key + LabelText(keys[i], labels[keys[i]]);
      i := i + 1;
    }
    assert keys[|keys|..] == [];
    key := key + "}";
  }

  method MetricKey(name: string, labels: map<string, string>) returns (key: string)
    ensures key == KeyOf(Series(name, labels))
  {
    hide LabelsText, SortedNames;
    if |labels| == 0 { return name; }
    var keys := LabelNames(labels);
    key := WriteLabels(name, keys, labels);
  }

  lemma LabelTextIs(tag: string, value: string)
    ensures LabelText(tag, value) == tag + "=\"" + EscapeLabelValue(value) + "\""
  {
  }

  lemma LabelsEnd(labels: map<string, string>)
    ensures LabelsText([], labels) == ""
  {
  }

  lemma LabelsStep(names: seq<string>, i: nat, labels: map<string, string>)
    requires i < |names| && forall k :: 0 <= k < |names| ==> names[k] in labels
    ensures LabelsText(names[i..], labels) ==
            LabelText(names[i], labels[names[i]]) + (if i + 1 < |names| then "," else "") + LabelsText(names[i + 1..], labels)
  {
    hide LabelText;
    assert names[i..][1..] == names[i + 1..];
  }

  // ----- Reading a key

  datatype Quoted = Quoted(value: string, rest: string)

  function IndexOf(s: string, c: char): (n: nat)
    ensures n <= |s| && (n < |s| ==> s[n] == c) && forall i :: 0 <= i < n ==> s[i] != c
  {
    if s == "" || s[0] == c then 0 else 1 + IndexOf(s[1..], c)
  }

  /** A quoted value up to its closing quote; a backslash takes the next character as it is. */
  function ReadValue(s: string): (q: Quoted)
    ensures |q.rest| <= |s|
  {
    if s == "" then Quoted("", "")
    else if s[0] == '"' then Quoted("", s[1..])
    else if s[0] == '\\' && |s| > 1 then
      var q := ReadValue(s[2..]); Quoted([s[1]] + q.value, q.rest)
    else
      var q := ReadValue(s[1..]); Quoted([s[0]] + q.value, q.rest)
  }

  function ReadLabels(s: string): map<string, string>
    decreases |s|
  {
    var e := IndexOf(s, '=');
    if e + 2 > |s| then map[]
    else
      var q := ReadValue(s[e + 2..]);
      (if q.rest != "" && q.rest[0] == ',' then ReadLabels(q.rest[1..]) else map[])[s[..e] := q.value]
  }

  function ReadKey(key: string): Series {
    var n := IndexOf(key, '{');
    if n == |key| then Series(key, map[]) else Series(key[..n], ReadLabels(key[n + 1..]))
  }

  // ----- Reading undoes printing

  function EscapeEach(v: string): string {
    if v == "" then ""
    else (if v[0] == '\\' then "\\\\" else if v[0] == '"' then "\\\"" else [v[0]]) + EscapeEach(v[1..])
  }

  lemma {:induction false} ReplaceCharAppend(a: string, b: string, c: char, to: string)
    ensures ReplaceChar(a + b, c, to) == ReplaceChar(a, c, to) + ReplaceChar(b, c, to)
  {
    hide ReplaceChar;
    if a == "" {
      ReplaceCharStep(c, "", c, to);
      assert a + b == b;
    } else {
      ReplaceCharAppend(a[1..], b, c, to);
      ReplaceCharStep(a[0], a[1..], c, to);
      ReplaceCharStep(a[0], a[1..] + b, c, to);
      assert a == [a[0]] + a[1..] && a + b == [a[0]] + (a[1..] + b);
    }
  }

  lemma {:induction false} EscapedTwice(v: string)
    ensures ReplaceChar(ReplaceChar(v, '\\', "\\\\"), '"', "\\\"") == EscapeEach(v)
  {
    hide ReplaceChar;
    ReplaceCharStep('\\', "", '\\', "\\\\");
    ReplaceCharStep('\\', "", '"', "\\\"");
    if v != "" {
      var tail := ReplaceChar(v[1..], '\\', "\\\\");
      EscapedTwice(v[1..]);
      assert v == [v[0]] + v[1..];
      ReplaceCharStep(v[0], v[1..], '\\', "\\\\");
      var head := if v[0] == '\\' then "\\\\" else [v[0]];
      ReplaceCharAppend(head, tail, '"', "\\\"");
      EscapedHead(v[0]);
    }
  }

  lemma EscapedHead(c: char)
    ensures ReplaceChar(if c == '\\' then "\\\\" else [c], '"', "\\\"") ==
            if c == '\\' then "\\\\" else if c == '"' then "\\\"" else [c]
  {
    hide ReplaceChar;
    ReplaceCharStep('\\', "", '"', "\\\"");
    ReplaceCharStep('\\', "\\", '"', "\\\"");
    ReplaceCharStep(c, "", '"', "\\\"");
    assert ['\\'] + "" == "\\" && ['\\'] + "\\" == "\\\\" && [c] + "" == [c] && "\\\"" + "" == "\\\"";
  }

  lemma EscapeIsEach(v: string)
    ensures EscapeLabelValue(v) == EscapeEach(v)
  {
    hide ReplaceAll, ReplaceChar, EscapeEach;
    assert "\\" == ['\\'] && "\"" == ['"'];
    ReplaceAllIsReplaceChar(v, '\\', "\\\\");
    ReplaceAllIsReplaceChar(ReplaceChar(v, '\\', "\\\\"), '"', "\\\"");
    EscapedTwice(v);
  }

  lemma EscapeStep(c: char, v: string)
    ensures EscapeEach([c] + v) == (if c == '\\' || c == '"' then ['\\', c] else [c]) + EscapeEach(v)
    ensures EscapeEach("") == ""
  {
    assert ([c] + v)[1..] == v;
  }

  lemma ReadStep(c: char, rest: string)
    ensures c != '"' && c != '\\' ==> ReadValue([c] + rest) == Quoted([c] + ReadValue(rest).value, ReadValue(rest).rest)
    ensures ReadValue(['\\', c] + rest) == Quoted([c] + ReadValue(rest).value, ReadValue(rest).rest)
    ensures ReadValue(['"'] + rest) == Quoted("", rest)
  {
    assert ([c] + rest)[1..] == rest && (['\\', c] + rest)[2..] == rest && (['"'] + rest)[1..] == rest;
  }

  lemma {:induction false} ReadEscaped(v: string, rest: string)
    ensures ReadValue(EscapeEach(v) + "\"" + rest) == Quoted(v, rest)
    decreases |v|
  {
    hide EscapeEach, ReadValue;
    if v == "" {
      EscapeStep('a', "");
      ReadStep('a', rest);
      assert EscapeEach(v) + "\"" + rest == ['"'] + rest;
    } else {
      var c, tail := v[0], EscapeEach(v[1..]) + "\"" + rest;
      ReadEscaped(v[1..], rest);
      EscapeStep(c, v[1..]);
      ReadStep(c, tail);
      assert [c] + v[1..] == v;
      if c == '\\' || c == '"' {
        assert EscapeEach(v) + "\"" + rest == ['\\', c] + tail;
      } else {
        assert EscapeEach(v) + "\"" + rest == [c] + tail;
      }
    }
  }

  lemma IndexAfter(tag: string, rest: string, c: char)
    requires c !in tag
    ensures IndexOf(tag + [c] + rest, c) == |tag|
  {
    hide IndexOf;
    var s := tag + [c] + rest;
    assert s[|tag|] == c;
    assert forall i :: 0 <= i < |tag| ==> s[i] == tag[i];
  }

  lemma ReadOneLabel(tag: string, value: string, rest: string)
    requires '=' !in tag
    ensures ReadLabels(LabelText(tag, value) + rest) ==
            (if rest != "" && rest[0] == ',' then ReadLabels(rest[1..]) else map[])[tag := value]
  {
    hide IndexOf, ReadValue, EscapeLabelValue, EscapeEach;
    EscapeIsEach(value);
    ReadEscaped(value, rest);
    var quoted := EscapeEach(value) + "\"" + rest;
    var s := LabelText(tag, value) + rest;
    assert s == tag + ['='] + ("\"" + quoted);
    IndexAfter(tag, "\"" + quoted, '=');
    assert s[|tag| + 2..] == quoted && s[..|tag|] == tag;
  }

  predicate Readable(s: Series) {
    '{' !in s.name && forall tag :: tag in s.labels ==> '=' !in tag
  }

  lemma {:induction false} ReadPrinted(names: seq<string>, labels: map<string, string>)
    requires names != [] && forall i :: 0 <= i < |names| ==> names[i] in labels && '=' !in names[i]
    ensures ReadLabels(LabelsText(names, labels) + "}") == map tag | tag in names :: labels[tag]
    decreases |names|
  {
    hide ReadLabels, LabelText, LabelsText;
    LabelsStep(names, 0, labels);
    LabelsEnd(labels);
    assert names[0..] == names;
    var first, tail := names[0], names[1..];
    assert names == [first] + tail;
    var rest := (if tail == [] then "" else ",") + LabelsText(tail, labels) + "}";
    assert LabelsText(names, labels) + "}" == LabelText(first, labels[first]) + rest;
    ReadOneLabel(first, labels[first], rest);
    if tail != [] {
      ReadPrinted(tail, labels);
      assert rest[1..] == LabelsText(tail, labels) + "}";
    }
  }

  /** A key can be read back, whatever the label values. */
  lemma KeyReadBack(s: Series)
    requires Readable(s)
    ensures ReadKey(KeyOf(s)) == s
  {
    hide IndexOf, ReadLabels, LabelsText, SortedNames;
    var key := KeyOf(s);
    if s.labels == map[] {
      assert IndexOf(key, '{') == |key|;
    } else {
      var names := SortedNames(s.labels.Keys);
      var rest := LabelsText(names, s.labels) + "}";
      assert key == s.name + ['{'] + rest;
      IndexAfter(s.name, rest, '{');
      assert key[|s.name| + 1..] == rest && key[..|s.name|] == s.name;
      assert names != [] by { assert s.labels.Keys != {}; }
      ReadPrinted(names, s.labels);
      assert (map tag | tag in names :: s.labels[tag]) == s.labels;
    }
  }

  /** Two series share a key exactly when they are the same series. */
  lemma KeysAreInjective(a: Series, b: Series)
    requires Readable(a) && Readable(b)
    ensures KeyOf(a) == KeyOf(b) <==> a == b
  {
    hide KeyOf, ReadKey;
    KeyReadBack(a);
    KeyReadBack(b);
  }

  // ----- Neither condition can be dropped

  lemma OneName(tag: string, labels: map<string, string>)
    requires labels.Keys == {tag}
    ensures SortedNames(labels.Keys) == [tag]
  {
    hide SortedNames;
    SortedNamesUnique(labels.Keys, [tag]);
    assert SortBy(StringLess, [tag]) == [tag] by { assert [tag][1..] == []; }
  }

  lemma OneLabelKey(name: string, tag: string, value: string)
    ensures KeyOf(Series(name, map[tag := value])) == name + "{" + LabelText(tag, value) + "}"
  {
    hide SortedNames, LabelText;
    var labels := map[tag := value];
    OneName(tag, labels);
    assert [tag][1..] == [];
    assert LabelText(tag, value) + "" == LabelText(tag, value);
  }

  /** A name with an opening brace can be the key of another series. */
  lemma BraceInNameCollides(name: string, tag: string, value: string)
    ensures var a := Series(name, map[tag := value]);
            var b := Series(name + "{" + LabelText(tag, value) + "}", map[]);
            a != b && KeyOf(a) == KeyOf(b)
  {
    hide LabelText;
    OneLabelKey(name, tag, value);
    assert tag in map[tag := value];
  }

  /** A label name with an equals sign can stand for two labels. */
  lemma EqualsInLabelCollides(name: string, first: string, second: string, v: string, w: string)
    requires StringLess(first, second)
    ensures var a := Series(name, map[first := v, second := w]);
            var b := Series(name, map[LabelText(first, v) + "," + second := w]);
            a != b && KeyOf(a) == KeyOf(b)
  {
    hide LabelText, SortedNames, LabelsText, StringLess;
    var labels := map[first := v, second := w];
    var odd := LabelText(first, v) + "," + second;
    OneLabelKey(name, odd, w);
    StringLessStrict(first, second);
    TwoNames(first, second, labels);
    LabelsStep([first, second], 0, labels);
    LabelsStep([first, second], 1, labels);
    LabelsEnd(labels);
    assert [first, second][0..] == [first, second] && [first, second][1..] == [second] && [first, second][2..] == [];
    LabelTextIs(odd, w);
    LabelTextIs(second, w);
    assert LabelsText(SortedNames(labels.Keys), labels) == LabelText(odd, w) by {
      assert LabelText(first, v) + "," + (LabelText(second, w) + "" + "") == LabelText(odd, w);
    }
    DifferentSize(first, second, v, w, odd);
  }

  lemma DifferentSize(first: string, second: string, v: string, w: string, odd: string)
    requires first != second
    ensures map[first := v, second := w] != map[odd := w]
  {
    assert |map[first := v, second := w].Keys| == 2 by { assert map[first := v, second := w].Keys == {first, second}; }
    assert |map[odd := w].Keys| == 1 by { assert map[odd := w].Keys == {odd}; }
  }

  lemma TwoNames(first: string, second: string, labels: map<string, string>)
    requires labels.Keys == {first, second} && StringLess(first, second) && first != second
    ensures SortedNames(labels.Keys) == [first, second]
  {
    hide SortedNames, StringLess;
    var r := [first, second];
    SortedNamesUnique(labels.Keys, r);
    StringLessStrict(first, second);
    StringsTotal(r);
    SortAscends(StringLess, r, r);
    AscendingUnique(StringLess, r, SortBy(StringLess, r));
  }

  // ----- The metrics kept under these keys

  datatype Metrics<!K> = Metrics(counters: map<K, real>, gauges: map<K, real>, observations: map<K, seq<real>>)

  datatype Op = AddTo(delta: real) | SetTo(value: real) | Append(value: real)

  /** One recording at a key; a key that is not there counts as zero or as an empty list. */
  function Record<K>(m: Metrics<K>, k: K, op: Op): Metrics<K> {
    match op
    case AddTo(delta) => m.(counters := m.counters[k := (if k in m.counters then m.counters[k] else 0.0) + delta])
    case SetTo(value) => m.(gauges := m.gauges[k := value])
    case Append(value) => m.(observations := m.observations[k := (if k in m.observations then m.observations[k] else []) + [value]])
  }

  datatype Call = Call(series: Series, op: Op)

  /** What the calls leave under printed keys. */
  ghost function Keyed(calls: seq<Call>): Metrics<string> {
    if calls == [] then Metrics(map[], map[], map[])
    else
      var last := calls[|calls| - 1];
      Record(Keyed(calls[..|calls| - 1]), KeyOf(last.series), last.op)
  }

  /** What the calls mean: one entry for each name and label map. */
  ghost function Meant(calls: seq<Call>): Metrics<Series> {
    if calls == [] then Metrics(map[], map[], map[])
    else
      var last := calls[|calls| - 1];
      Record(Meant(calls[..|calls| - 1]), last.series, last.op)
  }

  ghost predicate SameEntry<V(!new)>(k: map<string, V>, m: map<Series, V>, s: Series) {
    var key := KeyOf(s);
    (key in k <==> s in m) && (s in m ==> k[key] == m[s])
  }

  ghost predicate SameAt(k: Metrics<string>, m: Metrics<Series>, s: Series) {
    SameEntry(k.counters, m.counters, s) && SameEntry(k.gauges, m.gauges, s) && SameEntry(k.observations, m.observations, s)
  }

  ghost predicate ReadableCalls(calls: seq<Call>) {
    forall i :: 0 <= i < |calls| ==> Readable(calls[i].series)
  }

  lemma UpdateKeeps<V(!new)>(k: map<string, V>, m: map<Series, V>, at: Series, value: V, s: Series)
    requires Readable(at) && Readable(s) && SameEntry(k, m, s)
    ensures SameEntry(k[KeyOf(at) := value], m[at := value], s)
  {
    hide KeyOf, Readable;
    KeysAreInjective(at, s);
  }

  lemma RecordKeeps(k: Metrics<string>, m: Metrics<Series>, call: Call, s: Series)
    requires Readable(call.series) && Readable(s) && SameAt(k, m, call.series) && SameAt(k, m, s)
    ensures SameAt(Record(k, KeyOf(call.series), call.op), Record(m, call.series, call.op), s)
  {
    hide KeyOf, Readable;
    var at := call.series;
    match call.op
    case AddTo(delta) =>
      UpdateKeeps(k.counters, m.counters, at, (if at in m.counters then m.counters[at] else 0.0) + delta, s);
    case SetTo(value) => UpdateKeeps(k.gauges, m.gauges, at, value, s);
    case Append(value) =>
      UpdateKeeps(k.observations, m.observations, at, (if at in m.observations then m.observations[at] else []) + [value], s);
  }

  /** After any calls, the value under the key of a series is the value of that series: no two series
      are ever mixed up and none is split. */
  lemma {:induction false} MetricsMean(calls: seq<Call>, s: Series)
    requires ReadableCalls(calls) && Readable(s)
    ensures SameAt(Keyed(calls), Meant(calls), s)
    decreases |calls|
  {
    hide KeyOf, Readable, Record;
    if calls != [] {
      var before, last := calls[..|calls| - 1], calls[|calls| - 1];
      MetricsMean(before, s);
      MetricsMean(before, last.series);
      RecordKeeps(Keyed(before), Meant(before), last, s);
    }
  }

  // ----- What the calls mean, series by series

  function Added(calls: seq<Call>, s: Series): real {
    if calls == [] then 0.0
    else
      var last := calls[|calls| - 1];
      Added(calls[..|calls| - 1], s) + if last.series == s && last.op.AddTo? then last.op.delta else 0.0
  }

  function Appended(calls: seq<Call>, s: Series): seq<real> {
    if calls == [] then []
    else
      var last := calls[|calls| - 1];
      Appended(calls[..|calls| - 1], s) + if last.series == s && last.op.Append? then [last.op.value] else []
  }

  /** The last call that set the gauge of the series. */
  predicate LastSet(calls: seq<Call>, s: Series, value: real) {
    exists i :: 0 <= i < |calls| && calls[i] == Call(s, SetTo(value))
                && forall j :: i < j < |calls| ==> !(calls[j].series == s && calls[j].op.SetTo?)
  }

  predicate AnyAdd(calls: seq<Call>, s: Series) {
    exists i :: 0 <= i < |calls| && calls[i].series == s && calls[i].op.AddTo?
  }

  predicate AnyAppend(calls: seq<Call>, s: Series) {
    exists i :: 0 <= i < |calls| && calls[i].series == s && calls[i].op.Append?
  }

  predicate AnySet(calls: seq<Call>, s: Series) {
    exists i :: 0 <= i < |calls| && calls[i].series == s && calls[i].op.SetTo?
  }

  lemma AnySnoc(calls: seq<Call>, last: Call, s: Series)
    ensures AnyAdd(calls + [last], s) <==> AnyAdd(calls, s) || (last.series == s && last.op.AddTo?)
    ensures AnyAppend(calls + [last], s) <==> AnyAppend(calls, s) || (last.series == s && last.op.Append?)
    ensures AnySet(calls + [last], s) <==> AnySet(calls, s) || (last.series == s && last.op.SetTo?)
  {
    var all := calls + [last];
    assert all[|calls|] == last && forall i :: 0 <= i < |calls| ==> all[i] == calls[i];
  }

  lemma LastSetSnoc(calls: seq<Call>, last: Call, s: Series, value: real)
    requires if last.series == s && last.op.SetTo? then value == last.op.value else LastSet(calls, s, value)
    ensures LastSet(calls + [last], s, value)
  {
    var all := calls + [last];
    assert all[|calls|] == last && forall i :: 0 <= i < |calls| ==> all[i] == calls[i];
    if !(last.series == s && last.op.SetTo?) {
      var i :| 0 <= i < |calls| && calls[i] == Call(s, SetTo(value))
               && forall j :: i < j < |calls| ==> !(calls[j].series == s && calls[j].op.SetTo?);
      assert all[i] == Call(s, SetTo(value));
    }
  }

  /** A counter is the sum of what was added to it, a gauge what it was set to last, and a series of observations
      all values in order; each is there exactly when there was such a call. */
  lemma {:induction false} MeantExactly(calls: seq<Call>, s: Series)
    ensures var m := Meant(calls);
            && (s in m.counters <==> AnyAdd(calls, s))
            && (s in m.gauges <==> AnySet(calls, s))
            && (s in m.observations <==> AnyAppend(calls, s))
            && Added(calls, s) == (if s in m.counters then m.counters[s] else 0.0)
            && (s in m.gauges ==> LastSet(calls, s, m.gauges[s]))
            && Appended(calls, s) == (if s in m.observations then m.observations[s] else [])
    decreases |calls|
  {
    hide AnyAdd, AnySet, AnyAppend, LastSet, Meant, Added, Appended;
    MeantStep([], Call(s, AddTo(0.0)), s);
    if calls == [] {
      NoCalls(s);
    } else {
      var n := |calls| - 1;
      var before, last := calls[..n], calls[n];
      MeantExactly(before, s);
      AnySnoc(before, last, s);
      assert calls == before + [last];
      MeantStep(before, last, s);
      if s in Meant(calls).gauges { LastSetSnoc(before, last, s, Meant(calls).gauges[s]); }
    }
  }

  lemma MeantStep(calls: seq<Call>, last: Call, s: Series)
    ensures Meant([]) == Metrics(map[], map[], map[]) && Added([], s) == 0.0 && Appended([], s) == []
    ensures Meant(calls + [last]) == Record(Meant(calls), last.series, last.op)
    ensures Added(calls + [last], s) == Added(calls, s) + if last.series == s && last.op.AddTo? then last.op.delta else 0.0
    ensures Appended(calls + [last], s) == Appended(calls, s) + if last.series == s && last.op.Append? then [last.op.value] else []
  {
    assert (calls + [last])[..|calls|] == calls;
  }

  lemma NoCalls(s: Series)
    ensures !AnyAdd([], s) && !AnySet([], s) && !AnyAppend([], s)
  {
  }

  /** Keys without labels, with one label, and with two in the order of their names. */
  lemma KeyShapes(name: string, k: string, v: string, l: string, w: string)
    requires StringLess(k, l)
    ensures KeyOf(Series(name, map[])) == name
    ensures KeyOf(Series(name, map[k := v])) == name + "{" + k + "=\"" + EscapeLabelValue(v) + "\"" + "}"
    ensures KeyOf(Series(name, map[k := v, l := w])) ==
            name + "{" + (k + "=\"" + EscapeLabelValue(v) + "\"" + "," + (l + "=\"" + EscapeLabelValue(w) + "\"")) + "}"
  {
    hide SortedNames, LabelsText, StringLess, EscapeLabelValue, LabelText;
    var labels := map[k := v, l := w];
    OneLabelKey(name, k, v);
    LabelTextIs(k, v);
    LabelTextIs(l, w);
    StringLessStrict(k, l);
    TwoNames(k, l, labels);
    LabelsStep([k, l], 0, labels);
    LabelsStep([k, l], 1, labels);
    LabelsEnd(labels);
    assert [k, l][0..] == [k, l] && [k, l][1..] == [l] && [k, l][2..] == [];
    assert LabelsText(SortedNames(labels.Keys), labels) == LabelText(k, v) + "," + LabelText(l, w) by {
      assert LabelText(l, w) + "" + "" == LabelText(l, w);
    }
  }

  class MemoryMetrics {
    var counters: map<string, real>
    var gauges: map<string, real>
    var observations: map<string, seq<real>>
    ghost var calls: seq<Call>

    function State(): Metrics<string>
      reads this
    {
      Metrics(counters, gauges, observations)
    }

    ghost predicate Valid()
      reads this
    {
      State() == Keyed(calls)
    }

    constructor ()
      ensures Valid() && calls == []
    {
      counters, gauges, observations, calls := map[], map[], map[], [];
    }

    method IncCounter(name: string, labels: map<string, string>)
      requires Valid()
      modifies this
      ensures Valid() && calls == old(calls) + [Call(Series(name, labels), AddTo(1.0))]
    {
      AddCounter(name, 1.0, labels);
    }

    method AddCounter(name: string, delta: real, labels: map<string, string>)
      requires Valid()
      modifies this
      ensures Valid() && calls == old(calls) + [Call(Series(name, labels), AddTo(delta))]
    {
      hide KeyOf;
      var key := MetricKey(name, labels);
      counters := counters[key := (if key in counters then counters[key] else 0.0) + delta];
      calls := calls + [Call(Series(name, labels), AddTo(delta))];
      assert calls[..|calls| - 1] == old(calls);
    }

    method SetGauge(name: string, value: real, labels: map<string, string>)
      requires Valid()
      modifies this
      ensures Valid() && calls == old(calls) + [Call(Series(name, labels), SetTo(value))]
    {
      hide KeyOf;
      var key := MetricKey(name, labels);
      gauges := gauges[key := value];
      calls := calls + [Call(Series(name, labels), SetTo(value))];
      assert calls[..|calls| - 1] == old(calls);
    }

    method Observe(name: string, value: real, labels: map<string, string>)
      requires Valid()
      modifies this
      ensures Valid() && calls == old(calls) + [Call(Series(name, labels), Append(value))]
    {
      hide KeyOf;
      var key := MetricKey(name, labels);
      observations := observations[key := (if key in observations then observations[key] else []) + [value]];
      calls := calls + [Call(Series(name, labels), Append(value))];
      assert calls[..|calls| - 1] == old(calls);
    }

    /** A copy, whose entry for a series is what its calls mean. */
    method Snapshot() returns (m: Metrics<string>)
      requires Valid()
      ensures m == Keyed(calls)
      ensures ReadableCalls(calls) ==> forall s :: Readable(s) ==> SameAt(m, Meant(calls), s)
    {
      hide Keyed, Meant, SameAt, Readable;
      m := State();
      if ReadableCalls(calls) {
        forall s | Readable(s) ensures SameAt(m, Meant(calls), s) { MetricsMean(calls, s); }
      }
    }
  }
}
