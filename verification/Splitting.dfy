/** strings.Split, strings.Join and strings.ReplaceAll of Go, which JavaScript's split and join agree with. */
module Splitting {
  import opened Text

  /** Split at the leftmost occurrences of a separator that do not overlap. */
  function Split(s: string, sep: string): (parts: seq<string>)
    requires sep != ""
    ensures parts != []
    decreases |s|
  {
    if sep <= s then [""] + Split(s[|sep|..], sep)
    else if s == "" then [""]
    else var rest := Split(s[1..], sep); [[s[0]] + rest[0]] + rest[1..]
  }

  function JoinWith(parts: seq<string>, sep: string): string {
    if parts == [] then "" else if |parts| == 1 then parts[0] else parts[0] + sep + JoinWith(parts[1..], sep)
  }

  function ReplaceAll(s: string, from: string, to: string): string
    requires from != ""
  {
    JoinWith(Split(s, from), to)
  }

  lemma SplitStep(s: string, sep: string)
    requires sep != ""
    ensures sep <= s ==> Split(s, sep) == [""] + Split(s[|sep|..], sep)
    ensures !(sep <= s) && s != "" ==>
              var rest := Split(s[1..], sep); Split(s, sep) == [[s[0]] + rest[0]] + rest[1..]
    ensures Split("", sep) == [""]
  {
  }

  lemma JoinStep(part: string, parts: seq<string>, sep: string)
    ensures JoinWith([part] + parts, sep) == if parts == [] then part else part + sep + JoinWith(parts, sep)
  {
    assert ([part] + parts)[1..] == parts;
  }

  lemma {:induction false} ShortSplit(s: string, sep: string)
    requires |s| < |sep|
    ensures Split(s, sep) == [s]
    decreases |s|
  {
    hide Split;
    SplitStep(s, sep);
    if s != "" {
      ShortSplit(s[1..], sep);
      assert [s[0]] + s[1..] == s;
    }
  }

  /** Splitting a text piecewise: the last part of the first piece is carried over. */
  lemma {:induction false} SplitAppend(a: string, b: string, sep: string)
    requires sep != ""
    ensures var parts := Split(a, sep);
            var k := |parts| - 1;
            Split(a + b, sep) == parts[..k] + Split(parts[k] + b, sep)
    decreases |a|
  {
    hide Split;
    if |a| < |sep| {
      ShortSplit(a, sep);
      assert [a][..0] == [] && [] + Split(a + b, sep) == Split(a + b, sep);
    } else if sep <= a {
      var rest := a[|sep|..];
      SplitAppend(rest, b, sep);
      SplitStep(a, sep);
      SplitStep(a + b, sep);
      assert (a + b)[|sep|..] == rest + b;
      var parts := Split(rest, sep);
      var k := |parts| - 1;
      assert ([""] + parts)[..k + 1] == [""] + parts[..k];
      assert [""] + (parts[..k] + Split(parts[k] + b, sep)) == ([""] + parts[..k]) + Split(parts[k] + b, sep);
    } else {
      SplitAppend(a[1..], b, sep);
      SplitStep(a, sep);
      NotPrefix(a, b, sep);
      SplitStep(a + b, sep);
      assert (a + b)[1..] == a[1..] + b;
      SplitAppendChar(a, b, sep);
    }
  }

  lemma NotPrefix(a: string, b: string, sep: string)
    requires |sep| <= |a| && !(sep <= a)
    ensures !(sep <= a + b)
  {
    assert (a + b)[..|sep|] == a[..|sep|];
  }

  lemma SplitAppendChar(a: string, b: string, sep: string)
    requires 0 < |sep| <= |a| && !(sep <= a) && !(sep <= a + b)
    requires var rest := Split(a[1..], sep);
             var k := |rest| - 1;
             Split(a[1..] + b, sep) == rest[..k] + Split(rest[k] + b, sep)
    ensures var parts := Split(a, sep);
            var k := |parts| - 1;
            Split(a + b, sep) == parts[..k] + Split(parts[k] + b, sep)
  {
    hide Split;
    var rest := Split(a[1..], sep);
    var k := |rest| - 1;
    SplitStep(a, sep);
    SplitStep(a + b, sep);
    assert (a + b)[1..] == a[1..] + b;
    var parts := Split(a, sep);
    if k == 0 {
      SplitOne(a[1..], sep);
      assert [a[0]] + a[1..] == a;
      assert parts == [a] && rest[..0] == [];
    } else {
      var whole := rest[..k] + Split(rest[k] + b, sep);
      assert parts[k] == rest[k];
      assert [[a[0]] + whole[0]] + whole[1..] == parts[..k] + Split(rest[k] + b, sep);
    }
  }

  lemma {:induction false} SplitOne(s: string, sep: string)
    requires sep != "" && |Split(s, sep)| == 1
    ensures Split(s, sep) == [s]
    decreases |s|
  {
    hide Split;
    SplitStep(s, sep);
    if s != "" && !(sep <= s) {
      SplitOne(s[1..], sep);
      assert [s[0]] + s[1..] == s;
    }
  }

  /** No occurrence of the separator before the one at the end. */
  predicate FirstAtEnd(p: string, sep: string) {
    forall i :: 0 <= i < |p| ==> !(sep <= (p + sep)[i..])
  }

  /** A part, then its separator, then the rest. */
  lemma {:induction false} SplitFirst(p: string, sep: string, rest: string)
    requires sep != "" && FirstAtEnd(p, sep)
    ensures Split(p + sep + rest, sep) == [p] + Split(rest, sep)
    decreases |p|
  {
    hide Split;
    var s := p + sep + rest;
    SplitStep(s, sep);
    if p == "" {
      assert s[|sep|..] == rest;
    } else {
      var q := p[1..];
      assert s[1..] == q + sep + rest;
      forall i | 0 <= i < |q| ensures !(sep <= (q + sep)[i..]) {
        assert (q + sep)[i..] == (p + sep)[i + 1..];
      }
      SplitFirst(q, sep, rest);
      assert (p + sep)[0..] == p + sep;
      NotPrefix(p + sep, rest, sep);
      assert [p[0]] + q == p;
      assert ([q] + Split(rest, sep))[1..] == Split(rest, sep);
    }
  }

  /** Joining undoes splitting, whatever the separator. */
  lemma {:induction false} JoinSplit(s: string, sep: string)
    requires sep != ""
    ensures JoinWith(Split(s, sep), sep) == s
    decreases |s|
  {
    hide Split, JoinWith;
    SplitStep(s, sep);
    JoinStep("", [], sep);
    assert [""] + [] == [""];
    if sep <= s {
      JoinSplit(s[|sep|..], sep);
      JoinStep("", Split(s[|sep|..], sep), sep);
      assert "" + sep + s[|sep|..] == s;
    } else if s != "" {
      var rest := Split(s[1..], sep);
      JoinSplit(s[1..], sep);
      JoinStep([s[0]] + rest[0], rest[1..], sep);
      JoinStep(rest[0], rest[1..], sep);
      assert [rest[0]] + rest[1..] == rest;
      assert [s[0]] + s[1..] == s;
      if rest[1..] != [] {
        assert [s[0]] + rest[0] + sep + JoinWith(rest[1..], sep) == [s[0]] + (rest[0] + sep + JoinWith(rest[1..], sep));
      }
    }
  }

  predicate OneLine(s: string) {
    '\n' !in s
  }

  /** The parts of a text split at line feeds are lines. */
  lemma {:induction false} SplitLines(s: string)
    ensures forall i :: 0 <= i < |Split(s, "\n")| ==> OneLine(Split(s, "\n")[i])
    decreases |s|
  {
    hide Split;
    SplitStep(s, "\n");
    if "\n" <= s {
      SplitLines(s[1..]);
    } else if s != "" {
      SplitLines(s[1..]);
      assert s[0] != '\n' by { assert s[..1] == [s[0]]; }
    }
  }

  lemma LineFirst(line: string)
    requires OneLine(line)
    ensures FirstAtEnd(line, "\n")
  {
    forall i | 0 <= i < |line| ensures !("\n" <= (line + "\n")[i..]) {
      assert (line + "\n")[i..][0] == line[i];
    }
  }

  /** Splitting undoes joining, for lines. */
  lemma {:induction false} SplitJoin(lines: seq<string>)
    requires lines != [] && forall i :: 0 <= i < |lines| ==> OneLine(lines[i])
    ensures Split(JoinWith(lines, "\n"), "\n") == lines
    decreases |lines|
  {
    hide Split, JoinWith;
    var first, rest := lines[0], lines[1..];
    assert lines == [first] + rest;
    JoinStep(first, rest, "\n");
    if rest == [] {
      LineAlone(first);
    } else {
      SplitJoin(rest);
      LineFirst(first);
      SplitFirst(first, "\n", JoinWith(rest, "\n"));
    }
  }

  lemma {:induction false} LineAlone(line: string)
    requires OneLine(line)
    ensures Split(line, "\n") == [line]
  {
    hide Split;
    SplitStep(line, "\n");
    if line != "" {
      LineAlone(line[1..]);
      assert [line[0]] + line[1..] == line;
    }
  }

  lemma {:induction false} FirstPartIsPrefix(s: string, sep: string)
    requires sep != ""
    ensures Split(s, sep)[0] <= s
    decreases |s|
  {
    hide Split;
    SplitStep(s, sep);
    if s != "" && !(sep <= s) {
      FirstPartIsPrefix(s[1..], sep);
      assert s == [s[0]] + s[1..];
    }
  }

  /** No part contains the separator. */
  lemma {:induction false} PartsHaveNoSeparator(s: string, sep: string)
    requires sep != ""
    ensures forall i :: 0 <= i < |Split(s, sep)| ==> !Contains(Split(s, sep)[i], sep)
    decreases |s|
  {
    hide Split, Contains;
    SplitStep(s, sep);
    EmptyHasNo(sep);
    if sep <= s {
      PartsHaveNoSeparator(s[|sep|..], sep);
    } else if s != "" {
      var rest := Split(s[1..], sep);
      PartsHaveNoSeparator(s[1..], sep);
      FirstPartIsPrefix(s[1..], sep);
      ConsHasNo(s[0], rest[0], s, sep);
    }
  }

  lemma EmptyHasNo(sep: string)
    requires sep != ""
    ensures !Contains("", sep)
  {
  }

  lemma ConsHasNo(c: char, p: string, s: string, sep: string)
    requires sep != "" && !Contains(p, sep) && [c] + p <= s && !(sep <= s)
    ensures !Contains([c] + p, sep)
  {
    var t := [c] + p;
    forall i | 0 <= i <= |t| - |sep| ensures !OccursAt(t, sep, i) {
      if i == 0 {
        assert t[..|sep|] == s[..|sep|];
      } else {
        assert t[i..i + |sep|] == p[i - 1..i - 1 + |sep|];
        assert !OccursAt(p, sep, i - 1);
      }
    }
  }

  lemma {:induction false} NoSeparatorSplit(s: string, sep: string)
    requires sep != "" && !Contains(s, sep)
    ensures Split(s, sep) == [s]
    decreases |s|
  {
    hide Split;
    SplitStep(s, sep);
    if s != "" {
      assert !(sep <= s) by { assert sep <= s ==> OccursAt(s, sep, 0); }
      forall i | 0 <= i <= |s| - 1 - |sep| ensures !OccursAt(s[1..], sep, i) {
        assert s[1..][i..i + |sep|] == s[i + 1..i + 1 + |sep|];
        assert !OccursAt(s, sep, i + 1);
      }
      NoSeparatorSplit(s[1..], sep);
      assert s == [s[0]] + s[1..];
    }
  }

  // ----- Replacing one character

  function ReplaceChar(s: string, c: char, to: string): string {
    if s == "" then "" else (if s[0] == c then to else [s[0]]) + ReplaceChar(s[1..], c, to)
  }

  lemma ReplaceCharStep(first: char, s: string, c: char, to: string)
    ensures ReplaceChar([first] + s, c, to) == (if first == c then to else [first]) + ReplaceChar(s, c, to)
    ensures ReplaceChar("", c, to) == ""
  {
    assert ([first] + s)[1..] == s;
  }

  lemma {:induction false} ReplaceAllIsReplaceChar(s: string, c: char, to: string)
    ensures ReplaceAll(s, [c], to) == ReplaceChar(s, c, to)
  {
    hide Split, JoinWith, ReplaceChar;
    SplitStep(s, [c]);
    JoinStep("", [], to);
    assert [""] + [] == [""];
    if s == "" {
      ReplaceCharStep(c, "", c, to);
    } else {
      var rest := Split(s[1..], [c]);
      assert s == [s[0]] + s[1..];
      ReplaceAllIsReplaceChar(s[1..], c, to);
      ReplaceCharStep(s[0], s[1..], c, to);
      if s[0] == c {
        assert [c] <= s;
        JoinStep("", rest, to);
        assert "" + to + JoinWith(rest, to) == to + JoinWith(rest, to);
      } else {
        assert !([c] <= s) by { assert s[..1] == [s[0]]; }
        JoinFirst([s[0]], rest, to);
      }
    }
  }

  lemma JoinFirst(first: string, parts: seq<string>, sep: string)
    requires parts != []
    ensures JoinWith([first + parts[0]] + parts[1..], sep) == first + JoinWith(parts, sep)
  {
    hide JoinWith;
    JoinStep(first + parts[0], parts[1..], sep);
    JoinStep(parts[0], parts[1..], sep);
    assert [parts[0]] + parts[1..] == parts;
    if parts[1..] != [] {
      assert first + parts[0] + sep + JoinWith(parts[1..], sep) == first + (parts[0] + sep + JoinWith(parts[1..], sep));
    }
  }
}
