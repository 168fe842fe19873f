/** Text operations the repository takes from Go's strings package and from JavaScript.
    A string is a sequence of characters; Go code that counts bytes is read with one
    character per byte. White space and case folding are the ASCII ones. */
module Text {

  datatype Option<+T> = None | Some(value: T)

  /** By code: tab, line feed, vertical tab, form feed, carriage return and the space. */
  predicate IsSpace(c: char) {
    c == ' ' || '\t' <= c <= '\r'
  }

  /** The characters by their codes; only the codes 65 to 90 change in lower case, each by 32. */
  lemma CharacterCodes(c: char)
    ensures IsSpace(c) <==> c as int in {9, 10, 11, 12, 13, 32}
    ensures LowerChar(c) as int - c as int == if 65 <= c as int <= 90 then 32 else 0
  {
  }

  predicate Blank(s: string) {
    forall i :: 0 <= i < |s| ==> IsSpace(s[i])
  }

  function LowerChar(c: char): char {
    if 'A' <= c <= 'Z' then c - 'A' + 'a' else c
  }

  function Lower(s: string): (r: string)
    ensures |r| == |s|
    ensures forall i :: 0 <= i < |s| ==> r[i] == LowerChar(s[i])
  {
    if s == "" then "" else [LowerChar(s[0])] + Lower(s[1..])
  }

  function TrimLeft(s: string): (r: string)
    ensures |r| <= |s| && r == s[|s| - |r|..]
    ensures r != "" ==> !IsSpace(r[0])
    ensures Blank(s[..|s| - |r|])
  {
    if s != "" && IsSpace(s[0]) then
      var r := TrimLeft(s[1..]);
      assert s[..|s| - |r|] == [s[0]] + s[1..][..|s| - 1 - |r|];
      r
    else s
  }

  function TrimRight(s: string): (r: string)
    ensures |r| <= |s| && r == s[..|r|]
    ensures r != "" ==> !IsSpace(r[|r| - 1])
    ensures Blank(s[|r|..])
  {
    if s != "" && IsSpace(s[|s| - 1]) then
      var r := TrimRight(s[..|s| - 1]);
      assert s[|r|..] == s[..|s| - 1][|r|..] + [s[|s| - 1]];
      r
    else s
  }

  function Trim(s: string): string {
    TrimRight(TrimLeft(s))
  }

  lemma TrimTwice(s: string)
    ensures Trim(Trim(s)) == Trim(s)
  {
    hide IsSpace;
    var l := TrimLeft(s);
    var t := TrimRight(l);
    assert t != "" ==> t[0] == l[0];
    assert TrimLeft(t) == t && TrimRight(t) == t;
  }

  predicate OccursAt(s: string, sub: string, i: int) {
    0 <= i <= |s| - |sub| && s[i..i + |sub|] == sub
  }

  /** strings.Contains */
  predicate Contains(s: string, sub: string) {
    exists i :: 0 <= i <= |s| - |sub| && OccursAt(s, sub, i)
  }

  /** Length of the first run of characters that are not white space. */
  function WordLength(s: string): (n: nat)
    ensures n <= |s|
    ensures forall i :: 0 <= i < n ==> !IsSpace(s[i])
    ensures n < |s| ==> IsSpace(s[n])
  {
    if s == "" || IsSpace(s[0]) then 0 else 1 + WordLength(s[1..])
  }

  /** strings.Fields: the maximal runs of characters that are not white space. */
  function Fields(s: string): seq<string>
    decreases |s|
  {
    var t := TrimLeft(s);
    if t == "" then [] else [t[..WordLength(t)]] + Fields(t[WordLength(t)..])
  }

  function Concat(parts: seq<string>): string {
    if parts == [] then "" else parts[0] + Concat(parts[1..])
  }

  lemma {:induction false} ConcatAppend(a: seq<string>, b: seq<string>)
    ensures Concat(a + b) == Concat(a) + Concat(b)
  {
    if a == [] {
      assert a + b == b;
    } else {
      ConcatAppend(a[1..], b);
      assert (a + b)[1..] == a[1..] + b && (a + b)[0] == a[0];
      assert a[0] + (Concat(a[1..]) + Concat(b)) == (a[0] + Concat(a[1..])) + Concat(b);
    }
  }

  lemma ConcatSnoc(a: seq<string>, s: string)
    ensures Concat(a + [s]) == Concat(a) + s
  {
    ConcatAppend(a, [s]);
    assert [s][1..] == [];
    assert s + "" == s;
  }

  lemma NotBlank(s: string, k: nat)
    requires k < |s| && !IsSpace(s[k])
    ensures !Blank(s)
  {
  }

  lemma TrimOfBlank(s: string)
    ensures Trim(s) == "" <==> Blank(s)
  {
  }

  function StripSpace(s: string): string {
    if s == "" then "" else (if IsSpace(s[0]) then "" else [s[0]]) + StripSpace(s[1..])
  }

  lemma StripStep(c: char, s: string)
    ensures StripSpace([c] + s) == if IsSpace(c) then StripSpace(s) else [c] + StripSpace(s)
    ensures StripSpace("") == ""
  {
    assert ([c] + s)[1..] == s;
    assert "" + StripSpace(s) == StripSpace(s);
  }

  lemma {:induction false} StripAppend(a: string, b: string)
    ensures StripSpace(a + b) == StripSpace(a) + StripSpace(b)
  {
    hide IsSpace, StripSpace;
    if a == "" {
      assert a + b == b;
      StripStep('a', "");
    } else {
      StripAppend(a[1..], b);
      StripStep(a[0], a[1..]);
      StripStep(a[0], a[1..] + b);
      assert a == [a[0]] + a[1..] && a + b == [a[0]] + (a[1..] + b);
      assert [a[0]] + (StripSpace(a[1..]) + StripSpace(b)) == ([a[0]] + StripSpace(a[1..])) + StripSpace(b);
    }
  }

  lemma {:induction false} StripBlank(s: string)
    ensures StripSpace(s) == "" <==> Blank(s)
  {
    hide IsSpace, StripSpace;
    if s == "" {
      StripStep('a', "");
    } else {
      StripBlank(s[1..]);
      StripStep(s[0], s[1..]);
      assert s == [s[0]] + s[1..];
      assert Blank(s) <==> IsSpace(s[0]) && Blank(s[1..]) by {
        assert forall i :: 0 < i < |s| ==> s[i] == s[1..][i - 1];
      }
    }
  }

  lemma OccursIn(s: string, w: string, i: int)
    requires OccursAt(s, w, i)
    ensures Contains(s, w)
  {
  }

  lemma OccurrenceChars(s: string, w: string, i: int, k: int)
    requires OccursAt(s, w, i) && 0 <= k < |s|
    ensures i <= k < i + |w| ==> s[k] == w[k - i]
  {
    if i <= k < i + |w| { assert s[i..i + |w|][k - i] == s[k]; }
  }

  lemma ContainsWider(a: string, s: string, b: string, w: string)
    requires Contains(s, w)
    ensures Contains(a + s + b, w)
  {
    var i :| 0 <= i <= |s| - |w| && OccursAt(s, w, i);
    assert (a + s + b)[|a| + i..|a| + i + |w|] == s[i..i + |w|];
    OccursIn(a + s + b, w, |a| + i);
  }

  lemma ContainsTransitive(a: string, b: string, c: string)
    requires Contains(a, b) && Contains(b, c)
    ensures Contains(a, c)
  {
    var i :| 0 <= i <= |a| - |b| && OccursAt(a, b, i);
    assert a == a[..i] + b + a[i + |b|..];
    ContainsWider(a[..i], b, a[i + |b|..], c);
  }
}
