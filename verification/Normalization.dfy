/** normalizeText of the persona package, and what it means for a claim to occur in a text. */
module Normalization {
  import opened Text
  import opened Splitting

  /** White space runs become one space, the ends are trimmed. */
  function Squash(t: string): string {
    JoinWith(Fields(t), " ")
  }

  function NormalizeText(s: string): string {
    Squash(Lower(Trim(s)))
  }

  // ----- Occurrences and cuts

  /** An occurrence that does not run over the cut lies on one side of it. */
  lemma CutContains(a: string, b: string, w: string)
    requires w != ""
    requires forall i :: 0 <= i <= |a + b| - |w| && OccursAt(a + b, w, i) ==> i + |w| <= |a| || |a| <= i
    ensures Contains(a + b, w) <==> Contains(a, w) || Contains(b, w)
  {
    if Contains(a + b, w) {
      var i :| 0 <= i <= |a + b| - |w| && OccursAt(a + b, w, i);
      if i + |w| <= |a| {
        assert a[i..i + |w|] == (a + b)[i..i + |w|];
        OccursIn(a, w, i);
      } else {
        assert b[i - |a|..i - |a| + |w|] == (a + b)[i..i + |w|];
        OccursIn(b, w, i - |a|);
      }
    }
    if Contains(a, w) { ContainsWider("", a, b, w); assert "" + a + b == a + b; }
    if Contains(b, w) { ContainsWider(a, b, "", w); assert a + b + "" == a + b; }
  }

  /** No occurrence runs over the end of a text whose last character can only end the word. */
  lemma CutAfter(a: string, b: string, w: string)
    requires w != "" && a != ""
    requires forall i :: 0 <= i < |w| - 1 ==> w[i] != a[|a| - 1]
    ensures Contains(a + b, w) <==> Contains(a, w) || Contains(b, w)
  {
    forall i | 0 <= i <= |a + b| - |w| && OccursAt(a + b, w, i) ensures i + |w| <= |a| || |a| <= i {
      OccurrenceChars(a + b, w, i, |a| - 1);
    }
    CutContains(a, b, w);
  }

  /** No occurrence runs over the start of a text whose first character is not in the word. */
  lemma CutBefore(a: string, b: string, w: string)
    requires w != "" && b != "" && b[0] !in w
    ensures Contains(a + b, w) <==> Contains(a, w) || Contains(b, w)
  {
    forall i | 0 <= i <= |a + b| - |w| && OccursAt(a + b, w, i) ensures i + |w| <= |a| || |a| <= i {
      OccurrenceChars(a + b, w, i, |a|);
    }
    CutContains(a, b, w);
  }

  /** A non-empty word without white space. */
  predicate OneWord(w: string) {
    w != "" && forall i :: 0 <= i < |w| ==> !IsSpace(w[i])
  }

  lemma BlankContainsNoWord(s: string, w: string)
    requires Blank(s) && OneWord(w)
    ensures !Contains(s, w)
  {
    if Contains(s, w) {
      var i :| 0 <= i <= |s| - |w| && OccursAt(s, w, i);
      OccurrenceChars(s, w, i, i);
    }
  }

  lemma BlankPrefix(a: string, b: string, w: string)
    requires Blank(a) && OneWord(w)
    ensures Contains(a + b, w) <==> Contains(b, w)
  {
    BlankContainsNoWord(a, w);
    if a == "" { assert a + b == b; } else { CutAfter(a, b, w); }
  }

  lemma BlankSuffix(a: string, b: string, w: string)
    requires Blank(b) && OneWord(w)
    ensures Contains(a + b, w) <==> Contains(a, w)
  {
    BlankContainsNoWord(b, w);
    if b == "" { assert a + b == a; } else { CutBefore(a, b, w); }
  }

  // ----- Fields, one step at a time

  /** Cutting the first word off a text that starts with one. */
  lemma WordStep(s: string, n: nat)
    requires s != "" && !IsSpace(s[0]) && n == WordLength(s)
    ensures n > 0 && OneWord(s[..n]) && s == s[..n] + s[n..]
    ensures s[n..] != "" ==> IsSpace(s[n..][0])
  {
    hide WordLength;
  }

  lemma FieldsStep(t: string, s: string)
    requires s == TrimLeft(t)
    ensures Fields(t) == if s == "" then [] else [s[..WordLength(s)]] + Fields(s[WordLength(s)..])
  {
    hide TrimLeft, WordLength;
  }

  /** Squashing white space moves no word in or out of sight. */
  lemma {:induction false} SquashContains(t: string, w: string)
    requires OneWord(w)
    ensures Contains(Squash(t), w) <==> Contains(t, w)
    decreases |t|
  {
    hide Contains, Fields, JoinWith, TrimLeft, WordLength, OneWord, Blank;
    var s := TrimLeft(t);
    FieldsStep(t, s);
    BlankPrefix(t[..|t| - |s|], s, w);
    assert t == t[..|t| - |s|] + s;
    if s == "" {
      EmptyJoin();
    } else {
      var n := WordLength(s);
      WordStep(s, n);
      SquashContains(s[n..], w);
      SquashFirst(s[..n], s[n..], w);
    }
  }

  lemma SquashFirst(word: string, rest: string, w: string)
    requires OneWord(w) && (rest != "" ==> IsSpace(rest[0]))
    requires Contains(Squash(rest), w) <==> Contains(rest, w)
    ensures Contains(JoinWith([word] + Fields(rest), " "), w) <==> Contains(word + rest, w)
  {
    hide Contains, Fields, JoinWith;
    JoinStep(word, Fields(rest), " ");
    if rest == "" {
      EmptyJoin();
      assert word + rest == word;
    } else {
      CutBefore(word, rest, w);
      if Fields(rest) == [] {
        EmptyJoin();
        BlankContainsNoWord("", w);
      } else {
        assert word + " " + Squash(rest) == word + (" " + Squash(rest));
        CutBefore(word, " " + Squash(rest), w);
        BlankPrefix(" ", Squash(rest), w);
      }
    }
  }

  lemma EmptyJoin()
    ensures JoinWith([], " ") == "" && Blank("") && Fields("") == []
  {
  }

  lemma LowerConcat(a: string, b: string)
    ensures Lower(a + b) == Lower(a) + Lower(b)
  {
  }

  lemma LowerBlank(s: string)
    ensures Blank(Lower(s)) <==> Blank(s)
  {
    hide Lower;
    forall i | 0 <= i < |s| ensures IsSpace(Lower(s)[i]) <==> IsSpace(s[i]) {}
  }

  lemma TrimParts(s: string) returns (a: string, b: string)
    ensures Blank(a) && Blank(b) && s == a + Trim(s) + b
  {
    hide TrimLeft, TrimRight, Blank;
    var l := TrimLeft(s);
    a, b := s[..|s| - |l|], l[|Trim(s)|..];
    assert l == Trim(s) + b;
    assert s == a + l;
  }

  /** For one word, occurring in the normalised text is occurring in the text, whatever the case. */
  lemma NormalContains(s: string, w: string)
    requires OneWord(w)
    ensures Contains(NormalizeText(s), w) <==> Contains(Lower(s), w)
  {
    hide Contains, Squash, Lower, Trim;
    var a, b := TrimParts(s);
    LowerConcat(a + Trim(s), b);
    LowerConcat(a, Trim(s));
    LowerBlank(a);
    LowerBlank(b);
    BlankSuffix(Lower(a) + Lower(Trim(s)), Lower(b), w);
    BlankPrefix(Lower(a), Lower(Trim(s)), w);
    SquashContains(Lower(Trim(s)), w);
  }

  // ----- Squashing, one character at a time

  lemma TrimLeftCons(c: char, t: string)
    ensures TrimLeft([c] + t) == if IsSpace(c) then TrimLeft(t) else [c] + t
  {
    assert ([c] + t)[1..] == t;
  }

  lemma WordLengthCons(c: char, t: string)
    requires !IsSpace(c)
    ensures WordLength([c] + t) == 1 + WordLength(t)
  {
    assert ([c] + t)[1..] == t;
  }

  lemma TrimLeftSame(t: string)
    requires t == "" || !IsSpace(t[0])
    ensures TrimLeft(t) == t
  {
  }

  lemma TrimRightStep(s: string, c: char)
    ensures TrimRight(s + [c]) == if IsSpace(c) then TrimRight(s) else s + [c]
    ensures TrimRight("") == ""
  {
    assert (s + [c])[..|s|] == s;
  }

  lemma TrimRightSame(t: string)
    requires t == "" || !IsSpace(t[|t| - 1])
    ensures TrimRight(t) == t
  {
    hide TrimRight;
    if t == "" {
      TrimRightStep("", ' ');
    } else {
      TrimRightStep(t[..|t| - 1], t[|t| - 1]);
      assert t == t[..|t| - 1] + [t[|t| - 1]];
    }
  }

  /** A text that neither starts nor ends with white space is its own trimmed form. */
  lemma TrimSame(t: string)
    requires t != "" && !IsSpace(t[0]) && !IsSpace(t[|t| - 1])
    ensures Trim(t) == t
  {
    hide TrimLeft, TrimRight, IsSpace;
    TrimLeftSame(t);
    TrimRightSame(t);
  }

  lemma SquashFirstWord(word: string, rest: string, t: string)
    requires word != "" && Fields(t) == [word] + Fields(rest)
    ensures Squash(t) != ""
  {
    hide Fields, JoinWith;
    JoinStep(word, Fields(rest), " ");
  }

  lemma FieldsWord(t: string)
    requires t != "" && !IsSpace(t[0])
    ensures var n := WordLength(t); n > 0 && Fields(t) == [t[..n]] + Fields(t[n..])
  {
    hide Fields, TrimLeft;
    TrimLeftSame(t);
    FieldsStep(t, t);
  }

  // ----- How many words a text has

  /** The places where a character that is not white space follows white space or the start. */
  function WordStarts(t: string, afterSpace: bool): nat {
    if t == "" then 0
    else (if afterSpace && !IsSpace(t[0]) then 1 else 0) + WordStarts(t[1..], IsSpace(t[0]))
  }

  lemma {:induction false} StartsInBlank(a: string, t: string)
    requires Blank(a)
    ensures WordStarts(a + t, true) == WordStarts(t, true)
  {
    if a == "" {
      assert a + t == t;
    } else {
      StartsInBlank(a[1..], t);
      assert IsSpace(a[0]) && (a + t)[1..] == a[1..] + t;
    }
  }

  lemma {:induction false} StartsInWord(w: string, t: string)
    requires forall i :: 0 <= i < |w| ==> !IsSpace(w[i])
    ensures WordStarts(w + t, false) == WordStarts(t, false)
  {
    hide IsSpace;
    if w == "" {
      assert w + t == t;
    } else {
      StartsInWord(w[1..], t);
      assert (w + t)[1..] == w[1..] + t;
    }
  }

  lemma StartsAfterWord(t: string)
    requires t == "" || IsSpace(t[0])
    ensures WordStarts(t, false) == WordStarts(t, true)
  {
  }

  /** strings.Fields yields one field for each start of a word. */
  lemma {:induction false} FieldsCount(t: string)
    ensures |Fields(t)| == WordStarts(t, true)
    decreases |t|
  {
    hide Fields, TrimLeft, WordLength, WordStarts, Blank;
    var s := TrimLeft(t);
    FieldsStep(t, s);
    StartsInBlank(t[..|t| - |s|], s);
    assert t == t[..|t| - |s|] + s;
    if s == "" {
      NoStarts();
    } else {
      var n := WordLength(s);
      WordStep(s, n);
      FieldsCount(s[n..]);
      FirstStart(s);
      StartsInWord(s[..n], s[n..]);
      StartsAfterWord(s[n..]);
    }
  }

  lemma NoStarts()
    ensures WordStarts("", true) == 0
  {
  }

  lemma FirstStart(s: string)
    requires s != "" && !IsSpace(s[0])
    ensures WordStarts(s, true) == 1 + WordStarts(s, false)
  {
  }

  lemma FieldsSpace(c: char, t: string)
    requires IsSpace(c)
    ensures Fields([c] + t) == Fields(t)
  {
    hide Fields, TrimLeft;
    TrimLeftCons(c, t);
    FieldsStep([c] + t, TrimLeft(t));
    FieldsStep(t, TrimLeft(t));
  }

  lemma SquashBlank(t: string)
    ensures Fields(t) == [] <==> Squash(t) == ""
  {
    hide Fields, JoinWith, TrimLeft, WordLength;
    EmptyJoin();
    var s := TrimLeft(t);
    FieldsStep(t, s);
    if s != "" {
      WordStep(s, WordLength(s));
      SquashFirstWord(s[..WordLength(s)], s[WordLength(s)..], t);
    }
  }

  /** What one more character in front does to the squashed text. */
  lemma SquashCons(c: char, t: string)
    ensures Squash([c] + t) ==
      if IsSpace(c) then Squash(t)
      else if Squash(t) == "" then [c]
      else if IsSpace(t[0]) then [c] + " " + Squash(t)
      else [c] + Squash(t)
  {
    hide Fields, JoinWith, WordLength;
    SquashBlank(t);
    if IsSpace(c) {
      FieldsSpace(c, t);
    } else {
      var s := [c] + t;
      FieldsWord(s);
      WordLengthCons(c, t);
      if t == "" || IsSpace(t[0]) {
        assert s[..1] == [c] && s[1..] == t;
        WordLengthZero(t);
        JoinStep([c], Fields(t), " ");
        EmptyFields();
      } else {
        FieldsWord(t);
        var n := WordLength(t);
        assert s[..n + 1] == [c] + t[..n] && s[n + 1..] == t[n..];
        JoinFirst([c], [t[..n]] + Fields(t[n..]), " ");
      }
    }
  }

  lemma WordLengthZero(t: string)
    requires t == "" || IsSpace(t[0])
    ensures WordLength(t) == 0
  {
  }

  lemma EmptyFields()
    ensures Fields("") == [] && Squash("") == ""
  {
  }

  lemma SquashUncons(t: string)
    requires t != ""
    ensures Squash(t) ==
      if IsSpace(t[0]) then Squash(t[1..])
      else if Squash(t[1..]) == "" then [t[0]]
      else if IsSpace(t[1]) then [t[0]] + " " + Squash(t[1..])
      else [t[0]] + Squash(t[1..])
    ensures Squash(t[1..]) != "" ==> t[1..] != ""
  {
    hide Squash;
    SquashCons(t[0], t[1..]);
    EmptyFields();
    assert t == [t[0]] + t[1..];
  }

  lemma {:induction false} SquashLength(t: string)
    ensures |Squash(t)| <= |t|
    ensures t != "" && IsSpace(t[0]) ==> |Squash(t)| < |t|
    ensures t != "" && !IsSpace(t[0]) ==> Squash(t) != "" && Squash(t)[0] == t[0]
  {
    hide Squash, IsSpace;
    if t == "" {
      EmptyFields();
    } else {
      SquashLength(t[1..]);
      SquashUncons(t);
    }
  }

  lemma {:induction false} SquashIdempotent(t: string)
    ensures Squash(Squash(t)) == Squash(t)
  {
    hide Squash;
    EmptyFields();
    if t != "" {
      var rest := t[1..];
      SquashIdempotent(rest);
      SquashUncons(t);
      if !IsSpace(t[0]) {
        if Squash(rest) == "" {
          SquashCons(t[0], "");
          assert [t[0]] + "" == [t[0]];
        } else if IsSpace(t[1]) {
          SquashCons(t[0], " " + Squash(rest));
          SquashCons(' ', Squash(rest));
          assert [t[0]] + " " + Squash(rest) == [t[0]] + (" " + Squash(rest));
        } else {
          SquashLength(rest);
          SquashCons(t[0], Squash(rest));
        }
      }
    }
  }

  lemma LowerCons(c: char, t: string)
    ensures Lower([c] + t) == [LowerChar(c)] + Lower(t) && Lower("") == ""
  {
  }

  lemma LowerSpaced(c: char, t: string)
    ensures Lower([c] + " " + t) == [LowerChar(c)] + " " + Lower(t)
    ensures IsSpace(LowerChar(c)) <==> IsSpace(c)
    ensures Lower([c]) == [LowerChar(c)]
  {
    hide Lower;
    LowerCons(c, " " + t);
    LowerCons(' ', t);
    LowerCons(c, "");
    assert [c] + "" == [c];
    assert [c] + " " + t == [c] + (" " + t);
    assert [LowerChar(c)] + " " + Lower(t) == [LowerChar(c)] + (" " + Lower(t));
  }

  lemma {:induction false} SquashLower(t: string)
    ensures Squash(Lower(t)) == Lower(Squash(t))
  {
    hide Squash, Lower;
    EmptyFields();
    if t == "" {
      LowerCons('a', "");
    } else {
      var c, rest := t[0], t[1..];
      SquashLower(rest);
      SquashUncons(t);
      assert t == [c] + rest;
      LowerCons(c, rest);
      SquashCons(LowerChar(c), Lower(rest));
      LowerSpaced(c, Squash(rest));
      LowerCons(c, Squash(rest));
      if rest != "" { LowerSpaced(rest[0], ""); }
    }
  }

  lemma LowerIdempotent(t: string)
    ensures Lower(Lower(t)) == Lower(t)
  {
    hide Lower;
    assert Lower(Lower(t)) == Lower(t);
  }

  /** One more character at the end only extends the squashed text; white space leaves it alone. */
  lemma {:induction false} SquashSnoc(t: string, c: char)
    ensures Squash(t) <= Squash(t + [c])
    ensures IsSpace(c) ==> Squash(t + [c]) == Squash(t)
    ensures var q := Squash(t + [c]); !IsSpace(c) ==> q != "" && q[|q| - 1] == c
  {
    hide Squash;
    EmptyFields();
    if t == "" {
      SquashCons(c, "");
      assert t + [c] == [c] + "";
    } else {
      SquashSnoc(t[1..], c);
      SquashUncons(t);
      SquashCons(t[0], t[1..] + [c]);
      assert t + [c] == [t[0]] + (t[1..] + [c]);
    }
  }

  lemma {:induction false} SquashPrefix(t: string, b: string)
    ensures Squash(t) <= Squash(t + b)
    ensures Blank(b) ==> Squash(t + b) == Squash(t)
    decreases |b|
  {
    hide Squash;
    if b == "" {
      assert t + b == t;
    } else {
      SquashSnoc(t, b[0]);
      SquashPrefix(t + [b[0]], b[1..]);
      assert t + [b[0]] + b[1..] == t + b;
    }
  }

  lemma {:induction false} SquashSuffix(a: string, t: string)
    ensures |Squash(t)| <= |Squash(a + t)| && Squash(a + t)[|Squash(a + t)| - |Squash(t)|..] == Squash(t)
    ensures Blank(a) ==> Squash(a + t) == Squash(t)
  {
    hide Squash, IsSpace;
    if a == "" {
      assert a + t == t;
    } else {
      SquashSuffix(a[1..], t);
      SquashCons(a[0], a[1..] + t);
      assert a + t == [a[0]] + (a[1..] + t);
    }
  }

  lemma SquashEnds(t: string)
    requires t != "" && !IsSpace(t[|t| - 1])
    ensures var q := Squash(t); q != "" && q[|q| - 1] == t[|t| - 1]
  {
    hide Squash;
    SquashSnoc(t[..|t| - 1], t[|t| - 1]);
    assert t == t[..|t| - 1] + [t[|t| - 1]];
  }

  lemma BlankCons(c: char, t: string)
    ensures Blank([c] + t) <==> IsSpace(c) && Blank(t)
  {
    var s := [c] + t;
    assert s[0] == c;
    if Blank(s) {
      forall i | 0 <= i < |t| ensures IsSpace(t[i]) { assert s[i + 1] == t[i]; }
    }
  }

  lemma {:induction false} SquashEmpty(t: string)
    ensures Squash(t) == "" <==> Blank(t)
  {
    hide Squash, IsSpace;
    if t == "" {
      EmptyFields();
    } else {
      SquashEmpty(t[1..]);
      SquashCons(t[0], t[1..]);
      BlankCons(t[0], t[1..]);
      assert t == [t[0]] + t[1..];
    }
  }

  /** Where two texts meet without white space, so do their squashed forms. */
  lemma {:induction false} SquashTight(a: string, y: string)
    requires a != "" && y != "" && !IsSpace(a[|a| - 1]) && !IsSpace(y[0])
    ensures Squash(a + y) == Squash(a) + Squash(y)
  {
    hide Squash, IsSpace;
    var c, rest := a[0], a[1..];
    assert a == [c] + rest && a + y == [c] + (rest + y);
    SquashCons(c, rest);
    SquashCons(c, rest + y);
    SquashLength(y);
    if rest == "" {
      EmptyFields();
      assert rest + y == y;
    } else {
      SquashTight(rest, y);
      SquashEnds(rest);
      assert [c] + (Squash(rest) + Squash(y)) == ([c] + Squash(rest)) + Squash(y);
      assert [c] + " " + (Squash(rest) + Squash(y)) == ([c] + " " + Squash(rest)) + Squash(y);
    }
  }

  /** Where they meet at white space, one space comes between. */
  lemma {:induction false} SquashApart(a: string, y: string)
    requires !Blank(a) && !Blank(y) && (IsSpace(a[|a| - 1]) || IsSpace(y[0]))
    ensures Squash(a + y) == Squash(a) + " " + Squash(y)
  {
    hide Squash, IsSpace, Blank;
    NothingBlank();
    var c, rest := a[0], a[1..];
    assert a == [c] + rest && a + y == [c] + (rest + y);
    SquashCons(c, rest);
    SquashCons(c, rest + y);
    BlankCons(c, rest);
    SquashEmpty(rest);
    SquashEmpty(y);
    if Blank(rest) {
      SquashSuffix(rest, y);
      if rest != "" { BlankFirst(rest); } else { assert rest + y == y; }
    } else {
      SquashApart(rest, y);
      assert [c] + (Squash(rest) + " " + Squash(y)) == ([c] + Squash(rest)) + " " + Squash(y);
      assert [c] + " " + (Squash(rest) + " " + Squash(y)) == ([c] + " " + Squash(rest)) + " " + Squash(y);
    }
  }

  lemma NothingBlank()
    ensures Blank("")
  {
  }

  lemma BlankFirst(t: string)
    requires Blank(t) && t != ""
    ensures IsSpace(t[0]) && IsSpace(t[|t| - 1])
  {
  }

  /** White space at the ends of a text is not in its squashed form. */
  lemma SquashFits(s: string)
    requires !Blank(s)
    ensures |Squash(s)| + (if IsSpace(s[0]) then 1 else 0) + (if IsSpace(s[|s| - 1]) then 1 else 0) <= |s|
  {
    hide Squash;
    var t, c := s[..|s| - 1], s[|s| - 1];
    assert s == t + [c];
    SquashLength(s);
    SquashLength(t);
    if IsSpace(c) { SquashSnoc(t, c); }
  }

  /** The same text up to which white space character stands where. */
  predicate SameButSpace(a: string, b: string) {
    |a| == |b| && forall i :: 0 <= i < |a| ==> a[i] == b[i] || (IsSpace(a[i]) && IsSpace(b[i]))
  }

  lemma {:induction false} SameSquash(a: string, b: string)
    requires SameButSpace(a, b)
    ensures Squash(a) == Squash(b)
  {
    hide Squash, IsSpace;
    if a != "" {
      SameSquash(a[1..], b[1..]);
      SquashUncons(a);
      SquashUncons(b);
    }
  }

  /** The squashed form of a part occurs in the squashed form of the whole. */
  lemma SquashPart(a: string, t: string, b: string)
    ensures Contains(Squash(a + t + b), Squash(t))
    ensures Blank(a) && Blank(b) ==> Squash(a + t + b) == Squash(t)
  {
    hide Squash, Contains;
    SquashSuffix(a, t);
    SquashPrefix(a + t, b);
    OccursIn(Squash(a + t + b), Squash(t), |Squash(a + t)| - |Squash(t)|);
  }

  /** Trimming before squashing changes nothing. */
  lemma NormalizeIsSquash(s: string)
    ensures NormalizeText(s) == Squash(Lower(s))
  {
    hide Squash, Lower, Trim, Contains;
    var a, b := TrimParts(s);
    LowerConcat(a + Trim(s), b);
    LowerConcat(a, Trim(s));
    LowerBlank(a);
    LowerBlank(b);
    SquashPart(Lower(a), Lower(Trim(s)), Lower(b));
  }

  /** Normalising is idempotent, and a normalised text neither starts nor ends with white space. */
  lemma NormalizeFixed(s: string)
    ensures var n := NormalizeText(s);
            && NormalizeText(n) == n
            && Squash(n) == n && Lower(n) == n
            && (n != "" ==> !IsSpace(n[0]) && !IsSpace(n[|n| - 1]))
  {
    hide Squash, Lower, Trim, NormalizeText;
    var n := NormalizeText(s);
    NormalizeIsSquash(s);
    NormalizeIsSquash(n);
    SquashLower(Lower(s));
    LowerIdempotent(s);
    SquashIdempotent(Lower(s));
    if n != "" {
      SquashLength(n);
      var m := n[..|n| - 1];
      SquashSnoc(m, n[|n| - 1]);
      SquashLength(m);
      assert n == m + [n[|n| - 1]];
    }
  }

  /** A part of a text contains no claim that the whole text is free of. */
  lemma NormalizePart(a: string, t: string, b: string, claim: string)
    requires Contains(NormalizeText(t), claim)
    ensures Contains(NormalizeText(a + t + b), claim)
  {
    hide Squash, Lower, Contains, NormalizeText;
    NormalizeIsSquash(t);
    NormalizeIsSquash(a + t + b);
    LowerConcat(a + t, b);
    LowerConcat(a, t);
    SquashPart(Lower(a), Lower(t), Lower(b));
    ContainsTransitive(NormalizeText(a + t + b), NormalizeText(t), claim);
  }
}
