/** Which forbidden claims a client can be shown by PersonaAgent.Stream, and which an answer can hold:
    those inside which a stream can pause. */
module StreamLeaks {
  import opened Text
  import opened Normalization
  import opened StreamGuards
  import opened PersonaStreams

  // ----- Where a claim can be taken apart

  predicate EndsSentence(c: char) {
    c == '.' || c == '!' || c == '?'
  }

  /** What the last character of a released segment becomes when white space is squashed. */
  predicate Pause(c: char) {
    IsSpace(c) || EndsSentence(c)
  }

  /** The text can go out before the end of a stream: it falls into pieces that are not blank, not longer
      than a released segment, and end where a segment can end. */
  predicate Cut(u: string)
    decreases |u|
  {
    u == "" || exists k :: 0 < k <= |u| && PieceEnds(u, k) && Cut(u[k..])
  }

  predicate PieceEnds(u: string, k: nat)
    requires 0 < k <= |u|
  {
    k <= PENDING_LIMIT && Pause(u[k - 1]) && !Blank(u[..k])
  }

  /** One more character is needed to let the end of the text out: the boundary it lacks. */
  function Unfinished(n: string): nat {
    if n != "" && EndsSentence(n[|n| - 1]) then 0 else 1
  }

  /** The first k characters can go out before the rest, and the rest right after them. */
  predicate PausesAt(n: string, k: nat) {
    && 0 < k < |n| && Cut(n[..k])
    && |n| - k + Unfinished(n) <= PENDING_LIMIT
    && |n| + Unfinished(n) <= CANDIDATE_LIMIT
  }

  /** A sentence ends at position i and the next character follows without white space. */
  predicate Tight(n: string, i: nat) {
    i + 1 < |n| && EndsSentence(n[i]) && !IsSpace(n[i + 1])
  }

  /** The condition under which an allowed answer can hold a claim. */
  predicate CanBeAnswered(n: string) {
    |n| < CANDIDATE_LIMIT && exists i :: 0 <= i < |n| && Tight(n, i) && Cut(n[..i + 1])
  }

  /** The condition under which a claim can be shown. */
  predicate CanBeShown(n: string) {
    CanBeAnswered(n) || exists k :: 0 <= k < |n| && PausesAt(n, k)
  }

  /** What the lemmas need of a normalised claim. */
  predicate Trimmed(n: string) {
    n != "" && !IsSpace(n[0]) && !IsSpace(n[|n| - 1])
  }

  lemma FirstPiece(u: string) returns (k: nat)
    requires Cut(u) && u != ""
    ensures 0 < k <= |u| && PieceEnds(u, k) && Cut(u[k..])
  {
    hide PieceEnds;
    k :| 0 < k <= |u| && PieceEnds(u, k) && Cut(u[k..]);
  }

  lemma PieceBefore(u: string, k: nat)
    requires 0 < k <= |u| && PieceEnds(u, k) && Cut(u[k..])
    ensures Cut(u)
  {
    hide PieceEnds;
  }

  lemma NothingCut()
    ensures Cut("")
  {
  }

  lemma {:induction false} CutAppend(a: string, b: string)
    requires Cut(a) && Cut(b)
    ensures Cut(a + b)
    decreases |a|
  {
    hide Pause, Blank, Cut;
    if a == "" {
      assert a + b == b;
    } else {
      var k := FirstPiece(a);
      CutAppend(a[k..], b);
      assert (a + b)[..k] == a[..k] && (a + b)[k..] == a[k..] + b;
      PieceBefore(a + b, k);
    }
  }

  lemma OnePiece(u: string)
    requires 0 < |u| <= PENDING_LIMIT && Pause(u[|u| - 1]) && !Blank(u)
    ensures Cut(u)
  {
    hide Pause, Blank, Cut;
    NothingCut();
    assert u[..|u|] == u && u[|u|..] == "";
    PieceBefore(u, |u|);
  }

  // ----- What released text can hold

  /** The visible segments of a run before its end. */
  predicate Segments(segs: seq<string>) {
    forall i :: 0 <= i < |segs| ==> Segment(segs[i])
  }

  predicate Segment(s: string) {
    0 < |s| <= PENDING_LIMIT && Boundary(s[|s| - 1]) && !Blank(s)
  }

  predicate EndsWith(s: string, u: string) {
    |u| <= |s| && s[|s| - |u|..] == u
  }

  function Separator(a: string, b: string): string
    requires a != "" && b != ""
  {
    if IsSpace(a[|a| - 1]) || IsSpace(b[0]) then " " else ""
  }

  lemma SquashJoin(a: string, b: string)
    requires !Blank(a) && !Blank(b)
    ensures a != "" && b != "" && Squash(a + b) == Squash(a) + Separator(a, b) + Squash(b)
  {
    hide Squash, Blank, IsSpace;
    NothingBlank();
    if IsSpace(a[|a| - 1]) || IsSpace(b[0]) {
      SquashApart(a, b);
    } else {
      SquashTight(a, b);
      assert Squash(a) + "" == Squash(a);
    }
  }

  /** The space a text that ends in white space leaves before what follows. */
  function Closed(a: string, u: string): string {
    if a != "" && IsSpace(a[|a| - 1]) then u + " " else u
  }

  lemma LowerBoundary(s: string)
    requires s != "" && Boundary(s[|s| - 1])
    ensures Lower(s) != "" && Boundary(Lower(s)[|s| - 1])
  {
    hide Lower;
  }

  lemma LowerEmpty()
    ensures Lower("") == "" && Concat([]) == "" && Squash("") == ""
  {
    EmptyFields();
  }

  lemma OneSegmentCut(s: string, u: string)
    requires Segment(s)
    requires u != "" && !IsSpace(u[0]) && EndsWith(Squash(s), u)
    ensures Cut(Closed(s, u))
  {
    hide Squash, Blank, Cut;
    SquashFits(s);
    var v := Closed(s, u);
    NotBlank(v, 0);
    if !IsSpace(s[|s| - 1]) { SquashEnds(s); }
    OnePiece(v);
  }

  /** The piece a segment adds after text that ends in a. */
  lemma NextSegmentCut(a: string, s: string)
    requires a != "" && Segment(s)
    ensures var front := if IsSpace(a[|a| - 1]) then "" else Separator(a, s);
            Cut(Closed(s, front + Squash(s)))
  {
    hide Squash, Blank, Cut;
    var front := if IsSpace(a[|a| - 1]) then "" else Separator(a, s);
    var v := Closed(s, front + Squash(s));
    SquashFits(s);
    SquashEmpty(s);
    SquashFirst0(s);
    NotBlank(v, |front|);
    if !IsSpace(s[|s| - 1]) { SquashEnds(s); }
    OnePiece(v);
  }

  lemma {:induction false} SquashFirst0(s: string)
    requires !Blank(s)
    ensures Squash(s) != "" && !IsSpace(Squash(s)[0])
  {
    hide Squash, IsSpace, Blank;
    NothingBlank();
    BlankCons(s[0], s[1..]);
    SquashUncons(s);
    SquashEmpty(s);
    assert s == [s[0]] + s[1..];
    if IsSpace(s[0]) { SquashFirst0(s[1..]); }
  }

  lemma LowerSegment(s: string)
    requires Segment(s)
    ensures Segment(Lower(s))
  {
    hide Lower, Blank;
    LowerBlank(s);
    LowerBoundary(s);
  }

  /** Released text is the text released before and a last segment. */
  lemma LowerSegments(segs: seq<string>)
    requires Segments(segs) && segs != []
    ensures var k := |segs| - 1;
            && Segment(Lower(segs[k])) && Segments(segs[..k]) && Concat(segs) == Concat(segs[..k]) + segs[k]
            && Lower(Concat(segs)) == Lower(Concat(segs[..k])) + Lower(segs[k])
  {
    hide Lower, Concat, Segment;
    var k := |segs| - 1;
    LowerSegment(segs[k]);
    ConcatSnoc(segs[..k], segs[k]);
    LowerConcat(Concat(segs[..k]), segs[k]);
    assert segs == segs[..k] + [segs[k]];
  }

  lemma {:induction false} NotBlankTogether(segs: seq<string>)
    requires Segments(segs) && segs != []
    ensures !Blank(Lower(Concat(segs)))
  {
    hide Lower, Concat;
    LowerSegments(segs);
    var k := |segs| - 1;
    var a, s := Lower(Concat(segs[..k])), Lower(segs[k]);
    var j :| 0 <= j < |s| && !IsSpace(s[j]);
    NotBlank(a + s, |a| + j);
  }

  /** Whatever the squashed form of released text ends with can be cut into pieces again. */
  lemma {:induction false} SuffixCut(segs: seq<string>, u: string)
    requires Segments(segs) && segs != []
    requires u != "" && !IsSpace(u[0]) && EndsWith(Squash(Lower(Concat(segs))), u)
    ensures Cut(Closed(Lower(Concat(segs)), u))
    decreases |segs|, 0
  {
    hide Lower, Concat, Squash, Cut, IsSpace, Segment, Segments, Closed, EndsWith, Separator;
    LowerSegments(segs);
    var k := |segs| - 1;
    var ps, s := segs[..k], Lower(segs[k]);
    LowerEmpty();
    SegmentLength(s);
    ClosedEnd(Lower(Concat(ps)), s, u);
    if ps == [] {
      assert "" + s == s;
      OneSegmentCut(s, u);
    } else {
      NotBlankTogether(ps);
      SquashJoin(Lower(Concat(ps)), s);
      if |u| <= |Squash(s)| {
        SuffixOfSuffix(Squash(Lower(Concat(ps))) + Separator(Lower(Concat(ps)), s), Squash(s), u);
        OneSegmentCut(s, u);
      } else {
        LongSuffixCut(ps, s, u);
      }
    }
  }

  lemma SegmentLength(s: string)
    requires Segment(s)
    ensures s != "" && !Blank(s)
  {
  }

  lemma LongSuffixCut(ps: seq<string>, s: string, u: string)
    requires Segments(ps) && ps != [] && Segment(s) && !Blank(Lower(Concat(ps)))
    requires Lower(Concat(ps)) != "" && s != "" && |u| > |Squash(s)| && !IsSpace(u[0])
    requires EndsWith(Squash(Lower(Concat(ps))) + Separator(Lower(Concat(ps)), s) + Squash(s), u)
    ensures Cut(Closed(s, u))
    decreases |ps|, 1
  {
    hide Lower, Concat, Squash, Cut, Blank, Segment, Segments, Closed, EndsWith;
    var a := Lower(Concat(ps));
    var v := JoinedSuffix(Squash(a), Separator(a, s), Squash(s), u);
    SuffixCut(ps, v);
    NextSegmentCut(a, s);
    PutTogether(a, s, v, u);
  }

  lemma ClosedEnd(a: string, s: string, u: string)
    requires s != ""
    ensures Closed(a + s, u) == Closed(s, u)
  {
  }

  lemma SuffixOfSuffix(a: string, b: string, u: string)
    requires EndsWith(a + b, u) && |u| <= |b|
    ensures EndsWith(b, u)
  {
    assert (a + b)[|a + b| - |u|..] == b[|b| - |u|..];
  }

  lemma JoinedSuffix(a: string, sep: string, b: string, u: string) returns (v: string)
    requires EndsWith(a + sep + b, u) && |u| > |b| && (sep == "" || sep == " ") && !IsSpace(u[0])
    ensures v != "" && v[0] == u[0] && EndsWith(a, v) && u == v + sep + b
  {
    var w := a + sep + b;
    var m := |u| - |b| - |sep|;
    assert u[0] == w[|w| - |u|];
    assert sep == " " ==> w[|a|] == ' ';
    v := u[..m];
    assert forall i :: 0 <= i < |u| ==> u[i] == w[|w| - |u| + i];
    assert u == v + sep + b;
    assert a[|a| - |v|..] == v;
  }

  lemma PutTogether(a: string, s: string, v: string, u: string)
    requires a != "" && s != "" && u == v + Separator(a, s) + Squash(s)
    requires Cut(Closed(a, v))
    requires var front := if IsSpace(a[|a| - 1]) then "" else Separator(a, s);
             Cut(Closed(s, front + Squash(s)))
    ensures Cut(Closed(s, u))
  {
    hide Cut, Squash, IsSpace;
    var front := if IsSpace(a[|a| - 1]) then "" else Separator(a, s);
    var x, y := Closed(a, v), front + Squash(s);
    assert u == x + y by {
      if IsSpace(a[|a| - 1]) { assert x == v + " " && y == Squash(s); } else { assert v + front + Squash(s) == v + y; }
    }
    hide Closed, Separator;
    CutAppend(x, Closed(s, y));
    ClosedAppend(s, x, y);
  }

  lemma ClosedAppend(s: string, x: string, y: string)
    ensures Closed(s, x + y) == x + Closed(s, y)
  {
    assert x + y + " " == x + (y + " ");
  }

  // ----- A claim in released text is one a stream can pause in

  /** An occurrence in two texts that is in neither of them lies across the place where they meet. */
  lemma Straddle(a: string, sep: string, b: string, n: string) returns (l: nat)
    requires Trimmed(n) && (sep == "" || sep == " ")
    requires Contains(a + sep + b, n) && !Contains(a, n) && !Contains(b, n)
    ensures 0 < l && l + |sep| < |n| && EndsWith(a, n[..l]) && n[l..l + |sep|] == sep && n[l + |sep|..] <= b
  {
    var w := a + sep + b;
    var j :| 0 <= j <= |w| - |n| && OccursAt(w, n, j);
    assert a + (sep + b) == w;
    if j + |n| <= |a| { OccursLeft(a, sep + b, n, j); }
    if j >= |a| + |sep| { OccursRight(a + sep, b, n, j); }
    if sep == " " { OccurrenceChars(w, n, j, |a|); }
    assert j < |a| && |a| + |sep| < j + |n|;
    l := |a| - j;
    OccursAcross(a, sep, b, n, j);
  }

  lemma OccursLeft(a: string, b: string, n: string, j: nat)
    requires OccursAt(a + b, n, j) && j + |n| <= |a|
    ensures Contains(a, n)
  {
    assert a[j..j + |n|] == (a + b)[j..j + |n|];
    OccursIn(a, n, j);
  }

  lemma OccursRight(a: string, b: string, n: string, j: nat)
    requires OccursAt(a + b, n, j) && j >= |a|
    ensures Contains(b, n)
  {
    assert b[j - |a|..j - |a| + |n|] == (a + b)[j..j + |n|];
    OccursIn(b, n, j - |a|);
  }

  lemma OccursAcross(a: string, sep: string, b: string, n: string, j: nat)
    requires OccursAt(a + sep + b, n, j) && j < |a| && |a| + |sep| < j + |n|
    ensures var l := |a| - j;
            EndsWith(a, n[..l]) && n[l..l + |sep|] == sep && n[l + |sep|..] <= b
  {
    var w, l := a + sep + b, |a| - j;
    assert a[|a| - l..] == w[j..j + |n|][..l];
    assert w[|a|..|a| + |sep|] == sep;
    assert w[j..j + |n|][l..l + |sep|] == w[|a|..|a| + |sep|];
    assert w[j..j + |n|][l + |sep|..] == b[..|n| - l - |sep|];
  }

  /** The lengths such an occurrence leaves room for. */
  lemma StraddleFits(a: string, s: string, n: string, l: nat)
    requires !Blank(a) && a != "" && Segment(s) && Trimmed(n)
    requires var sep := Separator(a, s);
             && l + |sep| < |n| && EndsWith(Squash(a), n[..l]) && n[l..l + |sep|] == sep && n[l + |sep|..] <= Squash(s)
    ensures var k := if IsSpace(a[|a| - 1]) then l + 1 else l;
            && k < |n| && |n| - k + Unfinished(n) <= PENDING_LIMIT && |n| + Unfinished(n) <= |a| + |s|
            && n[..k] == Closed(a, n[..l])
  {
    hide Squash, Blank;
    SquashFits(a);
    SquashFits(s);
    var sep := Separator(a, s);
    var t := n[l + |sep|..];
    if |t| == |Squash(s)| && !IsSpace(s[|s| - 1]) {
      SquashEnds(s);
      assert t == Squash(s);
      assert t[|t| - 1] == n[|n| - 1];
    }
    if IsSpace(a[|a| - 1]) { assert n[..l + 1] == n[..l] + n[l..l + 1]; }
  }

  /** A claim in the released text but in no segment of it. */
  lemma {:induction false} PausesInside(segs: seq<string>, n: string) returns (k: nat)
    requires Segments(segs) && Trimmed(n) && Contains(Squash(Lower(Concat(segs))), n)
    requires forall i :: 0 <= i < |segs| ==> !Contains(Squash(Lower(segs[i])), n)
    ensures 0 < k < |n| && Cut(n[..k])
    ensures |n| - k + Unfinished(n) <= PENDING_LIMIT && |n| + Unfinished(n) <= |Concat(segs)|
    decreases |segs|
  {
    hide Lower, Concat, Squash, Cut, Contains, Boundary, Blank, Unfinished;
    LowerEmpty();
    NothingHeld(n);
    var j := |segs| - 1;
    LowerSegments(segs);
    var ps, s := segs[..j], Lower(segs[j]);
    var a := Lower(Concat(ps));
    if Contains(Squash(a), n) {
      k := PausesInside(ps, n);
    } else {
      assert "" + s == s;
      NotBlankTogether(ps);
      SquashJoin(a, s);
      var l := Straddle(Squash(a), Separator(a, s), Squash(s), n);
      StraddleFits(a, s, n, l);
      k := if IsSpace(a[|a| - 1]) then l + 1 else l;
      SuffixCut(ps, n[..l]);
    }
  }

  lemma NothingHeld(n: string)
    requires n != ""
    ensures !Contains("", n)
  {
  }

  // ----- A claim in the visible text but not in the whole one lies across a dropped segment

  /** The text ends tightly with the front of the claim. */
  predicate EndsInClaim(a: string, n: string, i: nat) {
    Tight(n, i) && a != "" && !IsSpace(a[|a| - 1]) && EndsWith(Squash(Lower(a)), n[..i + 1])
  }

  lemma LowerThree(a: string, r: string, y: string)
    ensures Lower(a + r + y) == Lower(a) + Lower(r) + Lower(y) && Lower(a + y) == Lower(a) + Lower(y)
  {
    hide Lower;
    LowerConcat(a + r, y);
    LowerConcat(a, r);
    LowerConcat(a, y);
  }

  /** Dropping white space from between two texts changes the squashed form only where they then meet tightly. */
  lemma DropChanges(a: string, r: string, y: string)
    requires Blank(r)
    ensures Squash(a + r + y) == Squash(a + y)
            || (a != "" && y != "" && !IsSpace(a[|a| - 1]) && !IsSpace(y[0]) && Squash(a + y) == Squash(a) + "" + Squash(y)
                && Squash(a + r + y) == Squash(a) + " " + Squash(y))
  {
    hide Squash, IsSpace, Blank;
    assert a + (r + y) == a + r + y;
    if r == "" {
      assert a + r == a;
    } else if Blank(y) {
      BlankTogether(r, y);
      SquashPrefix(a, r + y);
      SquashPrefix(a, y);
    } else if Blank(a) {
      BlankTogether(a, r);
      SquashSuffix(a + r, y);
      SquashSuffix(a, y);
    } else {
      NothingBlank();
      BlankFirst(r);
      BlankTogether(r, y);
      SquashApartAround(a, r, y);
      if IsSpace(a[|a| - 1]) || IsSpace(y[0]) {
        SquashApart(a, y);
      } else {
        SquashTight(a, y);
        assert Squash(a) + "" == Squash(a);
      }
    }
  }

  lemma BlankTogether(a: string, b: string)
    ensures Blank(a + b) <==> Blank(a) && Blank(b)
  {
    if Blank(a + b) {
      assert forall i :: 0 <= i < |a| ==> a[i] == (a + b)[i];
      assert forall i :: 0 <= i < |b| ==> b[i] == (a + b)[|a| + i];
    }
  }

  lemma SquashApartAround(a: string, r: string, y: string)
    requires !Blank(a) && !Blank(y) && Blank(r) && r != ""
    ensures Squash(a + (r + y)) == Squash(a) + " " + Squash(y)
  {
    hide Squash, IsSpace, Blank;
    BlankFirst(r);
    BlankTogether(r, y);
    SquashApart(a, r + y);
    SquashSuffix(r, y);
  }

  lemma LowerChars(a: string)
    requires a != ""
    ensures Lower(a) != "" && (IsSpace(Lower(a)[0]) <==> IsSpace(a[0])) && (IsSpace(Lower(a)[|a| - 1]) <==> IsSpace(a[|a| - 1]))
  {
    hide Lower;
  }

  lemma DroppedBlank(a: string, r: string, y: string, n: string)
    requires Blank(r) && Trimmed(n) && (a != "" ==> Boundary(a[|a| - 1]))
    requires Contains(Squash(Lower(a + y)), n) && !Contains(Squash(Lower(a + r + y)), n)
    ensures exists i :: 0 <= i < |n| && EndsInClaim(a, n, i)
  {
    hide Squash, Lower, Blank, Contains, IsSpace, Boundary, EndsSentence;
    LowerThree(a, r, y);
    LowerBlank(r);
    var A, R, Y := Lower(a), Lower(r), Lower(y);
    DropChanges(A, R, Y);
    var x, z := Squash(A), Squash(Y);
    assert "" + x + (" " + z) == x + " " + z && x + " " + z + "" == x + " " + z;
    if Contains(x, n) { ContainsWider("", x, " " + z, n); }
    if Contains(z, n) { ContainsWider(x + " ", z, "", n); }
    var l := Straddle(x, "", z, n);
    TightStraddle(a, y, n, l);
  }

  lemma TightStraddle(a: string, y: string, n: string, l: nat)
    requires Lower(a) != "" && Lower(y) != "" && !IsSpace(Lower(a)[|Lower(a)| - 1]) && !IsSpace(Lower(y)[0])
    requires Trimmed(n) && (a != "" ==> Boundary(a[|a| - 1]))
    requires 0 < l < |n| && EndsWith(Squash(Lower(a)), n[..l]) && n[l..] <= Squash(Lower(y))
    ensures EndsInClaim(a, n, l - 1)
  {
    hide Squash, Lower;
    LowerChars(a);
    LowerBoundary(a);
    SquashEnds(Lower(a));
    SquashLength(Lower(y));
    var x := Squash(Lower(a));
    assert x[|x| - l..] == n[..l];
    assert n[l - 1] == x[|x| - 1];
    assert n[l..][0] == n[l];
  }

  predicate Ended(s: string) {
    s != "" && Boundary(s[|s| - 1])
  }

  predicate AllEnded(rs: seq<string>) {
    forall i :: 0 <= i < |rs| ==> Ended(rs[i])
  }

  lemma EndedPrefix(rs: seq<string>, k: nat)
    requires AllEnded(rs) && k < |rs|
    ensures AllEnded(rs[..k]) && Ended(rs[k])
  {
    hide Ended;
  }

  lemma {:induction false} VisibleEnds(rs: seq<string>)
    requires AllEnded(rs)
    ensures Concat(Visible(rs)) != "" ==> Ended(Concat(Visible(rs)))
  {
    hide Concat, Visible, AllEnded, Blank, Ended;
    if rs == [] {
      VisibleStep("", []);
      LowerEmpty();
    } else {
      var k := |rs| - 1;
      var ps, s := rs[..k], rs[k];
      assert rs == ps + [s];
      EndedPrefix(rs, k);
      VisibleEnds(ps);
      VisibleEndsStep(ps, s);
    }
  }

  lemma VisibleEndsStep(ps: seq<string>, s: string)
    requires Ended(s) && (Concat(Visible(ps)) != "" ==> Ended(Concat(Visible(ps))))
    ensures Ended(Concat(Visible(ps + [s]))) || Concat(Visible(ps + [s])) == Concat(Visible(ps))
  {
    hide Concat, Visible, Blank, Ended;
    VisibleSnoc(ps, s);
    EndedJoined(Concat(Visible(ps)), s);
  }

  lemma EndedJoined(v: string, s: string)
    requires (v != "" ==> Ended(v)) && Ended(s)
    ensures Ended(v + s)
    ensures v + "" == v
  {
    assert (v + s)[|v + s| - 1] == s[|s| - 1];
  }

  lemma VisibleSnoc(ps: seq<string>, s: string)
    ensures Visible(ps + [s]) == if Blank(s) then Visible(ps) else Visible(ps) + [s]
    ensures Concat(Visible(ps + [s])) == Concat(Visible(ps)) + if Blank(s) then "" else s
    ensures Concat(ps + [s]) == Concat(ps) + s
  {
    hide Concat, Visible, Trim, Blank;
    VisibleAppend(ps, [s]);
    VisibleStep(s, []);
    VisibleStep("", []);
    TrimOfBlank(s);
    assert [s] + [] == [s] && Visible(ps) + [] == Visible(ps);
    ConcatSnoc(Visible(ps), s);
    ConcatSnoc(ps, s);
  }

  /** The claim is in the visible text and not in the whole text. */
  predicate OnlyVisible(rs: seq<string>, x: string, n: string) {
    Contains(Squash(Lower(Concat(Visible(rs)) + x)), n) && !Contains(Squash(Lower(Concat(rs) + x)), n)
  }

  /** Somewhere the visible text before a dropped segment ends with the front of the claim. */
  lemma {:induction false} GapInClaim(rs: seq<string>, x: string, n: string) returns (m: nat, i: nat)
    requires Trimmed(n) && AllEnded(rs) && OnlyVisible(rs, x, n)
    ensures m <= |rs| && i < |n| && EndsInClaim(Concat(Visible(rs[..m])), n, i)
    decreases |rs|
  {
    hide OnlyVisible, Concat, Visible, AllEnded, Blank, EndsInClaim, Trimmed;
    NothingDropped(x, n);
    var k := |rs| - 1;
    EndedPrefix(rs, k);
    assert rs == rs[..k] + [rs[k]];
    if OnlyVisible(rs[..k], rs[k] + x, n) {
      m, i := GapInClaim(rs[..k], rs[k] + x, n);
      assert rs[..k][..m] == rs[..m];
    } else {
      m := k;
      i := GapAtBlank(rs[..k], rs[k], x, n);
    }
  }

  lemma NothingDropped(x: string, n: string)
    ensures !OnlyVisible([], x, n)
  {
    hide Squash, Lower, Contains;
    VisibleStep("", []);
    LowerEmpty();
  }

  lemma GapAtBlank(ps: seq<string>, s: string, x: string, n: string) returns (i: nat)
    requires Trimmed(n) && AllEnded(ps)
    requires OnlyVisible(ps + [s], x, n) && !OnlyVisible(ps, s + x, n)
    ensures i < |n| && EndsInClaim(Concat(Visible(ps)), n, i)
  {
    hide Concat, Visible, Squash, Lower, Contains, Ended, AllEnded, Blank, EndsInClaim, Trimmed, Boundary;
    VisibleSnoc(ps, s);
    var v := Concat(Visible(ps));
    assert Concat(ps) + s + x == Concat(ps) + (s + x) && v + s + x == v + (s + x) && v + "" == v;
    VisibleEnds(ps);
    EndedMeans(v);
    DroppedBlank(v, s, x, n);
    i :| 0 <= i < |n| && EndsInClaim(v, n, i);
  }

  lemma EndedMeans(v: string)
    requires v != "" ==> Ended(v)
    ensures v != "" ==> Boundary(v[|v| - 1])
  {
  }

  lemma {:induction false} VisibleShorter(rs: seq<string>)
    ensures |Concat(Visible(rs))| <= |Concat(rs)|
    ensures |Concat(Visible(rs))| == |Concat(rs)| ==> Concat(Visible(rs)) == Concat(rs)
  {
    hide Concat, Visible, Blank;
    VisibleStep("", []);
    LowerEmpty();
    if rs != [] {
      var k := |rs| - 1;
      VisibleShorter(rs[..k]);
      VisibleSnoc(rs[..k], rs[k]);
      assert rs == rs[..k] + [rs[k]];
    }
  }

  // ----- What a run can show, and what its answer can hold

  /** A claim that is looked for: it is in the list and not blank. */
  predicate Sought(cfg: Config, claim: string) {
    claim in cfg.claims && NormalizeText(claim) != ""
  }

  lemma SoughtTrimmed(cfg: Config, claim: string)
    requires Sought(cfg, claim)
    ensures Trimmed(NormalizeText(claim)) && claim != ""
  {
    hide NormalizeText;
    NormalizeFixed(claim);
    EmptyNormal();
  }

  lemma EmptyNormal()
    ensures NormalizeText("") == ""
  {
    hide Squash;
    NormalizeIsSquash("");
    EmptyFields();
  }

  lemma CleanMeans(cfg: Config, claim: string, text: string)
    requires Sought(cfg, claim) && Clean(cfg.claims, text)
    ensures !Contains(Squash(Lower(text)), NormalizeText(claim))
  {
    hide Contains, NormalizeText, Squash, Lower;
    SoughtTrimmed(cfg, claim);
    NormalizeIsSquash(text);
    var i :| 0 <= i < |cfg.claims| && cfg.claims[i] == claim;
    assert !Hit(text, cfg.claims[i]);
  }

  /** The visible segments of a run before its end are short and clean. */
  lemma VisibleSegments(cfg: Config, claim: string, rs: seq<string>)
    requires Sought(cfg, claim) && AllShowable(cfg.claims, rs)
    ensures Segments(Visible(rs))
    ensures forall i :: 0 <= i < |Visible(rs)| ==> !Contains(Squash(Lower(Visible(rs)[i])), NormalizeText(claim))
    ensures AllEnded(rs)
  {
    hide Visible, Contains, Squash, Lower, NormalizeText, Clean, Blank, Trim, Sought, Boundary;
    forall i | 0 <= i < |Visible(rs)|
      ensures Segment(Visible(rs)[i]) && !Contains(Squash(Lower(Visible(rs)[i])), NormalizeText(claim))
    {
      var s := Visible(rs)[i];
      VisibleAll(rs, s);
      TrimOfBlank(s);
      CleanMeans(cfg, claim, s);
    }
    forall i | 0 <= i < |rs| ensures Ended(rs[i]) { assert Showable(cfg.claims, rs[i]); }
  }

  /** What is visible before the end of a run. */
  lemma ReleasedShows(cfg: Config, chunks: seq<Chunk>, claim: string)
    requires Sought(cfg, claim)
    requires Contains(Squash(Lower(Concat(Visible(Received(cfg, chunks).released)))), NormalizeText(claim))
    ensures CanBeShown(NormalizeText(claim))
  {
    hide Visible, Contains, Squash, Lower, NormalizeText, Received, Segments, AllShowable, Concat, Cut, Sought, CanBeAnswered;
    var rs, n := Received(cfg, chunks).released, NormalizeText(claim);
    ReceivedShows(cfg, chunks);
    ReceivedFits(cfg, chunks);
    SoughtTrimmed(cfg, claim);
    VisibleSegments(cfg, claim, rs);
    VisibleShorter(rs);
    var k := PausesInside(Visible(rs), n);
    assert PausesAt(n, k);
  }

  lemma ContainedLength(s: string, n: string)
    requires Contains(Squash(Lower(s)), n)
    ensures |n| <= |s|
  {
    hide Squash, Lower;
    SquashLength(Lower(s));
  }

  /** What is visible at the end of a run whose text has passed as a whole. */
  lemma PassedShows(cfg: Config, chunks: seq<Chunk>, claim: string)
    requires Sought(cfg, claim)
    requires var p := Received(cfg, chunks);
             && p.status.Going? && Check(cfg.claims, p.guard.complete, cfg.confidence) == Ok
             && Contains(Squash(Lower(Concat(Visible(p.released)) + p.guard.pending)), NormalizeText(claim))
    ensures CanBeAnswered(NormalizeText(claim))
  {
    hide Visible, Contains, Squash, Lower, NormalizeText, Received, Segments, AllShowable, Concat, Cut, Sought, Check,
      Clean, Tight, EndsInClaim;
    var p, n := Received(cfg, chunks), NormalizeText(claim);
    var rs, x := p.released, p.guard.pending;
    ReceivedShows(cfg, chunks);
    ReceivedFits(cfg, chunks);
    ReceivedKeeps(cfg, chunks);
    SoughtTrimmed(cfg, claim);
    CheckMeans(cfg.claims, p.guard.complete, cfg.confidence);
    CleanMeans(cfg, claim, p.guard.complete);
    VisibleSegments(cfg, claim, rs);
    VisibleShorter(rs);
    ContainedLength(Concat(Visible(rs)) + x, n);
    var m, i := GapInClaim(rs, x, n);
    assert forall j :: 0 <= j < m ==> rs[..m][j] == rs[j];
    VisibleSegments(cfg, claim, rs[..m]) by { assert AllShowable(cfg.claims, rs[..m]) by { ShowablePrefix(cfg.claims, rs, m); } }
    FrontCut(Visible(rs[..m]), n, i);
  }

  lemma ShowablePrefix(claims: seq<string>, rs: seq<string>, m: nat)
    requires AllShowable(claims, rs) && m <= |rs|
    ensures AllShowable(claims, rs[..m])
  {
    hide Showable;
  }

  lemma FrontCut(segs: seq<string>, n: string, i: nat)
    requires Segments(segs) && Trimmed(n) && i < |n| && EndsInClaim(Concat(segs), n, i)
    ensures Tight(n, i) && Cut(n[..i + 1])
  {
    hide Squash, Lower, Cut, Concat;
    LowerEmpty();
    LowerChars(Concat(segs));
    SuffixCut(segs, n[..i + 1]);
  }

  lemma PartHeld(a: string, b: string, n: string)
    requires Contains(Squash(Lower(a)), n)
    ensures Contains(Squash(Lower(a + b)), n)
  {
    hide Squash, Lower, Contains;
    LowerConcat(a, b);
    SquashPart("", Lower(a), Lower(b));
    assert "" + Lower(a) + Lower(b) == Lower(a) + Lower(b);
    ContainsTransitive(Squash(Lower(a + b)), Squash(Lower(a)), n);
  }

  /** The visible text at the end of a run that goes on to it. */
  lemma CloseVisible(cfg: Config, p: Progress)
    requires p.status.Going? && Accounted(cfg, p)
    ensures var before, after := Concat(Visible(p.released)), Concat(Visible(Close(cfg, p).progress.released));
            after == before
            || (after == before + p.guard.pending && Check(cfg.claims, p.guard.complete, cfg.confidence) == Ok)
  {
    hide Visible, Concat, EmitAll, Finalized, Check, Trim, Blank;
    CloseReleased(cfg, p);
    FinalizeKeeps(cfg.claims, cfg.confidence, p.guard);
    var step := Finalized(cfg.claims, cfg.confidence, p.guard);
    if step.segments == [] {
      assert p.released + [] == p.released;
    } else {
      assert step.segments == [p.guard.pending];
      VisibleSnoc(p.released, p.guard.pending);
      assert Concat(Visible(p.released)) + "" == Concat(Visible(p.released));
    }
  }

  /** What is visible at the end of any run. */
  lemma ClosedShows(cfg: Config, chunks: seq<Chunk>, claim: string)
    requires Sought(cfg, claim) && Received(cfg, chunks).status.Going?
    requires Contains(Squash(Lower(Concat(Visible(Close(cfg, Received(cfg, chunks)).progress.released)))), NormalizeText(claim))
    ensures CanBeShown(NormalizeText(claim))
    ensures Check(cfg.claims, Received(cfg, chunks).guard.complete, cfg.confidence) == Ok ==> CanBeAnswered(NormalizeText(claim))
  {
    hide Visible, Contains, Squash, Lower, NormalizeText, Received, Concat, Sought, Check, CanBeAnswered, CanBeShown,
      Close, Accounted;
    var p := Received(cfg, chunks);
    ReceivedKeeps(cfg, chunks);
    CloseVisible(cfg, p);
    AnsweredIsShown(NormalizeText(claim));
    if Check(cfg.claims, p.guard.complete, cfg.confidence) == Ok {
      var before := Concat(Visible(p.released));
      if Contains(Squash(Lower(before)), NormalizeText(claim)) { PartHeld(before, p.guard.pending, NormalizeText(claim)); }
      PassedShows(cfg, chunks, claim);
    } else {
      ReleasedShows(cfg, chunks, claim);
    }
  }

  lemma AnsweredIsShown(n: string)
    ensures CanBeAnswered(n) ==> CanBeShown(n)
  {
  }

  /** No run of any configuration shows a claim that a stream cannot pause in. */
  lemma ShownOnlyIf(cfg: Config, chunks: seq<Chunk>, ending: Ending, claim: string)
    requires Sought(cfg, claim) && Contains(NormalizeText(Shown(cfg, chunks, ending)), NormalizeText(claim))
    ensures CanBeShown(NormalizeText(claim))
  {
    hide Visible, Contains, Squash, Lower, NormalizeText, Received, Concat, Sought, CanBeAnswered, CanBeShown, Close;
    var p := Received(cfg, chunks);
    NormalizeIsSquash(Shown(cfg, chunks, ending));
    SoughtTrimmed(cfg, claim);
    LowerEmpty();
    NothingHeld(NormalizeText(claim));
    ReceivedKeeps(cfg, chunks);
    if p.status.Going? && ending.Finished? {
      CloseKeeps(cfg, p);
      ClosedShows(cfg, chunks, claim);
    } else {
      ReleasedShows(cfg, chunks, claim);
    }
  }

  /** No answer holds a claim that cannot lie across a dropped segment. */
  lemma AnsweredOnlyIf(cfg: Config, chunks: seq<Chunk>, ending: Ending, claim: string)
    requires Sought(cfg, claim)
    requires var r := Streamed(cfg, chunks, ending).result;
             r.Generated? && Contains(NormalizeText(r.content), NormalizeText(claim))
    ensures CanBeAnswered(NormalizeText(claim))
  {
    hide Visible, Contains, Squash, Lower, NormalizeText, Received, Concat, Sought, CanBeAnswered, CanBeShown, Close,
      Check, Accounted;
    var p := Received(cfg, chunks);
    NormalizeIsSquash(Streamed(cfg, chunks, ending).result.content);
    ReceivedKeeps(cfg, chunks);
    CloseAccepted(cfg, p);
    ClosedShows(cfg, chunks, claim);
  }

  lemma CloseAccepted(cfg: Config, p: Progress)
    requires p.status.Going? && Accounted(cfg, p) && Close(cfg, p).result.Generated?
    ensures Close(cfg, p).result.content == Concat(Visible(Close(cfg, p).progress.released))
    ensures Check(cfg.claims, p.guard.complete, cfg.confidence) == Ok
  {
    hide Visible, Concat, EmitAll, Check, Trim, Blank;
    CloseKeeps(cfg, p);
  }

  // ----- Runs that do show it

  /** The one claim, full confidence, a sink that takes everything. */
  function Permissive(claim: string): Config {
    Config([claim], 0.9, false, true, [])
  }

  /** The guard keeps nothing back. */
  predicate Waiting(p: Progress) {
    p.status.Going? && p.guard.pending == "" && !p.guard.buffering
  }

  /** What the client has of a run with a sink. */
  function Seen(p: Progress): string {
    Concat(Visible(p.released))
  }

  lemma NormalLength(s: string)
    ensures |NormalizeText(s)| <= |s| && |NormalizeText(s + "\n")| <= |s|
  {
    hide Squash, NormalizeText, Lower;
    NormalizeIsSquash(s);
    NormalizeIsSquash(s + "\n");
    LowerConcat(s, "\n");
    LowerSpaced('\n', "");
    SquashSnoc(Lower(s), '\n');
    SquashLength(Lower(s));
  }

  lemma ShortIsClean(claim: string, s: string)
    requires |NormalizeText(s)| < |NormalizeText(claim)|
    ensures Clean([claim], s)
  {
    hide NormalizeText;
  }

  lemma EmitOne(cfg: Config, p: Progress, segment: string)
    requires p.status.Going?
    ensures EmitAll(cfg, p, [segment]) == Emit(cfg, p, segment)
  {
    hide Emit;
    assert [segment][1..] == [];
  }

  /** A short text that ends a sentence goes straight out. */
  lemma GoesOut(claim: string, p: Progress, piece: string)
    requires Waiting(p) && 0 < |piece| <= PENDING_LIMIT && Boundary(piece[|piece| - 1])
    requires |NormalizeText(piece)| < |NormalizeText(claim)| && |p.guard.complete| + |piece| <= CANDIDATE_LIMIT
    ensures var q := Receive(Permissive(claim), p, Chunk(piece, false));
            && Waiting(q) && q.guard.complete == p.guard.complete + piece && q.released == p.released + [piece]
            && Seen(q) == Seen(p) + if Blank(piece) then "" else piece
  {
    hide Check, Trim, LastBoundary, NormalizeText, Clean, Blank, Concat, Visible;
    var cfg := Permissive(claim);
    ShortIsClean(claim, piece);
    CheckMeans(cfg.claims, piece, 0.9);
    VisibleSnoc(p.released, piece);
    assert "" + piece == piece;
    var n := LastBoundary(piece);
    assert n == |piece| && piece[..n] == piece && piece[n..] == "";
    var step := Added(cfg.claims, p.guard, piece);
    assert step.segments == [piece] && step.decision == Ok;
    EmitOne(cfg, p.(guard := step.next, released := p.released + [piece]), piece);
  }

  lemma ReceivedSnoc(cfg: Config, chunks: seq<Chunk>, c: Chunk)
    requires Received(cfg, chunks).status.Going?
    ensures Received(cfg, chunks + [c]) == Receive(cfg, Received(cfg, chunks), c)
  {
    hide Receive;
    assert (chunks + [c])[..|chunks|] == chunks;
  }

  /** A piece as a chunk: its last white space becomes a line break, which ends a sentence. */
  function AsChunk(u: string): string
    requires u != ""
  {
    if IsSpace(u[|u| - 1]) then u[..|u| - 1] + "\n" else u
  }

  lemma ChunkOfPiece(u: string, k: nat)
    requires 0 < k <= |u| && PieceEnds(u, k)
    ensures var c := AsChunk(u[..k]);
            |c| == k && Boundary(c[k - 1]) && !Blank(c) && SameButSpace(c, u[..k])
  {
    var c := AsChunk(u[..k]);
    var j :| 0 <= j < k && !IsSpace(u[..k][j]);
    assert c[j] == u[j];
  }

  lemma SameButSpaceAppend(a: string, b: string, c: string, d: string)
    requires SameButSpace(a, b) && SameButSpace(c, d)
    ensures SameButSpace(a + c, b + d)
  {
    hide IsSpace;
  }

  /** Text that can be cut goes out piece by piece. */
  lemma {:induction false} FrontGoesOut(claim: string, chunks: seq<Chunk>, u: string) returns (more: seq<Chunk>, t: string)
    requires Cut(u) && |u| < |NormalizeText(claim)|
    requires var p := Received(Permissive(claim), chunks);
             Waiting(p) && |p.guard.complete| + |u| <= CANDIDATE_LIMIT
    ensures var p, q := Received(Permissive(claim), chunks), Received(Permissive(claim), chunks + more);
            && Waiting(q) && q.guard.complete == p.guard.complete + t && Seen(q) == Seen(p) + t
            && SameButSpace(t, u)
    decreases |u|
  {
    hide Received, Receive, NormalizeText, Cut, Blank, IsSpace, Seen, Permissive, Boundary;
    var p := Received(Permissive(claim), chunks);
    if u == "" {
      more, t := [], "";
      assert chunks + [] == chunks && Seen(p) + "" == Seen(p) && p.guard.complete + "" == p.guard.complete;
    } else {
      var k := FirstPiece(u);
      var c := AsChunk(u[..k]);
      ChunkOfPiece(u, k);
      NormalLength(c);
      GoesOut(claim, p, c);
      ReceivedSnoc(Permissive(claim), chunks, Chunk(c, false));
      var next, rest := FrontGoesOut(claim, chunks + [Chunk(c, false)], u[k..]);
      more, t := [Chunk(c, false)] + next, c + rest;
      assert chunks + more == chunks + [Chunk(c, false)] + next;
      assert p.guard.complete + c + rest == p.guard.complete + t && Seen(p) + c + rest == Seen(p) + t;
      SameButSpaceAppend(c, u[..k], rest, u[k..]);
      assert u == u[..k] + u[k..];
    }
  }

  /** Text that differs from lowered text in its white space only. */
  lemma NormalSame(x: string, y: string)
    requires SameButSpace(x, y) && Lower(y) == y
    ensures NormalizeText(x) == Squash(y)
  {
    hide Squash, NormalizeText, Lower;
    NormalizeIsSquash(x);
    forall i | 0 <= i < |x| ensures Lower(x)[i] == y[i] || (IsSpace(Lower(x)[i]) && IsSpace(y[i])) {
      assert Lower(y)[i] == y[i];
    }
    SameSquash(Lower(x), y);
  }

  lemma LowerPart(n: string, i: nat, j: nat)
    requires Lower(n) == n && i <= j <= |n|
    ensures Lower(n[i..j]) == n[i..j]
  {
    hide Lower;
    forall k | 0 <= k < j - i ensures LowerChar(n[i..j][k]) == n[i..j][k] { assert LowerChar(n[i + k]) == n[i + k]; }
  }

  lemma OpenedWaits(claim: string)
    ensures var p := Received(Permissive(claim), []); Waiting(p) && p.guard.complete == "" && Seen(p) == ""
  {
  }

  /** A claim a stream can pause in: the front goes out, then the rest. */
  lemma PausedReceived(claim: string, k: nat) returns (chunks: seq<Chunk>)
    requires NormalizeText(claim) != "" && PausesAt(NormalizeText(claim), k)
    ensures var p := Received(Permissive(claim), chunks);
            p.status.Going? && Seen(p) == p.guard.complete && NormalizeText(p.guard.complete) == NormalizeText(claim)
  {
    hide Received, Receive, NormalizeText, Cut, Blank, Seen, Permissive, Waiting, IsSpace, Unfinished, ClosedRest;
    var n := NormalizeText(claim);
    OpenedWaits(claim);
    var more, t := FrontGoesOut(claim, [], n[..k]);
    assert [] + more == more && "" + t == t;
    var last := ClosedRest(n, k);
    ClosedRestFits(claim, k);
    var p := Received(Permissive(claim), more);
    WaitingGoes(p);
    GoesOut(claim, p, last);
    chunks := more + [Chunk(last, false)];
    ReceivedSnoc(Permissive(claim), more, Chunk(last, false));
    WaitingGoes(Received(Permissive(claim), chunks));
    TwoParts(claim, t, k, last);
  }

  /** What is left of the claim, with a line break where it does not end a sentence. */
  function ClosedRest(n: string, k: nat): string
    requires k <= |n|
  {
    if Unfinished(n) == 0 then n[k..] else n[k..] + "\n"
  }

  lemma ClosedRestFits(claim: string, k: nat)
    requires PausesAt(NormalizeText(claim), k)
    ensures var n := NormalizeText(claim); var last := ClosedRest(n, k);
            && (last == n[k..] || last == n[k..] + "\n")
            && |last| == |n| - k + Unfinished(n) && Boundary(last[|last| - 1])
            && |NormalizeText(last)| < |n| && !Blank(last)
  {
    hide NormalizeText, Cut, Blank;
    var rest := NormalizeText(claim)[k..];
    NormalLength(rest);
    NormalizeFixed(claim);
    NotBlank(rest, |rest| - 1);
    NotBlank(rest + "\n", |rest| - 1);
  }

  lemma WaitingGoes(p: Progress)
    ensures Waiting(p) ==> p.status.Going?
  {
  }

  lemma TwoParts(claim: string, t: string, k: nat, last: string)
    requires var n := NormalizeText(claim); k <= |n| && SameButSpace(t, n[..k]) && (last == n[k..] || last == n[k..] + "\n")
    ensures NormalizeText(t + last) == NormalizeText(claim)
  {
    hide NormalizeText, Squash, Lower;
    var n := NormalizeText(claim);
    NormalizeFixed(claim);
    SameButSpaceAppend(t, n[..k], n[k..], n[k..]);
    assert n[..k] + n[k..] == n;
    var x := t + n[k..];
    NormalSame(x, n);
    if last != n[k..] {
      assert t + last == x + "\n";
      NormalizeIsSquash(x);
      NormalizeIsSquash(x + "\n");
      LowerConcat(x, "\n");
      LowerSpaced('\n', "");
      SquashSnoc(Lower(x), '\n');
    }
  }

  lemma RejectedShows(cfg: Config, p: Progress)
    requires p.status.Going? && Check(cfg.claims, p.guard.complete, cfg.confidence) != Ok
    ensures Close(cfg, p).progress.offered == p.offered
  {
    hide Check;
  }

  lemma ItselfIsRejected(claim: string, text: string)
    requires NormalizeText(text) == NormalizeText(claim) != ""
    ensures Check([claim], text, 0.9) != Ok
  {
    hide NormalizeText, Check, Contains;
    EmptyNormal();
    OccursIn(NormalizeText(claim), NormalizeText(claim), 0);
    CheckMeans([claim], text, 0.9);
    assert Hit(text, [claim][0]);
  }

  /** Its parts stay shown although the text they make is rejected in the end. */
  lemma PausedShown(claim: string, k: nat) returns (chunks: seq<Chunk>)
    requires NormalizeText(claim) != "" && PausesAt(NormalizeText(claim), k)
    ensures forall ending :: Contains(NormalizeText(Shown(Permissive(claim), chunks, ending)), NormalizeText(claim))
  {
    hide NormalizeText, Received, Contains, Close, Check, PausesAt, Concat, Visible;
    var cfg := Permissive(claim);
    chunks := PausedReceived(claim, k);
    var p := Received(cfg, chunks);
    ReceivedKeeps(cfg, chunks);
    ItselfIsRejected(claim, p.guard.complete);
    RejectedShows(cfg, p);
    OccursIn(NormalizeText(claim), NormalizeText(claim), 0);
    assert Concat(p.offered) == p.guard.complete;
  }

  // ----- Runs whose answer holds it

  /** The last chunk, whose end may wait for the end of the stream. */
  lemma TailReceived(claim: string, p: Progress, tail: string)
    requires Waiting(p) && Trimmed(tail)
    ensures var q := Receive(Permissive(claim), p, Chunk(tail, false));
            Seen(q) + q.guard.pending == Seen(p) + tail && (q.guard.pending == "" || !Blank(q.guard.pending))
  {
    hide Check, Trim, LastBoundary, Blank, Concat, Visible, EmitAll, Added, IsSpace;
    var cfg := Permissive(claim);
    var step := Added(cfg.claims, p.guard, tail);
    AddCases(cfg.claims, p.guard, tail);
    AddConserves(cfg.claims, p.guard, tail);
    assert "" + tail == tail;
    EmitAllReleased(cfg, p.(guard := step.next, released := p.released + step.segments), step.segments);
    if step.segments == [] {
      assert p.released + [] == p.released;
      NotBlank(tail, 0);
    } else {
      TailParts(p.released, tail, LastBoundary(tail));
    }
  }

  lemma TailParts(rs: seq<string>, tail: string, b: nat)
    requires Trimmed(tail) && 0 < b <= |tail|
    ensures Concat(Visible(rs + [tail[..b]])) + tail[b..] == Concat(Visible(rs)) + tail
    ensures tail[b..] == "" || !Blank(tail[b..])
  {
    hide Concat, Visible, Blank, IsSpace;
    NotBlank(tail[..b], 0);
    VisibleSnoc(rs, tail[..b]);
    if b < |tail| { NotBlank(tail[b..], |tail| - b - 1); }
    assert tail[..b] + tail[b..] == tail;
    assert Concat(Visible(rs)) + tail[..b] + tail[b..] == Concat(Visible(rs)) + tail;
  }

  lemma TailGoesOut(claim: string, p: Progress, tail: string)
    requires Waiting(p) && Trimmed(tail)
    requires var q := Receive(Permissive(claim), p, Chunk(tail, false));
             q.status.Going? && Close(Permissive(claim), q).result.Generated?
    ensures var q := Receive(Permissive(claim), p, Chunk(tail, false));
            Seen(Close(Permissive(claim), q).progress) == Seen(p) + tail
  {
    hide Receive, Blank, Concat, Visible, Close, Finalized, Trimmed, Waiting;
    var cfg := Permissive(claim);
    TailReceived(claim, p, tail);
    var q := Receive(cfg, p, Chunk(tail, false));
    CloseReleased(cfg, q);
    FinalPart(cfg, q);
    if q.guard.pending == "" {
      assert q.released + [] == q.released && Seen(q) + "" == Seen(q);
    } else {
      VisibleSnoc(q.released, q.guard.pending);
    }
  }

  /** An answered run has released what was kept back. */
  lemma FinalPart(cfg: Config, q: Progress)
    requires q.status.Going? && Close(cfg, q).result.Generated?
    ensures Finalized(cfg.claims, cfg.confidence, q.guard).segments == if q.guard.pending == "" then [] else [q.guard.pending]
  {
    hide Check, Trim, EmitAll;
  }

  lemma PartsSquashed(u: string, tail: string)
    requires u != "" && tail != "" && !IsSpace(u[|u| - 1]) && !IsSpace(tail[0]) && Squash(u + tail) == u + tail
    ensures Squash(u + " " + tail) == u + " " + tail
  {
    hide Squash;
    SquashTight(u, tail);
    SquashLength(u);
    SquashLength(tail);
    assert (u + tail)[..|u|] == u && (Squash(u) + Squash(tail))[..|u|] == Squash(u);
    assert (u + tail)[|u|..] == tail && (Squash(u) + Squash(tail))[|u|..] == Squash(tail);
    NotBlank(u, |u| - 1);
    NotBlank(tail, 0);
    NotBlank(" " + tail, 1);
    SquashApart(u, " " + tail);
    SquashCons(' ', tail);
    assert u + (" " + tail) == u + " " + tail;
  }

  lemma GapHoldsNoClaim(u: string, tail: string)
    requires u != "" && tail != "" && !IsSpace(u[|u| - 1]) && !IsSpace(tail[0])
    ensures !Contains(u + " " + tail, u + tail)
  {
    var w, n := u + " " + tail, u + tail;
    assert w[|u|] == ' ';
    forall j | 0 <= j <= |w| - |n| ensures !OccursAt(w, n, j) {
      if OccursAt(w, n, j) { OccurrenceChars(w, n, j, |u|); }
    }
  }

  lemma GapText(claim: string, t: string, i: nat)
    requires var n := NormalizeText(claim); Trimmed(n) && Tight(n, i) && SameButSpace(t, n[..i + 1])
    ensures var n := NormalizeText(claim);
            && !Contains(NormalizeText(t + "\n" + n[i + 1..]), n)
            && NormalizeText(t + n[i + 1..]) == n
            && !Blank(t + "\n" + n[i + 1..])
  {
    hide NormalizeText, Squash, Lower, Contains;
    var n := NormalizeText(claim);
    var u, tail := n[..i + 1], n[i + 1..];
    NormalizeFixed(claim);
    assert u + tail == n;
    NotBlank(t + "\n" + tail, |t| + 1);
    SameButSpaceAppend(t, u, tail, tail);
    NormalSame(t + tail, n);
    SameButSpaceAppend(t, u, "\n", " ");
    SameButSpaceAppend(t + "\n", u + " ", tail, tail);
    LowerThree(u, " ", tail);
    LowerPart(n, 0, i + 1);
    LowerPart(n, i + 1, |n|);
    LowerSpaced('a', "");
    assert Lower(" ") == " " by { LowerSpaced(' ', ""); }
    NormalSame(t + "\n" + tail, u + " " + tail);
    PartsSquashed(u, tail);
    GapHoldsNoClaim(u, tail);
  }

  /** The front, a line break that is dropped, and the rest. */
  lemma GapAnswered(claim: string, i: nat) returns (chunks: seq<Chunk>)
    requires var n := NormalizeText(claim);
             n != "" && i < |n| && Tight(n, i) && Cut(n[..i + 1]) && |n| < CANDIDATE_LIMIT
    ensures var r := Streamed(Permissive(claim), chunks, Finished);
            && r.result.Generated? && NormalizeText(r.result.content) == NormalizeText(claim)
            && Concat(r.progress.offered) == r.result.content
  {
    hide NormalizeText, Received, Receive, Cut, Blank, Close, Check, Contents, Squash, Lower, Contains, Seen, Waiting,
      Tight, Concat, Visible, Accounted;
    var n, cfg := NormalizeText(claim), Permissive(claim);
    var tail := n[i + 1..];
    NormalizeFixed(claim);
    var front, t := GapFront(claim, i);
    var nl := front + [Chunk("\n", false)];
    GapText(claim, t, i);
    chunks := nl + [Chunk(tail, false)];
    ReceivedText(cfg, nl);
    WaitingGoes(Received(cfg, nl));
    ContentsSnoc(nl, tail);
    assert |t + "\n" + tail| <= CANDIDATE_LIMIT by { assert |t| == i + 1; }
    AgreesWithWholeGuard(cfg, chunks);
    PassesWhole(claim, t + "\n" + tail);
    ReceivedSnoc(cfg, nl, Chunk(tail, false));
    ReceivedKeeps(cfg, chunks);
    TailTrimmed(n, i);
    TailGoesOut(claim, Received(cfg, nl), tail);
    CloseContent(cfg, Received(cfg, chunks));
  }

  lemma TailTrimmed(n: string, i: nat)
    requires Trimmed(n) && Tight(n, i)
    ensures Trimmed(n[i + 1..])
  {
  }

  lemma CloseContent(cfg: Config, p: Progress)
    requires p.status.Going? && Accounted(cfg, p) && Close(cfg, p).result.Generated? && cfg.hasSink
    ensures Close(cfg, p).result.content == Seen(Close(cfg, p).progress) == Concat(Close(cfg, p).progress.offered)
  {
    hide Visible, Concat, Check, EmitAll, Trim, Blank, Close;
    CloseAccepted(cfg, p);
    CloseKeeps(cfg, p);
  }

  lemma PassesWhole(claim: string, text: string)
    requires !Contains(NormalizeText(text), NormalizeText(claim))
    ensures Check([claim], text, 0.9) == Ok
  {
    hide Contains, NormalizeText, Check;
    CheckMeans([claim], text, 0.9);
  }

  lemma ContentsSnoc(chunks: seq<Chunk>, text: string)
    ensures Contents(chunks + [Chunk(text, false)]) == Contents(chunks) + text
  {
    assert (chunks + [Chunk(text, false)])[..|chunks|] == chunks;
  }

  lemma GapFront(claim: string, i: nat) returns (front: seq<Chunk>, t: string)
    requires var n := NormalizeText(claim);
             n != "" && i < |n| && Tight(n, i) && Cut(n[..i + 1]) && |n| < CANDIDATE_LIMIT
    ensures var p := Received(Permissive(claim), front + [Chunk("\n", false)]);
            && Waiting(p) && p.guard.complete == t + "\n" && Seen(p) == t
            && SameButSpace(t, NormalizeText(claim)[..i + 1])
  {
    hide NormalizeText, Received, Receive, Cut, Blank, Seen, Waiting;
    OpenedWaits(claim);
    front, t := FrontGoesOut(claim, [], NormalizeText(claim)[..i + 1]);
    assert [] + front == front && "" + t == t;
    var p := Received(Permissive(claim), front);
    NormalLength("");
    assert "" + "\n" == "\n";
    GoesOut(claim, p, "\n");
    assert Blank("\n") by { LineBreakIsBlank(); }
    assert Seen(p) + "" == Seen(p);
    WaitingGoes(p);
    ReceivedSnoc(Permissive(claim), front, Chunk("\n", false));
  }

  lemma LineBreakIsBlank()
    ensures Blank("\n")
  {
  }

  // ----- The exact conditions

  /** The run ends with an answer that holds the normalised claim. */
  predicate AnswersWith(cfg: Config, chunks: seq<Chunk>, ending: Ending, n: string) {
    var r := Streamed(cfg, chunks, ending).result;
    r.Generated? && Contains(NormalizeText(r.content), n)
  }

  /** Some run, with the claim among the forbidden ones, ends with an answer that holds it, if and only if
      a sentence ends inside the claim with no white space after it, the part up to there can go out piece by
      piece, and the claim is shorter than the longest text the guard takes. */
  lemma AnsweredExactly(claim: string)
    requires NormalizeText(claim) != ""
    ensures (exists cfg: Config, chunks, ending :: claim in cfg.claims && AnswersWith(cfg, chunks, ending, NormalizeText(claim)))
            <==> CanBeAnswered(NormalizeText(claim))
  {
    hide NormalizeText, Contains, Streamed, Cut, Tight;
    var n := NormalizeText(claim);
    forall cfg: Config, chunks, ending | claim in cfg.claims && AnswersWith(cfg, chunks, ending, n) ensures CanBeAnswered(n) {
      AnsweredOnlyIf(cfg, chunks, ending, claim);
    }
    if CanBeAnswered(n) {
      var i :| 0 <= i < |n| && Tight(n, i) && Cut(n[..i + 1]);
      var chunks := GapAnswered(claim, i);
      OccursIn(n, n, 0);
      assert claim in Permissive(claim).claims && AnswersWith(Permissive(claim), chunks, Finished, n);
    }
  }

  /** Some run, with the claim among the forbidden ones, shows it to the client, if and only if an answer can
      hold it or a stream can pause inside it. */
  lemma ShownExactly(claim: string)
    requires NormalizeText(claim) != ""
    ensures (exists cfg: Config, chunks, ending ::
               claim in cfg.claims && Contains(NormalizeText(Shown(cfg, chunks, ending)), NormalizeText(claim)))
            <==> CanBeShown(NormalizeText(claim))
  {
    hide NormalizeText, Contains, Shown, Streamed, Cut, Tight, PausesAt;
    var n := NormalizeText(claim);
    forall cfg: Config, chunks, ending | claim in cfg.claims && Contains(NormalizeText(Shown(cfg, chunks, ending)), n)
      ensures CanBeShown(n)
    {
      ShownOnlyIf(cfg, chunks, ending, claim);
    }
    if CanBeShown(n) {
      var chunks := ShownBy(claim);
      assert claim in Permissive(claim).claims && Contains(NormalizeText(Shown(Permissive(claim), chunks, Finished)), n);
    }
  }

  lemma ShownBy(claim: string) returns (chunks: seq<Chunk>)
    requires NormalizeText(claim) != "" && CanBeShown(NormalizeText(claim))
    ensures Contains(NormalizeText(Shown(Permissive(claim), chunks, Finished)), NormalizeText(claim))
  {
    hide NormalizeText, Contains, Streamed, Cut, Tight, PausesAt;
    var n := NormalizeText(claim);
    OccursIn(n, n, 0);
    if CanBeAnswered(n) {
      var i :| 0 <= i < |n| && Tight(n, i) && Cut(n[..i + 1]);
      chunks := GapAnswered(claim, i);
    } else {
      var k :| 0 <= k < |n| && PausesAt(n, k);
      chunks := PausedShown(claim, k);
    }
  }

  // ----- Claims of ordinary length

  /** One word whose only boundary is its last character. */
  predicate Tame(w: string) {
    OneWord(w) && forall i :: 0 <= i < |w| - 1 ==> !EndsSentence(w[i])
  }

  lemma CutPauses(u: string)
    requires Cut(u) && u != ""
    ensures exists i :: 0 <= i < |u| && Pause(u[i]) && (i == |u| - 1 || Cut(u[i + 1..]))
  {
    var k := FirstPiece(u);
    assert Pause(u[k - 1]);
  }

  /** No tame claim can be taken apart. */
  lemma TameIsSafe(n: string)
    requires Tame(n)
    ensures !CanBeShown(n) && !CanBeAnswered(n)
  {
    hide Cut;
    forall k | 0 < k < |n| ensures !Cut(n[..k]) {
      if Cut(n[..k]) {
        CutPauses(n[..k]);
      }
    }
  }

  /** A claim no longer than a segment can be taken apart wherever a word or a sentence ends inside it. */
  lemma ShortCut(n: string, k: nat)
    requires Trimmed(n) && 0 < k < |n| <= PENDING_LIMIT && Pause(n[k - 1])
    ensures Cut(n[..k]) && PausesAt(n, k)
  {
    hide Cut, Blank;
    NotBlank(n[..k], 0);
    OnePiece(n[..k]);
  }

  /** For claims of up to 4096 characters the conditions are these: a claim can be shown unless it is tame,
      and it can be in an answer when a sentence ends inside it with no white space after it. */
  lemma ShortClaims(n: string)
    requires Trimmed(n) && |n| <= PENDING_LIMIT
    ensures CanBeShown(n) <==> !Tame(n)
    ensures CanBeAnswered(n) <==> exists i :: 0 <= i < |n| && Tight(n, i)
  {
    hide Cut;
    if Tame(n) { TameIsSafe(n); }
    else {
      var i := BreakOf(n);
      ShortCut(n, i + 1);
    }
    if i :| 0 <= i < |n| && Tight(n, i) { ShortCut(n, i + 1); }
  }

  lemma BreakOf(w: string) returns (i: nat)
    requires Trimmed(w) && !Tame(w)
    ensures i < |w| - 1 && Pause(w[i])
  {
    if OneWord(w) {
      i :| 0 <= i < |w| - 1 && EndsSentence(w[i]);
    } else {
      i :| 0 <= i < |w| && IsSpace(w[i]);
    }
  }

  /** Nothing forbidden becomes visible: whatever the chunks, the confidence, the sink's answers and
      the way the run ends, a tame claim never occurs in the text the client was handed, read as it is or
      normalised. */
  lemma NeverShown(cfg: Config, chunks: seq<Chunk>, ending: Ending, claim: string)
    requires claim in cfg.claims && Tame(NormalizeText(claim))
    ensures !Contains(NormalizeText(Shown(cfg, chunks, ending)), NormalizeText(claim))
    ensures !Contains(Lower(Shown(cfg, chunks, ending)), NormalizeText(claim))
  {
    hide NormalizeText, Contains, Shown, Lower, CanBeShown, CanBeAnswered;
    TameIsSafe(NormalizeText(claim));
    NormalContains(Shown(cfg, chunks, ending), NormalizeText(claim));
    if Contains(NormalizeText(Shown(cfg, chunks, ending)), NormalizeText(claim)) { ShownOnlyIf(cfg, chunks, ending, claim); }
  }

  /** Of the claims of up to 4096 characters exactly the tame ones are safe: no run of any configuration
      shows the claim if and only if no stream can pause inside it. */
  lemma SafeExactlyWhenTame(claim: string)
    requires var n := NormalizeText(claim); n != "" && |n| <= PENDING_LIMIT
    ensures Tame(NormalizeText(claim)) <==>
            forall cfg: Config, chunks, ending :: claim in cfg.claims ==>
              !Contains(NormalizeText(Shown(cfg, chunks, ending)), NormalizeText(claim))
  {
    hide NormalizeText, Contains, Tame, Shown, CanBeShown, CanBeAnswered, Tight;
    NormalizeFixed(claim);
    ShownExactly(claim);
    ShortClaims(NormalizeText(claim));
  }

  /** Of the claims of up to 4096 characters those can be in an answer that was allowed in which a sentence
      ends with no white space after it. */
  lemma AnswerMayHoldClaim(claim: string)
    requires var n := NormalizeText(claim); n != "" && |n| <= PENDING_LIMIT
    ensures var n := NormalizeText(claim);
            (exists i :: 0 <= i < |n| && Tight(n, i)) <==>
            exists cfg: Config, chunks, ending :: claim in cfg.claims && AnswersWith(cfg, chunks, ending, n)
  {
    hide NormalizeText, AnswersWith, Tame, CanBeShown, CanBeAnswered, Tight;
    NormalizeFixed(claim);
    AnsweredExactly(claim);
    ShortClaims(NormalizeText(claim));
  }
}
