/** The lexical retriever (retriever.go). Here a string is one character per code point. */
module Retrieval {
  import opened Text
  import opened Normalization
  import opened Chunking
  import opened Sorting

  datatype Status = Ready | Disabled | Indexing | Failed

  datatype Document = Document(
    id: string, name: string, spaceID: string, status: Status, review: string, chunks: seq<Chunk>)

  datatype Hit = Hit(documentID: string, documentName: string, chunkID: string, ordinal: int, score: nat, text: string)

  datatype Result = Result(hit: Hit, rank: nat)

  // ----- Scores

  /** ASCII part of unicode.IsPunct. */
  predicate IsPunct(c: char) {
    c in "!\"#%&'()*,-./:;?@[\\]_{}"
  }

  predicate Separates(c: char) {
    IsSpace(c) || IsPunct(c)
  }

  function TokenLength(s: string): (n: nat)
    ensures n <= |s|
    ensures s != "" && !Separates(s[0]) ==> n > 0
  {
    if s == "" || Separates(s[0]) then 0 else 1 + TokenLength(s[1..])
  }

  /** strings.FieldsFunc: the maximal runs between separators. */
  function Tokenize(s: string): seq<string>
    decreases |s|
  {
    if s == "" then []
    else if Separates(s[0]) then Tokenize(s[1..])
    else [s[..TokenLength(s)]] + Tokenize(s[TokenLength(s)..])
  }

  predicate ContainsCJK(s: string) {
    exists i :: 0 <= i < |s| && 0x4e00 as char <= s[i] <= 0x9fff as char
  }

  function CountFound(text: string, tokens: seq<string>): nat {
    if tokens == [] then 0
    else (if tokens[0] != "" && Contains(text, tokens[0]) then 1 else 0) + CountFound(text, tokens[1..])
  }

  function Score(text: string, query: string, tokens: seq<string>): nat {
    var normal := Lower(Trim(text));
    if normal == "" then 0
    else
      CountFound(normal, tokens)
      + (if ContainsCJK(query) && Contains(normal, query) then 2 else 0)
      + (if Contains(normal, query) then 2 else 0)
  }

  /** Which of the tokens occur. */
  function FoundAt(text: string, tokens: seq<string>): set<int> {
    set i | 0 <= i < |tokens| && tokens[i] != "" && Contains(text, tokens[i])
  }

  lemma CountSnoc(text: string, tokens: seq<string>, t: string)
    ensures CountFound(text, tokens + [t]) == CountFound(text, tokens) + if t != "" && Contains(text, t) then 1 else 0
  {
    hide Contains;
    if tokens != [] {
      CountSnoc(text, tokens[1..], t);
      assert (tokens + [t])[1..] == tokens[1..] + [t];
    }
  }

  lemma {:induction false} CountIsFound(text: string, tokens: seq<string>)
    ensures CountFound(text, tokens) == |FoundAt(text, tokens)|
  {
    hide Contains, CountFound;
    if tokens == [] {
      NothingFound(text);
    } else {
      var n := |tokens| - 1;
      var before := tokens[..n];
      CountIsFound(text, before);
      CountSnoc(text, before, tokens[n]);
      assert tokens == before + [tokens[n]];
      assert FoundAt(text, tokens) == FoundAt(text, before) + if tokens[n] != "" && Contains(text, tokens[n]) then {n} else {};
    }
  }

  lemma NothingFound(text: string)
    ensures CountFound(text, []) == 0 && FoundAt(text, []) == {}
  {
  }

  /** A chunk scores one for each token that occurs in it, two more if the whole query does, and two more again
      if the query then has a character from U+4E00 to U+9FFF; a blank chunk scores nothing. */
  lemma ScoreMeans(text: string, query: string, tokens: seq<string>)
    ensures var normal := Lower(Trim(text));
            && (Blank(text) ==> Score(text, query, tokens) == 0)
            && (!Blank(text) ==>
                  Score(text, query, tokens) - |FoundAt(normal, tokens)| ==
                    if !Contains(normal, query) then 0
                    else if exists i :: 0 <= i < |query| && 19968 <= query[i] as int <= 40959 then 4 else 2)
  {
    hide Trim, Lower, Contains, CountFound, FoundAt, Blank;
    TrimOfBlank(text);
    CountIsFound(Lower(Trim(text)), tokens);
    CJKCodes(query);
  }

  lemma CJKCodes(s: string)
    ensures ContainsCJK(s) <==> exists i :: 0 <= i < |s| && 19968 <= s[i] as int <= 40959
  {
  }

  /** The separators by their codes. */
  lemma SeparatorCodes(c: char)
    ensures var n := c as int;
            Separates(c) <==>
              || 9 <= n <= 13 || 32 <= n <= 35 || 37 <= n <= 42 || 44 <= n <= 47 || n == 58 || n == 59 || n == 63 || n == 64
              || 91 <= n <= 93 || n == 95 || n == 123 || n == 125
  {
    var punct := "!\"#%&'()*,-./:;?@[\\]_{}";
    assert punct[..] == ['!', '\"', '#', '%', '&', '\'', '(', ')', '*', ',', '-', '.', '/', ':', ';', '?', '@', '[', '\\', ']', '_', '{', '}'];
  }

  method ScoreChunk(text: string, query: string, tokens: seq<string>) returns (score: nat)
    ensures score == Score(text, query, tokens)
  {
    hide Trim, Lower, Contains;
    var normal := Lower(Trim(text));
    if normal == "" { return 0; }
    score := 0;
    for i := 0 to |tokens|
      invariant CountFound(normal, tokens) == score + CountFound(normal, tokens[i..])
    {
      assert tokens[i..][1..] == tokens[i + 1..];
      if tokens[i] != "" && Contains(normal, tokens[i]) { score := score + 1; }
    }
    assert tokens[|tokens|..] == [];
    if ContainsCJK(query) && Contains(normal, query) { score := score + 2; }
    if Contains(normal, query) { score := score + 2; }
  }

  // ----- Candidates

  function HitOf(doc: Document, chunk: Chunk, score: nat): Hit {
    Hit(doc.id, doc.name, chunk.id, chunk.ordinal, score, chunk.text)
  }

  function HitsOf(doc: Document, chunks: seq<Chunk>, query: string): seq<Hit>
    decreases |chunks|
  {
    if chunks == [] then []
    else
      var score := Score(chunks[0].text, query, Tokenize(query));
      (if score > 0 then [HitOf(doc, chunks[0], score)] else []) + HitsOf(doc, chunks[1..], query)
  }

  function Candidates(docs: seq<Document>, query: string): seq<Hit>
    decreases |docs|
  {
    if docs == [] then []
    else (if docs[0].status.Ready? then HitsOf(docs[0], docs[0].chunks, query) else []) + Candidates(docs[1..], query)
  }

  /** A higher score goes first, then the smaller document id, then the smaller ordinal. */
  predicate Better(a: Hit, b: Hit) {
    if a.score != b.score then a.score > b.score
    else if a.documentID != b.documentID then StringLess(a.documentID, b.documentID)
    else ChunkOrdinal(a.chunkID) < ChunkOrdinal(b.chunkID)
  }

  lemma BetterStrict(a: Hit, b: Hit)
    ensures !(Better(a, b) && Better(b, a))
    ensures Better(a, b) || Better(b, a) ||
              (a.score == b.score && a.documentID == b.documentID && ChunkOrdinal(a.chunkID) == ChunkOrdinal(b.chunkID))
  {
    hide StringLess, ChunkOrdinal;
    StringLessStrict(a.documentID, b.documentID);
  }

  lemma BetterTransitive(a: Hit, b: Hit, c: Hit)
    requires Better(a, b) && Better(b, c)
    ensures Better(a, c)
  {
    hide StringLess, ChunkOrdinal;
    StringLessStrict(a.documentID, b.documentID);
    StringLessStrict(b.documentID, c.documentID);
    if StringLess(a.documentID, b.documentID) && StringLess(b.documentID, c.documentID) {
      StringLessTransitive(a.documentID, b.documentID, c.documentID);
      StringLessStrict(a.documentID, c.documentID);
    }
  }

  // ----- The search

  function Normalized(query: string): string {
    Trim(Lower(query))
  }

  /** No element is behind one that it beats. */
  predicate NoInversion(hits: seq<Hit>) {
    forall i, j :: 0 <= i < j < |hits| ==> !Better(hits[j], hits[i])
  }

  /** What every correct sort of the candidates, cut at the limit, may return. */
  ghost predicate TopOf(hits: seq<Hit>, candidates: seq<Hit>, limit: nat) {
    exists rest ::
      && multiset(hits + rest) == multiset(candidates) && NoInversion(hits + rest)
      && |hits| == if |candidates| < limit then |candidates| else limit
  }

  function Hits(results: seq<Result>): (hits: seq<Hit>)
    ensures |hits| == |results|
    ensures forall i :: 0 <= i < |hits| ==> hits[i] == results[i].hit
  {
    if results == [] then [] else [results[0].hit] + Hits(results[1..])
  }

  predicate Ranked(results: seq<Result>) {
    forall i :: 0 <= i < |results| ==> results[i].rank == i + 1
  }

  lemma {:induction false} InsertKeeps(x: Hit, hits: seq<Hit>)
    requires NoInversion(hits)
    ensures NoInversion(Insert(Better, x, hits)) && multiset(Insert(Better, x, hits)) == multiset(hits) + multiset{x}
  {
    hide Better, NoInversion;
    InsertStep(Better, x, hits);
    if hits == [] {
      OneNoInversion(x);
    } else {
      var tail := hits[1..];
      assert hits == [hits[0]] + tail;
      BetterStrict(x, hits[0]);
      TailNoInversion(hits);
      if Better(x, hits[0]) {
        forall y | y in hits ensures Better(y, x) ==> Better(y, hits[0]) {
          if Better(y, x) { BetterTransitive(y, x, hits[0]); }
        }
        BetterStrict(hits[0], hits[0]);
        assert forall y :: y in hits ==> y == hits[0] || y in tail;
        ConsNoInversion(x, hits);
      } else {
        InsertKeeps(x, tail);
        InsertElements(Better, x, tail);
        ConsNoInversion(hits[0], Insert(Better, x, tail));
      }
    }
  }

  lemma OneNoInversion(x: Hit)
    ensures NoInversion([x] + []) && NoInversion([])
  {
  }

  lemma TailNoInversion(hits: seq<Hit>)
    requires NoInversion(hits) && hits != []
    ensures NoInversion(hits[1..]) && forall y :: y in hits[1..] ==> !Better(y, hits[0])
  {
    hide Better;
    assert forall i :: 0 <= i < |hits| - 1 ==> hits[1..][i] == hits[i + 1];
  }

  lemma ConsNoInversion(x: Hit, hits: seq<Hit>)
    requires NoInversion(hits) && forall y :: y in hits ==> !Better(y, x)
    ensures NoInversion([x] + hits)
  {
    hide Better;
  }

  lemma {:induction false} SortKeeps(hits: seq<Hit>)
    ensures NoInversion(SortBy(Better, hits)) && multiset(SortBy(Better, hits)) == multiset(hits)
  {
    hide Better, NoInversion, Insert;
    if hits == [] {
      OneNoInversion(Hit("", "", "", 0, 0, ""));
    } else {
      SortKeeps(hits[1..]);
      InsertKeeps(hits[0], SortBy(Better, hits[1..]));
      assert hits == [hits[0]] + hits[1..];
    }
  }

  lemma CandidatesStep(docs: seq<Document>, i: nat, query: string)
    requires i < |docs|
    ensures Candidates(docs[i..], query) ==
            (if docs[i].status.Ready? then HitsOf(docs[i], docs[i].chunks, query) else []) + Candidates(docs[i + 1..], query)
  {
    hide HitsOf;
    assert docs[i..][1..] == docs[i + 1..];
  }

  lemma HitsStep(doc: Document, chunks: seq<Chunk>, j: nat, query: string)
    requires j < |chunks|
    ensures var score := Score(chunks[j].text, query, Tokenize(query));
            HitsOf(doc, chunks[j..], query) ==
            (if score > 0 then [HitOf(doc, chunks[j], score)] else []) + HitsOf(doc, chunks[j + 1..], query)
  {
    hide Score, Tokenize;
    assert chunks[j..][1..] == chunks[j + 1..];
  }

  method CollectCandidates(docs: seq<Document>, query: string, tokens: seq<string>) returns (candidates: seq<Hit>)
    requires tokens == Tokenize(query)
    ensures candidates == Candidates(docs, query)
  {
    hide Candidates, HitsOf, Score, Tokenize;
    candidates := [];
    assert docs[0..] == docs;
    for i := 0 to |docs|
      invariant Candidates(docs, query) == candidates + Candidates(docs[i..], query)
    {
      CandidatesStep(docs, i, query);
      if docs[i].status.Ready? {
        ghost var before := candidates;
        var chunks := docs[i].chunks;
        assert chunks[0..] == chunks;
        for j := 0 to |chunks|
          invariant before + HitsOf(docs[i], chunks, query) == candidates + HitsOf(docs[i], chunks[j..], query)
        {
          HitsStep(docs[i], chunks, j, query);
          var score := ScoreChunk(chunks[j].text, query, tokens);
          if score > 0 { candidates := candidates + [HitOf(docs[i], chunks[j], score)]; }
        }
        NoHits(docs[i], query);
        assert chunks[|chunks|..] == [];
        assert candidates == before + HitsOf(docs[i], chunks, query);
      }
    }
    assert docs[|docs|..] == [];
    NoCandidates(query);
  }

  lemma NoHits(doc: Document, query: string)
    ensures HitsOf(doc, [], query) == []
  {
  }

  lemma NoCandidates(query: string)
    ensures Candidates([], query) == []
  {
  }

  method RankFromOne(top: seq<Hit>) returns (results: seq<Result>)
    ensures Ranked(results) && Hits(results) == top
  {
    results := [];
    for i := 0 to |top|
      invariant |results| == i && Ranked(results)
      invariant forall k :: 0 <= k < i ==> results[k].hit == top[k]
    {
      results := results + [Result(top[i], i + 1)];
    }
  }

  lemma CutIsTop(sorted: seq<Hit>, candidates: seq<Hit>, limit: nat)
    requires NoInversion(sorted) && multiset(sorted) == multiset(candidates) && |sorted| == |candidates|
    ensures TopOf(if |sorted| > limit then sorted[..limit] else sorted, candidates, limit)
  {
    hide NoInversion;
    var top := if |sorted| > limit then sorted[..limit] else sorted;
    assert top + sorted[|top|..] == sorted;
  }

  /** Higher scores first; among equal scores smaller document ids in byte order, then smaller ordinals. */
  predicate BestFirst(hits: seq<Hit>) {
    forall i, j :: 0 <= i < j < |hits| ==>
      && hits[i].score >= hits[j].score
      && (hits[i].score == hits[j].score ==>
            || StringLess(hits[i].documentID, hits[j].documentID)
            || (hits[i].documentID == hits[j].documentID && ChunkOrdinal(hits[i].chunkID) <= ChunkOrdinal(hits[j].chunkID)))
  }

  /** As many of the candidates as the limit allows, and of those left out none with a higher score. */
  ghost predicate BestOf(hits: seq<Hit>, candidates: seq<Hit>, limit: nat) {
    && |hits| == (if |candidates| < limit then |candidates| else limit)
    && multiset(hits) <= multiset(candidates)
    && forall c, h :: h in hits && multiset(candidates)[c] > multiset(hits)[c] ==> c.score <= h.score
  }

  lemma NoInversionIsBestFirst(hits: seq<Hit>)
    requires NoInversion(hits)
    ensures BestFirst(hits)
  {
    hide StringLess, ChunkOrdinal;
    forall i, j | 0 <= i < j < |hits|
      ensures hits[i].score >= hits[j].score
      ensures hits[i].score == hits[j].score ==>
                || StringLess(hits[i].documentID, hits[j].documentID)
                || (hits[i].documentID == hits[j].documentID && ChunkOrdinal(hits[i].chunkID) <= ChunkOrdinal(hits[j].chunkID))
    {
      assert !Better(hits[j], hits[i]);
      StringLessStrict(hits[i].documentID, hits[j].documentID);
    }
  }

  lemma PartBestFirst(hits: seq<Hit>, rest: seq<Hit>)
    requires BestFirst(hits + rest)
    ensures BestFirst(hits)
    ensures forall c, h :: c in rest && h in hits ==> c.score <= h.score
  {
    hide StringLess, ChunkOrdinal;
    var all := hits + rest;
    assert forall i :: 0 <= i < |hits| ==> all[i] == hits[i];
    forall c, h | c in rest && h in hits ensures c.score <= h.score {
      var i :| 0 <= i < |hits| && hits[i] == h;
      var j :| 0 <= j < |rest| && rest[j] == c;
      assert all[i] == h && all[|hits| + j] == c;
    }
  }

  /** What a correct search returns, in terms of the scores. */
  lemma TopIsBestFirst(hits: seq<Hit>, candidates: seq<Hit>, limit: nat)
    requires TopOf(hits, candidates, limit)
    ensures BestFirst(hits) && BestOf(hits, candidates, limit)
  {
    hide NoInversion, BestFirst;
    var rest :| multiset(hits + rest) == multiset(candidates) && NoInversion(hits + rest)
             && |hits| == if |candidates| < limit then |candidates| else limit;
    NoInversionIsBestFirst(hits + rest);
    PartBestFirst(hits, rest);
    assert multiset(hits + rest) == multiset(hits) + multiset(rest);
    forall c, h | h in hits && multiset(candidates)[c] > multiset(hits)[c] ensures c.score <= h.score {
      assert c in multiset(rest);
    }
  }

  /** Retriever.Search: for any documents, the best candidates in a correct order, ranked from one. */
  method Search(docs: seq<Document>, query: string, limit: int) returns (results: seq<Result>)
    ensures forall i :: 0 <= i < |results| ==> results[i].rank == i + 1
    ensures limit <= 0 || Normalized(query) == "" ==> results == []
    ensures limit > 0 && Normalized(query) != "" ==> TopOf(Hits(results), Candidates(docs, Normalized(query)), limit)
    ensures BestFirst(Hits(results))
    ensures limit > 0 && Normalized(query) != "" ==> BestOf(Hits(results), Candidates(docs, Normalized(query)), limit)
  {
    hide Candidates, SortBy, Tokenize, Trim, Lower, NoInversion, Hits, TopOf, BestFirst, BestOf;
    NothingFirst();
    if limit <= 0 { return []; }
    var normal := Trim(Lower(query));
    if normal == "" { return []; }
    var candidates := CollectCandidates(docs, normal, Tokenize(normal));
    SortKeeps(candidates);
    var sorted := SortBy(Better, candidates);
    CutIsTop(sorted, candidates, limit);
    results := RankFromOne(if |sorted| > limit then sorted[..limit] else sorted);
    TopIsBestFirst(Hits(results), candidates, limit);
  }

  lemma NothingFirst()
    ensures Hits([]) == [] && BestFirst([])
  {
  }

  /** No candidate that was left out beats one that was returned, and nothing is returned twice as often as it is found. */
  lemma NothingBetterOmitted(hits: seq<Hit>, candidates: seq<Hit>, limit: nat, omitted: Hit, returned: Hit)
    requires TopOf(hits, candidates, limit)
    requires returned in hits && multiset(candidates)[omitted] > multiset(hits)[omitted]
    ensures !Better(omitted, returned)
  {
    hide Better;
    var rest :| multiset(hits + rest) == multiset(candidates) && NoInversion(hits + rest)
             && |hits| == if |candidates| < limit then |candidates| else limit;
    assert multiset(hits + rest) == multiset(hits) + multiset(rest);
    assert omitted in multiset(rest);
    var i :| 0 <= i < |hits| && hits[i] == returned;
    var j :| 0 <= j < |rest| && rest[j] == omitted;
    assert (hits + rest)[i] == returned && (hits + rest)[|hits| + j] == omitted;
  }

  // ----- White space around a query

  lemma {:induction false} TrimLeftPadded(a: string, s: string)
    requires Blank(a)
    ensures TrimLeft(a + s) == TrimLeft(s)
  {
    hide TrimLeft;
    if a == "" {
      assert a + s == s;
    } else {
      TrimLeftPadded(a[1..], s);
      TrimLeftCons(a[0], a[1..] + s);
      assert IsSpace(a[0]);
      assert a + s == [a[0]] + (a[1..] + s);
    }
  }

  lemma {:induction false} TrimRightPadded(s: string, b: string)
    requires Blank(b)
    ensures TrimRight(s + b) == TrimRight(s)
    decreases |b|
  {
    hide TrimRight;
    if b == "" {
      assert s + b == s;
    } else {
      var k := |b| - 1;
      TrimRightPadded(s, b[..k]);
      TrimRightStep(s + b[..k], b[k]);
      assert IsSpace(b[k]);
      assert s + b == s + b[..k] + [b[k]];
    }
  }

  lemma TrimPadded(a: string, t: string, b: string)
    requires Blank(a) && Blank(b) && (t != "" ==> !IsSpace(t[0]) && !IsSpace(t[|t| - 1]))
    ensures Trim(a + t + b) == t
  {
    hide TrimLeft, TrimRight, Blank, IsSpace;
    assert a + t + b == a + (t + b);
    TrimLeftPadded(a, t + b);
    if t == "" {
      TrimLeftPadded(b, "");
      TrimLeftSame("");
      TrimRightSame("");
      assert t + b == b + "" && t + b == b;
    } else {
      TrimLeftSame(t + b);
      TrimRightPadded(t, b);
      TrimRightSame(t);
    }
  }

  lemma TrimEnds(s: string)
    ensures var t := Trim(s); t != "" ==> !IsSpace(t[0]) && !IsSpace(t[|t| - 1])
  {
    hide TrimLeft, TrimRight, IsSpace;
    var l := TrimLeft(s);
    if Trim(s) != "" { assert Trim(s)[0] == l[0]; }
  }

  /** Trimming a query first makes no difference to what is searched for. */
  lemma NormalizedTrim(query: string)
    ensures Normalized(Trim(query)) == Normalized(query)
    ensures Normalized(query) == "" <==> Trim(query) == ""
  {
    hide Trim, Lower, Blank;
    var t := Trim(query);
    var a, b := TrimParts(query);
    LowerConcat(a + t, b);
    LowerConcat(a, t);
    LowerBlank(a);
    LowerBlank(b);
    LowerBlank("");
    TrimEnds(query);
    LowerEnds(t);
    TrimPadded(Lower(a), Lower(t), Lower(b));
    EmptyIsBlank();
    TrimPadded("", Lower(t), "");
    assert "" + Lower(t) + "" == Lower(t);
  }

  lemma EmptyIsBlank()
    ensures Blank("")
  {
  }

  lemma LowerEnds(t: string)
    requires t != "" ==> !IsSpace(t[0]) && !IsSpace(t[|t| - 1])
    ensures var l := Lower(t); l != "" ==> !IsSpace(l[0]) && !IsSpace(l[|l| - 1])
  {
    hide Lower;
  }

  /** A chunk is a candidate exactly when a token or the whole query occurs in it. */
  lemma {:induction false} ScorePositive(text: string, query: string, tokens: seq<string>)
    ensures Score(text, query, tokens) > 0 <==>
            Lower(Trim(text)) != "" &&
            (Contains(Lower(Trim(text)), query) || exists i :: 0 <= i < |tokens| && tokens[i] != "" && Contains(Lower(Trim(text)), tokens[i]))
  {
    hide Trim, Lower, Contains;
    CountPositive(Lower(Trim(text)), tokens);
  }

  lemma {:induction false} CountPositive(text: string, tokens: seq<string>)
    ensures CountFound(text, tokens) > 0 <==> exists i :: 0 <= i < |tokens| && tokens[i] != "" && Contains(text, tokens[i])
  {
    hide Contains;
    if tokens != [] {
      var rest := tokens[1..];
      CountPositive(text, rest);
      assert forall i :: 0 <= i < |rest| ==> rest[i] == tokens[i + 1];
    }
  }

  // ----- Tokens

  /** A token begins where a character that is no separator follows a separator or the start. */
  function TokenStarts(s: string, separated: bool): nat {
    if s == "" then 0
    else (if separated && !Separates(s[0]) then 1 else 0) + TokenStarts(s[1..], Separates(s[0]))
  }

  function WithoutSeparators(s: string): string {
    if s == "" then "" else (if Separates(s[0]) then "" else [s[0]]) + WithoutSeparators(s[1..])
  }

  predicate IsToken(t: string) {
    t != "" && forall i :: 0 <= i < |t| ==> !Separates(t[i])
  }

  /** The first run of characters that are no separators. */
  lemma {:induction false} TokenLengthMeans(s: string)
    ensures var n := TokenLength(s);
            (forall i :: 0 <= i < n ==> !Separates(s[i])) && (n < |s| ==> Separates(s[n]))
  {
    hide Separates;
    if s != "" && !Separates(s[0]) { TokenLengthMeans(s[1..]); }
  }

  lemma WithoutStep(c: char, s: string)
    ensures WithoutSeparators([c] + s) == (if Separates(c) then "" else [c]) + WithoutSeparators(s)
    ensures WithoutSeparators("") == ""
  {
    hide Separates;
    assert ([c] + s)[1..] == s;
  }

  lemma {:induction false} WithoutToken(t: string, rest: string)
    requires forall i :: 0 <= i < |t| ==> !Separates(t[i])
    ensures WithoutSeparators(t + rest) == t + WithoutSeparators(rest)
  {
    hide Separates, WithoutSeparators;
    if t == "" {
      assert t + rest == rest;
    } else {
      WithoutToken(t[1..], rest);
      WithoutStep(t[0], t[1..] + rest);
      assert t + rest == [t[0]] + (t[1..] + rest);
      assert [t[0]] + (t[1..] + WithoutSeparators(rest)) == t + WithoutSeparators(rest);
    }
  }

  lemma {:induction false} StartsInToken(t: string, rest: string)
    requires forall i :: 0 <= i < |t| ==> !Separates(t[i])
    ensures TokenStarts(t + rest, false) == TokenStarts(rest, false)
  {
    hide Separates;
    if t == "" {
      assert t + rest == rest;
    } else {
      StartsInToken(t[1..], rest);
      assert (t + rest)[1..] == t[1..] + rest;
    }
  }

  lemma SeparatedStarts(s: string)
    requires s == "" || Separates(s[0])
    ensures TokenStarts(s, true) == TokenStarts(s, false)
  {
  }

  /** The tokens are the maximal runs between separators: none is empty or has a separator inside, together they
      are the text without its separators, and there are as many as there are starts. */
  lemma {:induction false} TokensMean(s: string)
    ensures var tokens := Tokenize(s);
            && (forall i :: 0 <= i < |tokens| ==> IsToken(tokens[i]))
            && Concat(tokens) == WithoutSeparators(s)
            && |tokens| == TokenStarts(s, true)
    decreases |s|
  {
    hide Separates, TokenLength, Concat;
    if s == "" {
      NothingJoined();
    } else if Separates(s[0]) {
      TokensMean(s[1..]);
      assert "" + WithoutSeparators(s[1..]) == WithoutSeparators(s[1..]);
    } else {
      var n := TokenLength(s);
      TokenLengthMeans(s);
      assert s == s[..n] + s[n..];
      WithoutToken(s[..n], s[n..]);
      StartsInToken(s[..n], s[n..]);
      TokensMean(s[n..]);
      SeparatedStarts(s[n..]);
      FirstToken(s[..n], Tokenize(s[n..]));
      assert TokenStarts(s, true) == 1 + TokenStarts(s, false);
    }
  }

  lemma NothingJoined()
    ensures Concat([]) == ""
  {
  }

  lemma FirstToken(t: string, rest: seq<string>)
    ensures Concat([t] + rest) == t + Concat(rest)
  {
    assert ([t] + rest)[1..] == rest;
  }
}
