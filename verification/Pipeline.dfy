/** The retrieval pipeline (pipeline.go) without a vector searcher, as the services wire it. */
module Pipelines {
  import opened Text
  import opened Normalization
  import opened Chunking
  import opened Sorting
  import opened Retrieval

  // ----- Documents whose chunks were cut by the knowledge store

  predicate OwnChunks(doc: Document) {
    && |doc.chunks| <= MAX_INT
    && forall k :: 0 <= k < |doc.chunks| ==>
         var c := doc.chunks[k]; c.id == ChunkID(doc.id, k + 1) && c.documentID == doc.id && c.ordinal == k + 1
  }

  predicate StoredDocuments(docs: seq<Document>) {
    && (forall i :: 0 <= i < |docs| ==> OwnChunks(docs[i]))
    && (forall i, j :: 0 <= i < j < |docs| ==> docs[i].id != docs[j].id)
  }

  /** A hit made from one of the chunks of one of the documents. */
  predicate FromChunk(h: Hit, docs: seq<Document>, i: nat, k: nat) {
    && i < |docs| && k < |docs[i].chunks| && docs[i].status.Ready?
    && h.documentID == docs[i].id && h.documentName == docs[i].name
    && h.chunkID == docs[i].chunks[k].id && h.ordinal == docs[i].chunks[k].ordinal && h.text == docs[i].chunks[k].text
    && h.score > 0
  }

  predicate FromDocuments(h: Hit, docs: seq<Document>, query: string) {
    exists i, k :: 0 <= i < |docs| && 0 <= k < |docs[i].chunks| && FromChunk(h, docs, i, k)
                   && h.score == Score(docs[i].chunks[k].text, query, Tokenize(query))
  }

  lemma {:induction false} HitsAreFromChunks(doc: Document, chunks: seq<Chunk>, query: string, h: Hit)
    ensures h in HitsOf(doc, chunks, query) <==>
            exists k :: 0 <= k < |chunks| && h == HitOf(doc, chunks[k], Score(chunks[k].text, query, Tokenize(query))) && h.score > 0
    decreases |chunks|
  {
    hide Score, Tokenize, HitsOf;
    if chunks == [] {
      NoHits(doc, query);
    } else {
      HitsStep(doc, chunks, 0, query);
      assert chunks[0..] == chunks;
      var rest := chunks[1..];
      assert forall k :: 0 <= k < |rest| ==> rest[k] == chunks[k + 1];
      HitsAreFromChunks(doc, rest, query, h);
      if k :| 0 <= k < |rest| && h == HitOf(doc, rest[k], Score(rest[k].text, query, Tokenize(query))) && h.score > 0 {
        assert h == HitOf(doc, chunks[k + 1], Score(chunks[k + 1].text, query, Tokenize(query)));
      }
      if k :| 0 <= k < |chunks| && h == HitOf(doc, chunks[k], Score(chunks[k].text, query, Tokenize(query))) && h.score > 0 {
        if k > 0 { assert h == HitOf(doc, rest[k - 1], Score(rest[k - 1].text, query, Tokenize(query))); }
      }
    }
  }

  /** The candidates are exactly the chunks of ready documents with a positive score. */
  lemma {:induction false} CandidatesExactly(docs: seq<Document>, query: string, h: Hit)
    ensures h in Candidates(docs, query) <==> FromDocuments(h, docs, query)
    decreases |docs|
  {
    hide Score, Tokenize, HitsOf, Candidates;
    if docs == [] {
      NoCandidates(query);
    } else {
      var rest := docs[1..];
      CandidatesStep(docs, 0, query);
      assert docs[0..] == docs;
      HitsAreFromChunks(docs[0], docs[0].chunks, query, h);
      CandidatesExactly(rest, query, h);
      if FromDocuments(h, rest, query) { FromLater(h, docs, query); }
      if h in Candidates(docs, query) && h !in Candidates(rest, query) {
        var chunks := docs[0].chunks;
        var k :| 0 <= k < |chunks| && h == HitOf(docs[0], chunks[k], Score(chunks[k].text, query, Tokenize(query))) && h.score > 0;
        assert FromChunk(h, docs, 0, k);
      }
      if FromDocuments(h, docs, query) && !FromDocuments(h, rest, query) { FromFirst(h, docs, query); }
    }
  }

  lemma FromLater(h: Hit, docs: seq<Document>, query: string)
    requires docs != [] && FromDocuments(h, docs[1..], query)
    ensures FromDocuments(h, docs, query)
  {
    hide Score, Tokenize;
    var i, k :| 0 <= i < |docs| - 1 && 0 <= k < |docs[1..][i].chunks| && FromChunk(h, docs[1..], i, k)
                && h.score == Score(docs[1..][i].chunks[k].text, query, Tokenize(query));
    assert docs[1..][i] == docs[i + 1];
    assert FromChunk(h, docs, i + 1, k);
  }

  lemma FromTail(h: Hit, docs: seq<Document>, query: string, i: nat, k: nat)
    requires 0 < i && FromChunk(h, docs, i, k) && h.score == Score(docs[i].chunks[k].text, query, Tokenize(query))
    ensures FromDocuments(h, docs[1..], query)
  {
    hide Score, Tokenize;
    assert docs[1..][i - 1] == docs[i];
    assert FromChunk(h, docs[1..], i - 1, k);
  }

  lemma FromFirst(h: Hit, docs: seq<Document>, query: string)
    requires docs != [] && FromDocuments(h, docs, query) && !FromDocuments(h, docs[1..], query)
    ensures docs[0].status.Ready? && h in HitsOf(docs[0], docs[0].chunks, query)
  {
    hide Score, Tokenize, HitsOf;
    var i, k :| 0 <= i < |docs| && 0 <= k < |docs[i].chunks| && FromChunk(h, docs, i, k)
                && h.score == Score(docs[i].chunks[k].text, query, Tokenize(query));
    if i > 0 {
      FromTail(h, docs, query, i, k);
    } else {
      HitsAreFromChunks(docs[0], docs[0].chunks, query, h);
      assert h == HitOf(docs[0], docs[0].chunks[k], Score(docs[0].chunks[k].text, query, Tokenize(query)));
    }
  }

  lemma PlaceOf(docs: seq<Document>, query: string, h: Hit) returns (i: nat, k: nat)
    requires StoredDocuments(docs) && h in Candidates(docs, query)
    ensures i < |docs| && k < |docs[i].chunks| && k < MAX_INT
    ensures h == HitOf(docs[i], docs[i].chunks[k], Score(docs[i].chunks[k].text, query, Tokenize(query)))
    ensures h.score > 0 && h.documentID == docs[i].id && h.chunkID == ChunkID(docs[i].id, k + 1) && h.ordinal == k + 1
  {
    hide Score, Tokenize, Candidates, ChunkID;
    CandidatesExactly(docs, query, h);
    i, k :| 0 <= i < |docs| && 0 <= k < |docs[i].chunks| && FromChunk(h, docs, i, k)
            && h.score == Score(docs[i].chunks[k].text, query, Tokenize(query));
    assert OwnChunks(docs[i]);
  }

  lemma SameID(docs: seq<Document>, i: nat, j: nat)
    requires StoredDocuments(docs) && i < |docs| && j < |docs| && docs[i].id == docs[j].id
    ensures i == j
  {
  }

  /** In stored documents a chunk id, or a document id with an ordinal, names one candidate. */
  lemma SameChunkSameHit(docs: seq<Document>, query: string, a: Hit, b: Hit)
    requires StoredDocuments(docs) && a in Candidates(docs, query) && b in Candidates(docs, query)
    ensures a.chunkID == b.chunkID ==> a == b
    ensures ChunkOrdinal(a.chunkID) == ChunkOrdinal(b.chunkID) && a.documentID == b.documentID ==> a == b
  {
    hide Score, Tokenize, Candidates, ChunkID, ChunkOrdinal, StoredDocuments;
    var i, k := PlaceOf(docs, query, a);
    var j, l := PlaceOf(docs, query, b);
    ChunkIDInjective(docs[i].id, k + 1, docs[j].id, l + 1);
    OrdinalReadBack(docs[i].id, k + 1);
    OrdinalReadBack(docs[j].id, l + 1);
    if docs[i].id == docs[j].id { SameID(docs, i, j); }
  }

  lemma BetterIsTotal(docs: seq<Document>, query: string, hits: seq<Hit>)
    requires StoredDocuments(docs) && forall h :: h in hits ==> h in Candidates(docs, query)
    ensures StrictTotal(Better, hits)
  {
    hide Candidates, Better, StoredDocuments;
    forall x, y | x in hits && y in hits ensures !(Better(x, y) && Better(y, x)) { BetterStrict(x, y); }
    forall x, y | x in hits && y in hits && x != y ensures Better(x, y) || Better(y, x) {
      BetterStrict(x, y);
      SameChunkSameHit(docs, query, x, y);
    }
    forall x, y, z | x in hits && y in hits && z in hits && Better(x, y) && Better(y, z) ensures Better(x, z) {
      BetterTransitive(x, y, z);
    }
  }

  lemma {:induction false} HitsDistinct(doc: Document, chunks: seq<Chunk>, query: string)
    requires forall i, j :: 0 <= i < j < |chunks| ==> chunks[i].id != chunks[j].id
    ensures NoDuplicates(HitsOf(doc, chunks, query))
    decreases |chunks|
  {
    hide Score, Tokenize, HitsOf;
    if chunks == [] {
      NoHits(doc, query);
    } else {
      HitsStep(doc, chunks, 0, query);
      assert chunks[0..] == chunks;
      var rest := chunks[1..];
      assert forall i :: 0 <= i < |rest| ==> rest[i] == chunks[i + 1];
      HitsDistinct(doc, rest, query);
      var score := Score(chunks[0].text, query, Tokenize(query));
      var first := if score > 0 then [HitOf(doc, chunks[0], score)] else [];
      forall h | h in first ensures h !in HitsOf(doc, rest, query) {
        if h in HitsOf(doc, rest, query) { HitsAreFromChunks(doc, rest, query, h); }
      }
      DistinctAppend(first, HitsOf(doc, rest, query));
    }
  }

  lemma {:induction false} CandidatesDistinct(docs: seq<Document>, query: string)
    requires StoredDocuments(docs)
    ensures NoDuplicates(Candidates(docs, query))
    decreases |docs|
  {
    hide Score, Tokenize, HitsOf, Candidates, ChunkID;
    if docs == [] {
      NoCandidates(query);
    } else {
      CandidatesStep(docs, 0, query);
      assert docs[0..] == docs;
      var rest := docs[1..];
      assert forall i :: 0 <= i < |rest| ==> rest[i] == docs[i + 1];
      CandidatesDistinct(rest, query);
      OwnChunksDistinct(docs[0]);
      HitsDistinct(docs[0], docs[0].chunks, query);
      var first := if docs[0].status.Ready? then HitsOf(docs[0], docs[0].chunks, query) else [];
      forall h | h in first ensures h !in Candidates(rest, query) {
        HitsAreFromChunks(docs[0], docs[0].chunks, query, h);
        if h in Candidates(rest, query) { CandidatesExactly(rest, query, h); }
      }
      DistinctAppend(first, Candidates(rest, query));
    }
  }

  lemma OwnChunksDistinct(doc: Document)
    requires OwnChunks(doc)
    ensures forall i, j :: 0 <= i < j < |doc.chunks| ==> doc.chunks[i].id != doc.chunks[j].id
  {
    hide ChunkID;
    forall i, j | 0 <= i < j < |doc.chunks| ensures doc.chunks[i].id != doc.chunks[j].id {
      ChunkIDInjective(doc.id, i + 1, doc.id, j + 1);
    }
  }

  // ----- One right answer

  function Cut(hits: seq<Hit>, limit: nat): seq<Hit> {
    if |hits| > limit then hits[..limit] else hits
  }

  /** The best candidates of a list of documents, best first. */
  function BestHits(docs: seq<Document>, query: string, limit: int): seq<Hit> {
    if limit <= 0 || Normalized(query) == "" then []
    else Cut(SortBy(Better, Candidates(docs, Normalized(query))), limit)
  }

  lemma SortedAscends(docs: seq<Document>, query: string, hits: seq<Hit>)
    requires StoredDocuments(docs) && multiset(hits) == multiset(Candidates(docs, query)) && NoInversion(hits)
    ensures Ascending(Better, hits)
  {
    hide Candidates, Better, StoredDocuments;
    var all := Candidates(docs, query);
    CandidatesDistinct(docs, query);
    forall i, j | 0 <= i < j < |hits| ensures Better(hits[i], hits[j]) {
      InCandidates(hits, all, hits[i]);
      InCandidates(hits, all, hits[j]);
      TwiceCounts(hits, i, j);
      DistinctCounts(all, hits[i]);
      BetterStrict(hits[i], hits[j]);
      SameChunkSameHit(docs, query, hits[i], hits[j]);
    }
  }

  lemma InCandidates(hits: seq<Hit>, all: seq<Hit>, h: Hit)
    requires multiset(hits) == multiset(all)
    ensures h in hits <==> h in all
  {
    assert h in hits <==> h in multiset(hits);
    assert h in all <==> h in multiset(all);
  }

  lemma TwiceCounts(hits: seq<Hit>, i: nat, j: nat)
    requires i < j < |hits|
    ensures hits[i] == hits[j] ==> multiset(hits)[hits[i]] >= 2
  {
    if hits[i] == hits[j] {
      assert hits == hits[..j] + [hits[j]] + hits[j + 1..];
      assert hits[..j][i] == hits[i];
      assert hits[i] in multiset(hits[..j]);
    }
  }

  lemma {:induction false} DistinctCounts(all: seq<Hit>, h: Hit)
    requires NoDuplicates(all)
    ensures multiset(all)[h] <= 1
  {
    if all != [] {
      var rest := all[1..];
      assert all == [all[0]] + rest;
      assert forall i :: 0 <= i < |rest| ==> rest[i] == all[i + 1];
      DistinctCounts(rest, h);
      if h == all[0] { assert h !in rest; }
    }
  }

  /** On stored documents every correct search returns the same hits. */
  lemma TopIsBest(docs: seq<Document>, query: string, limit: int, hits: seq<Hit>)
    requires StoredDocuments(docs) && limit > 0 && Normalized(query) != ""
    requires TopOf(hits, Candidates(docs, Normalized(query)), limit)
    ensures hits == BestHits(docs, query, limit)
  {
    hide Candidates, Better, StoredDocuments, SortBy, Normalized, NoInversion;
    var all := Candidates(docs, Normalized(query));
    var rest :| multiset(hits + rest) == multiset(all) && NoInversion(hits + rest)
             && |hits| == if |all| < limit then |all| else limit;
    var sorted := SortBy(Better, all);
    SortKeeps(all);
    SortedAscends(docs, Normalized(query), hits + rest);
    SortedAscends(docs, Normalized(query), sorted);
    SameSorting(docs, Normalized(query), hits + rest, sorted);
    assert hits == (hits + rest)[..|hits|];
    SameSize(sorted, all);
    SameSize(hits + rest, all);
  }

  lemma SameSize(a: seq<Hit>, b: seq<Hit>)
    requires multiset(a) == multiset(b)
    ensures |a| == |b|
  {
    assert |multiset(a)| == |a| && |multiset(b)| == |b|;
  }

  lemma SameSorting(docs: seq<Document>, query: string, a: seq<Hit>, b: seq<Hit>)
    requires StoredDocuments(docs)
    requires multiset(a) == multiset(Candidates(docs, query)) && multiset(b) == multiset(Candidates(docs, query))
    requires Ascending(Better, a) && Ascending(Better, b)
    ensures a == b
  {
    hide Candidates, Better, StoredDocuments, Ascending, StrictTotal;
    var all := Candidates(docs, query);
    forall h ensures (h in a <==> h in all) && (h in b <==> h in all) {
      InCandidates(a, all, h);
      InCandidates(b, all, h);
    }
    BetterIsTotal(docs, query, a);
    MembersAreElements(a, b);
    AscendingUnique(Better, a, b);
  }

  // ----- Requests and responses

  datatype Mode = Lexical | Vector | Hybrid | Auto

  datatype Request = Request(query: string, limit: int, mode: Mode, spaceID: string, minScore: real)

  datatype Explanation = Explanation(documentID: string, documentName: string, chunkID: string, score: nat)

  datatype Reason =
    | Answered | QueryEmpty | NoReadyDocuments | NoReviewActiveDocuments
    | BelowThreshold | ReviewGatedDocuments | VectorUnavailable | NoMatchingChunks

  datatype Response = Response(results: seq<Result>, explanations: seq<Explanation>, reason: Reason, gatedCount: nat)

  function Keep(docs: seq<Document>, keep: Document -> bool): seq<Document> {
    if docs == [] then [] else (if keep(docs[0]) then [docs[0]] else []) + Keep(docs[1..], keep)
  }

  predicate IsReady(d: Document) {
    d.status.Ready?
  }

  predicate IsActive(d: Document) {
    d.review == "" || d.review == "active"
  }

  function InSpace(spaceID: string): Document -> bool {
    (d: Document) => spaceID == "" || d.spaceID == spaceID
  }

  /** The documents a search may answer from. */
  function Relevant(docs: seq<Document>, spaceID: string): seq<Document> {
    Keep(Keep(Keep(docs, IsReady), IsActive), InSpace(spaceID))
  }

  function Gated(docs: seq<Document>, spaceID: string): seq<Document> {
    Keep(Keep(Keep(docs, IsReady), (d: Document) => !IsActive(d)), InSpace(spaceID))
  }

  function LimitOf(request: Request): nat {
    if request.limit <= 0 then 3 else request.limit
  }

  function AtLeast(hits: seq<Hit>, minScore: real): seq<Hit> {
    if hits == [] then [] else (if hits[0].score as real >= minScore then [hits[0]] else []) + AtLeast(hits[1..], minScore)
  }

  /** What the retriever alone finds on the relevant documents, without the scores below the threshold. */
  function Expected(docs: seq<Document>, request: Request): seq<Hit> {
    var hits := if request.mode.Vector? then [] else BestHits(Relevant(docs, request.spaceID), request.query, LimitOf(request));
    if request.minScore > 0.0 then AtLeast(hits, request.minScore) else hits
  }

  lemma KeepStep(docs: seq<Document>, i: nat, keep: Document -> bool)
    requires i < |docs|
    ensures Keep(docs[i..], keep) == (if keep(docs[i]) then [docs[i]] else []) + Keep(docs[i + 1..], keep)
  {
    assert docs[i..][1..] == docs[i + 1..];
  }

  // ----- Which documents are searched

  predicate InSpaceOf(d: Document, spaceID: string) {
    spaceID == "" || d.spaceID == spaceID
  }

  /** A document a search may answer from: ready, not held back by review, and of the space. */
  predicate Searchable(d: Document, spaceID: string) {
    d.status == Ready && (d.review == "" || d.review == "active") && InSpaceOf(d, spaceID)
  }

  predicate HeldBack(d: Document, spaceID: string) {
    d.status == Ready && d.review != "" && d.review != "active" && InSpaceOf(d, spaceID)
  }

  lemma {:induction false} KeepExactly(docs: seq<Document>, keep: Document -> bool, d: Document)
    ensures d in Keep(docs, keep) <==> d in docs && keep(d)
  {
    hide Keep;
    if docs == [] {
      KeepNone(keep);
    } else {
      assert docs[0..] == docs;
      KeepStep(docs, 0, keep);
      KeepExactly(docs[1..], keep, d);
      assert docs == [docs[0]] + docs[1..];
    }
  }

  lemma RelevantExactly(docs: seq<Document>, spaceID: string, d: Document)
    ensures d in Relevant(docs, spaceID) <==> d in docs && Searchable(d, spaceID)
    ensures d in Gated(docs, spaceID) <==> d in docs && HeldBack(d, spaceID)
  {
    hide Keep;
    var ready := Keep(docs, IsReady);
    KeepExactly(docs, IsReady, d);
    KeepExactly(ready, IsActive, d);
    KeepExactly(Keep(ready, IsActive), InSpace(spaceID), d);
    var inactive := (d: Document) => !IsActive(d);
    KeepExactly(ready, inactive, d);
    KeepExactly(Keep(ready, inactive), InSpace(spaceID), d);
  }

  function CountHeldBack(docs: seq<Document>, spaceID: string): nat {
    if docs == [] then 0 else (if HeldBack(docs[0], spaceID) then 1 else 0) + CountHeldBack(docs[1..], spaceID)
  }

  lemma {:induction false} GatedCount(docs: seq<Document>, spaceID: string)
    ensures |Gated(docs, spaceID)| == CountHeldBack(docs, spaceID)
  {
    hide Keep;
    var inactive := (d: Document) => !IsActive(d);
    KeepNone(IsReady);
    KeepNone(inactive);
    KeepNone(InSpace(spaceID));
    if docs != [] {
      var rest := docs[1..];
      GatedCount(rest, spaceID);
      KeepCons(docs, IsReady);
      if docs[0].status.Ready? {
        KeepFront(docs[0], Keep(rest, IsReady), inactive);
        if inactive(docs[0]) { KeepFront(docs[0], Keep(Keep(rest, IsReady), inactive), InSpace(spaceID)); }
      }
    }
  }

  lemma KeepCons(docs: seq<Document>, keep: Document -> bool)
    requires docs != []
    ensures Keep(docs, keep) == if keep(docs[0]) then [docs[0]] + Keep(docs[1..], keep) else Keep(docs[1..], keep)
  {
    hide Keep;
    assert docs[0..] == docs;
    KeepStep(docs, 0, keep);
  }

  lemma KeepFront(d: Document, rest: seq<Document>, keep: Document -> bool)
    ensures Keep([d] + rest, keep) == if keep(d) then [d] + Keep(rest, keep) else Keep(rest, keep)
  {
    hide Keep;
    KeepCons([d] + rest, keep);
    assert ([d] + rest)[1..] == rest;
  }

  method Filter(docs: seq<Document>, keep: Document -> bool) returns (kept: seq<Document>)
    ensures kept == Keep(docs, keep)
  {
    hide Keep;
    kept := [];
    assert docs[0..] == docs;
    for i := 0 to |docs|
      invariant Keep(docs, keep) == kept + Keep(docs[i..], keep)
    {
      KeepStep(docs, i, keep);
      if keep(docs[i]) { kept := kept + [docs[i]]; }
    }
    assert docs[|docs|..] == [];
    KeepNone(keep);
  }

  lemma KeepNone(keep: Document -> bool)
    ensures Keep([], keep) == []
  {
  }

  lemma {:induction false} KeepMembers(docs: seq<Document>, keep: Document -> bool)
    requires StoredDocuments(docs)
    ensures StoredDocuments(Keep(docs, keep))
    ensures forall d :: d in Keep(docs, keep) ==> d in docs
  {
    hide OwnChunks, Keep;
    if docs == [] {
      KeepNone(keep);
    } else {
      KeepStep(docs, 0, keep);
      assert docs[0..] == docs;
      var rest := docs[1..];
      assert forall i :: 0 <= i < |rest| ==> rest[i] == docs[i + 1];
      KeepMembers(rest, keep);
      assert forall d :: d in rest ==> d in docs && d.id != docs[0].id;
      var kept := Keep(docs, keep);
      if keep(docs[0]) {
        assert kept == [docs[0]] + Keep(rest, keep);
      } else {
        assert kept == Keep(rest, keep);
      }
    }
  }

  lemma RelevantStored(docs: seq<Document>, spaceID: string)
    requires StoredDocuments(docs)
    ensures StoredDocuments(Relevant(docs, spaceID))
  {
    hide StoredDocuments, Keep;
    KeepMembers(docs, IsReady);
    KeepMembers(Keep(docs, IsReady), IsActive);
    KeepMembers(Keep(Keep(docs, IsReady), IsActive), InSpace(spaceID));
  }

  // ----- The index of chunks

  /** The chunk an id stands for; in Go's map a later document overwrites an earlier one. */
  method IndexDocuments(docs: seq<Document>) returns (index: map<string, Chunk>)
    ensures StoredDocuments(docs) ==>
              forall i, k :: 0 <= i < |docs| && 0 <= k < |docs[i].chunks| ==>
                docs[i].chunks[k].id in index && index[docs[i].chunks[k].id] == docs[i].chunks[k]
  {
    hide ChunkID, StoredDocuments;
    index := map[];
    for i := 0 to |docs|
      invariant StoredDocuments(docs) ==> IndexedBefore(index, docs, i, 0)
    {
      var chunks := docs[i].chunks;
      for k := 0 to |chunks|
        invariant StoredDocuments(docs) ==> IndexedBefore(index, docs, i, k)
      {
        if StoredDocuments(docs) { IndexStep(index, docs, i, k); }
        index := index[chunks[k].id := chunks[k]];
      }
    }
  }

  /** All chunks of the first documents and the first chunks of the next one are indexed. */
  predicate IndexedBefore(index: map<string, Chunk>, docs: seq<Document>, i: nat, k: nat) {
    forall j, l :: 0 <= j < |docs| && 0 <= l < |docs[j].chunks| && (j < i || (j == i && l < k)) ==>
      docs[j].chunks[l].id in index && index[docs[j].chunks[l].id] == docs[j].chunks[l]
  }

  lemma IndexStep(index: map<string, Chunk>, docs: seq<Document>, i: nat, k: nat)
    requires StoredDocuments(docs) && i < |docs| && k < |docs[i].chunks| && IndexedBefore(index, docs, i, k)
    ensures IndexedBefore(index[docs[i].chunks[k].id := docs[i].chunks[k]], docs, i, k + 1)
  {
    hide ChunkID;
    var c := docs[i].chunks[k];
    assert OwnChunks(docs[i]);
    forall j, l | 0 <= j < |docs| && 0 <= l < |docs[j].chunks| && docs[j].chunks[l].id == c.id ensures docs[j].chunks[l] == c {
      assert OwnChunks(docs[j]);
      ChunkIDInjective(docs[j].id, l + 1, docs[i].id, k + 1);
      SameID(docs, j, i);
    }
  }

  // ----- Explanations

  function ExplanationOf(h: Hit): Explanation {
    Explanation(h.documentID, h.documentName, h.chunkID, h.score)
  }

  function Explained(hits: seq<Hit>): (r: seq<Explanation>)
    ensures |r| == |hits|
    ensures forall i :: 0 <= i < |hits| ==> r[i] == ExplanationOf(hits[i])
  {
    if hits == [] then [] else [ExplanationOf(hits[0])] + Explained(hits[1..])
  }

  predicate BetterExplained(a: Explanation, b: Explanation) {
    if a.score != b.score then a.score > b.score
    else if a.documentID != b.documentID then StringLess(a.documentID, b.documentID)
    else ChunkOrdinal(a.chunkID) < ChunkOrdinal(b.chunkID)
  }

  lemma SameOrder(a: Hit, b: Hit)
    ensures BetterExplained(ExplanationOf(a), ExplanationOf(b)) <==> Better(a, b)
  {
    hide StringLess, ChunkOrdinal;
  }

  predicate DistinctChunks(hits: seq<Hit>) {
    forall i, j :: 0 <= i < j < |hits| ==> hits[i].chunkID != hits[j].chunkID
  }

  /** The map holds exactly the explanations seen, under their chunk ids. */
  predicate Holds(candidates: map<string, Explanation>, seen: seq<Explanation>) {
    && (forall id :: id in candidates ==> candidates[id].chunkID == id && candidates[id] in seen)
    && (forall i :: 0 <= i < |seen| ==> seen[i].chunkID in candidates && candidates[seen[i].chunkID] == seen[i])
  }

  lemma HoldsMore(candidates: map<string, Explanation>, seen: seq<Explanation>, e: Explanation)
    requires Holds(candidates, seen) && forall i :: 0 <= i < |seen| ==> seen[i].chunkID != e.chunkID
    ensures Holds(candidates[e.chunkID := e], seen + [e])
  {
  }

  /** The candidates map, one entry for each chunk found. */
  method CollectExplanations(results: seq<Result>) returns (candidates: map<string, Explanation>)
    ensures DistinctChunks(Hits(results)) ==> Holds(candidates, Explained(Hits(results)))
    ensures results == [] <==> candidates == map[]
    ensures forall id :: id in candidates ==> candidates[id].chunkID == id
  {
    hide Holds, Explained, Hits, DistinctChunks;
    ghost var hits := Hits(results);
    ghost var all := Explained(hits);
    candidates := map[];
    assert Holds(candidates, all[..0]) by { NothingHeld(); }
    for n := 0 to |results|
      invariant DistinctChunks(hits) ==> Holds(candidates, all[..n])
      invariant n > 0 <==> candidates != map[]
      invariant forall id :: id in candidates ==> candidates[id].chunkID == id
    {
      var h := results[n].hit;
      assert all[n] == ExplanationOf(h) && all[..n + 1] == all[..n] + [all[n]];
      if DistinctChunks(hits) {
        DistinctAt(hits, n);
        HoldsMore(candidates, all[..n], all[n]);
      }
      candidates := candidates[h.chunkID := ExplanationOf(h)];
      assert h.chunkID in candidates;
    }
    assert all[..|results|] == all;
  }

  lemma DistinctAt(hits: seq<Hit>, n: nat)
    requires DistinctChunks(hits) && n < |hits|
    ensures forall i :: 0 <= i < n ==> Explained(hits)[..n][i].chunkID != hits[n].chunkID
  {
    hide Explained;
  }

  lemma NothingHeld()
    ensures Holds(map[], [])
  {
  }

  /** The range over the candidates map, in whatever order it yields them. */
  method ListExplanations(candidates: map<string, Explanation>) returns (listed: seq<Explanation>)
    requires forall id :: id in candidates ==> candidates[id].chunkID == id
    ensures NoDuplicates(listed)
    ensures forall e :: e in listed <==> e.chunkID in candidates && candidates[e.chunkID] == e && e.score > 0
  {
    listed := [];
    var left := candidates.Keys;
    while left != {}
      invariant left <= candidates.Keys
      invariant NoDuplicates(listed)
      invariant forall e :: e in listed <==> e.chunkID in candidates && e.chunkID !in left && candidates[e.chunkID] == e && e.score > 0
      decreases |left|
    {
      var id :| id in left;
      left := left - {id};
      if candidates[id].score > 0 {
        DistinctAppend(listed, [candidates[id]]);
        listed := listed + [candidates[id]];
      }
    }
  }

  lemma ExplainedMembers(hits: seq<Hit>, e: Explanation)
    ensures e in Explained(hits) <==> exists i :: 0 <= i < |hits| && e == ExplanationOf(hits[i])
  {
    if e in Explained(hits) {
      var i :| 0 <= i < |Explained(hits)| && Explained(hits)[i] == e;
      assert e == ExplanationOf(hits[i]);
    }
    if i :| 0 <= i < |hits| && e == ExplanationOf(hits[i]) {
      assert Explained(hits)[i] == e;
    }
  }

  /** The order of explanations is total on those of hits on which the order of hits is. */
  lemma ExplainedTotal(hits: seq<Hit>)
    requires StrictTotal(Better, hits)
    ensures StrictTotal(BetterExplained, Explained(hits))
  {
    hide Better, BetterExplained, Explained;
    var all := Explained(hits);
    forall x, y | x in all && y in all
      ensures !(BetterExplained(x, y) && BetterExplained(y, x))
      ensures x != y ==> BetterExplained(x, y) || BetterExplained(y, x)
    {
      ExplainedMembers(hits, x);
      ExplainedMembers(hits, y);
      var i :| 0 <= i < |hits| && x == ExplanationOf(hits[i]);
      var j :| 0 <= j < |hits| && y == ExplanationOf(hits[j]);
      SameOrder(hits[i], hits[j]);
      SameOrder(hits[j], hits[i]);
    }
    forall x, y, z | x in all && y in all && z in all && BetterExplained(x, y) && BetterExplained(y, z) ensures BetterExplained(x, z) {
      ExplainedMembers(hits, x);
      ExplainedMembers(hits, y);
      ExplainedMembers(hits, z);
      var i :| 0 <= i < |hits| && x == ExplanationOf(hits[i]);
      var j :| 0 <= j < |hits| && y == ExplanationOf(hits[j]);
      var k :| 0 <= k < |hits| && z == ExplanationOf(hits[k]);
      SameOrder(hits[i], hits[j]);
      SameOrder(hits[j], hits[k]);
      SameOrder(hits[i], hits[k]);
    }
  }

  /** Sorting what the map yields gives the retriever's order back. */
  lemma SortedExplanations(hits: seq<Hit>, listed: seq<Explanation>)
    requires StrictTotal(Better, hits) && Ascending(Better, hits) && NoDuplicates(listed)
    requires forall e :: e in listed <==> e in Explained(hits)
    ensures SortBy(BetterExplained, listed) == Explained(hits)
  {
    hide Better, BetterExplained, Explained, SortBy, StrictTotal, NoDuplicates;
    var all := Explained(hits);
    ExplainedTotal(hits);
    forall i, j | 0 <= i < j < |all| ensures BetterExplained(all[i], all[j]) { SameOrder(hits[i], hits[j]); }
    SortAscends(BetterExplained, listed, all);
    SortElements(BetterExplained, listed);
    MembersAreElements(all, SortBy(BetterExplained, listed));
    AscendingUnique(BetterExplained, all, SortBy(BetterExplained, listed));
  }

  // ----- The search

  /** The facts about the best hits that the stages of the pipeline rely on. */
  lemma BestHitsFacts(docs: seq<Document>, query: string, limit: int)
    requires StoredDocuments(docs)
    ensures var hits := BestHits(docs, query, limit);
            && Ascending(Better, hits) && StrictTotal(Better, hits) && DistinctChunks(hits)
            && forall h :: h in hits ==> h in Candidates(docs, Normalized(query))
  {
    hide Candidates, Better, StoredDocuments, SortBy, Normalized, StrictTotal, NoInversion;
    var all := Candidates(docs, Normalized(query));
    var sorted := SortBy(Better, all);
    var hits := BestHits(docs, query, limit);
    SortKeeps(all);
    SortElements(Better, all);
    SortedAscends(docs, Normalized(query), sorted);
    assert hits <= sorted;
    assert forall i :: 0 <= i < |hits| ==> hits[i] == sorted[i];
    BetterIsTotal(docs, Normalized(query), hits);
    forall i, j | 0 <= i < j < |hits| ensures hits[i].chunkID != hits[j].chunkID {
      SameChunkSameHit(docs, Normalized(query), hits[i], hits[j]);
      BetterStrict(hits[i], hits[j]);
    }
  }

  /** The best hits are as many as the limit allows, and every one of them beats every candidate left out. */
  lemma BestBeatsRest(docs: seq<Document>, query: string, limit: int, h: Hit)
    requires StoredDocuments(docs) && limit > 0 && Normalized(query) != ""
    requires h in Candidates(docs, Normalized(query))
    ensures var hits := BestHits(docs, query, limit);
            h in hits || (|hits| == limit && forall r :: r in hits ==> Better(r, h))
  {
    hide Candidates, Better, StoredDocuments, SortBy, Normalized, NoInversion;
    var all := Candidates(docs, Normalized(query));
    var sorted := SortBy(Better, all);
    SortKeeps(all);
    SortElements(Better, all);
    SortedAscends(docs, Normalized(query), sorted);
    var hits := BestHits(docs, query, limit);
    var j :| 0 <= j < |sorted| && sorted[j] == h;
    if j < |hits| {
      assert hits[j] == h;
    } else {
      forall r | r in hits ensures Better(r, h) {
        var i :| 0 <= i < |hits| && hits[i] == r;
        assert sorted[i] == r;
      }
    }
  }

  /** The lexical stage, the skipped vector stage, the range over the candidates and the sort. */
  method Explain(docs: seq<Document>, query: string, limit: nat, mode: Mode) returns (sorted: seq<Explanation>)
    requires limit > 0
    ensures StoredDocuments(docs) ==> sorted == Explained(if mode.Vector? then [] else BestHits(docs, query, limit))
  {
    hide Candidates, Better, StoredDocuments, SortBy, BestHits, Explained, Holds, Normalized, StrictTotal, Ascending,
      DistinctChunks, TopOf;
    var candidates: map<string, Explanation> := map[];
    ghost var hits: seq<Hit> := [];
    NothingHeld();
    NothingExplained();
    if !mode.Vector? {
      var results := Retrieval.Search(docs, query, limit);
      hits := Hits(results);
      candidates := CollectExplanations(results);
      if StoredDocuments(docs) {
        FoundIsBest(docs, query, limit, results);
        BestHitsFacts(docs, query, limit);
      }
    }
    var listed := ListExplanations(candidates);
    sorted := SortBy(BetterExplained, listed);
    if StoredDocuments(docs) {
      if mode.Vector? { NothingSorted(listed, candidates); }
      else {
        ListedAreExplained(docs, Normalized(query), hits, candidates, listed);
        SortedExplanations(hits, listed);
      }
    }
  }

  lemma NothingExplained()
    ensures Explained([]) == []
  {
  }

  lemma NothingSorted(listed: seq<Explanation>, candidates: map<string, Explanation>)
    requires candidates == map[] && forall e :: e in listed <==> e.chunkID in candidates && candidates[e.chunkID] == e && e.score > 0
    ensures SortBy(BetterExplained, listed) == []
  {
    hide BetterExplained;
    assert forall i :: 0 <= i < |listed| ==> listed[i] in listed;
  }

  lemma FoundIsBest(docs: seq<Document>, query: string, limit: nat, results: seq<Result>)
    requires StoredDocuments(docs) && limit > 0
    requires Normalized(query) == "" ==> results == []
    requires Normalized(query) != "" ==> TopOf(Hits(results), Candidates(docs, Normalized(query)), limit)
    ensures Hits(results) == BestHits(docs, query, limit)
  {
    hide Candidates, Better, StoredDocuments, SortBy, Normalized, TopOf;
    if Normalized(query) != "" { TopIsBest(docs, query, limit, Hits(results)); }
  }

  lemma ListedAreExplained(docs: seq<Document>, query: string, hits: seq<Hit>,
                           candidates: map<string, Explanation>, listed: seq<Explanation>)
    requires StoredDocuments(docs) && forall h :: h in hits ==> h in Candidates(docs, query)
    requires Holds(candidates, Explained(hits))
    requires forall e :: e in listed <==> e.chunkID in candidates && candidates[e.chunkID] == e && e.score > 0
    ensures forall e :: e in listed <==> e in Explained(hits)
  {
    hide Candidates, StoredDocuments, Explained;
    forall e | e in Explained(hits) ensures e in listed {
      ExplainedMembers(hits, e);
      var i :| 0 <= i < |hits| && e == ExplanationOf(hits[i]);
      var j, k := PlaceOf(docs, query, hits[i]);
    }
  }

  function AtLeastExplained(all: seq<Explanation>, minScore: real): seq<Explanation> {
    if all == [] then []
    else (if all[0].score as real >= minScore then [all[0]] else []) + AtLeastExplained(all[1..], minScore)
  }

  method Threshold(all: seq<Explanation>, minScore: real) returns (filtered: seq<Explanation>)
    ensures filtered == AtLeastExplained(all, minScore)
  {
    hide AtLeastExplained;
    filtered := [];
    assert all[0..] == all;
    for i := 0 to |all|
      invariant AtLeastExplained(all, minScore) == filtered + AtLeastExplained(all[i..], minScore)
    {
      ThresholdStep(all, i, minScore);
      if all[i].score as real >= minScore { filtered := filtered + [all[i]]; }
    }
    ThresholdNone(minScore);
    assert all[|all|..] == [];
  }

  lemma ThresholdStep(all: seq<Explanation>, i: nat, minScore: real)
    requires i < |all|
    ensures AtLeastExplained(all[i..], minScore) ==
            (if all[i].score as real >= minScore then [all[i]] else []) + AtLeastExplained(all[i + 1..], minScore)
  {
    assert all[i..][1..] == all[i + 1..];
  }

  lemma ThresholdNone(minScore: real)
    ensures AtLeastExplained([], minScore) == []
  {
  }

  lemma {:induction false} ThresholdOfHits(hits: seq<Hit>, minScore: real)
    ensures AtLeastExplained(Explained(hits), minScore) == Explained(AtLeast(hits, minScore))
    ensures forall h :: h in AtLeast(hits, minScore) ==> h in hits
    ensures |AtLeast(hits, minScore)| <= |hits|
  {
    if hits != [] {
      ThresholdOfHits(hits[1..], minScore);
      assert Explained(hits)[1..] == Explained(hits[1..]);
      if hits[0].score as real >= minScore {
        var rest := AtLeast(hits[1..], minScore);
        assert ([hits[0]] + rest)[1..] == rest;
      }
    }
  }

  /** The chunk an explanation is about, or an empty one. */
  function ChunkAt(index: map<string, Chunk>, id: string): Chunk {
    if id in index then index[id] else Chunk("", "", 0, "")
  }

  function ResultOf(e: Explanation, index: map<string, Chunk>): Hit {
    var c := ChunkAt(index, e.chunkID);
    Hit(e.documentID, e.documentName, e.chunkID, if c.ordinal > 0 then c.ordinal else ChunkOrdinal(c.id), e.score, c.text)
  }

  method BuildResults(all: seq<Explanation>, index: map<string, Chunk>) returns (results: seq<Result>)
    ensures |results| == |all| && Ranked(results)
    ensures forall i :: 0 <= i < |all| ==> results[i].hit == ResultOf(all[i], index)
  {
    results := [];
    for i := 0 to |all|
      invariant |results| == i && Ranked(results)
      invariant forall k :: 0 <= k < i ==> results[k].hit == ResultOf(all[k], index)
    {
      results := results + [Result(ResultOf(all[i], index), i + 1)];
    }
  }

  lemma ResultsAreHits(docs: seq<Document>, query: string, hits: seq<Hit>, index: map<string, Chunk>, results: seq<Result>)
    requires StoredDocuments(docs) && forall h :: h in hits ==> h in Candidates(docs, query)
    requires forall i, k :: 0 <= i < |docs| && 0 <= k < |docs[i].chunks| ==>
               docs[i].chunks[k].id in index && index[docs[i].chunks[k].id] == docs[i].chunks[k]
    requires |results| == |hits| && forall i :: 0 <= i < |hits| ==> results[i].hit == ResultOf(Explained(hits)[i], index)
    ensures Hits(results) == hits
  {
    hide Candidates, StoredDocuments, Explained, Hits, Score, Tokenize, ChunkOrdinal;
    forall n | 0 <= n < |hits| ensures results[n].hit == hits[n] {
      var i, k := PlaceOf(docs, query, hits[n]);
      assert Explained(hits)[n] == ExplanationOf(hits[n]);
      assert index[docs[i].chunks[k].id] == docs[i].chunks[k];
    }
  }

  lemma NoResults()
    ensures Hits([]) == [] && Explained([]) == [] && Ranked([])
  {
  }

  /** The filters: the documents to search, those held back by review, and whether any is ready at all. */
  method Select(docs: seq<Document>, spaceID: string) returns (relevant: seq<Document>, gated: seq<Document>, anyReady: bool)
    ensures relevant == Relevant(docs, spaceID) && gated == Gated(docs, spaceID)
    ensures anyReady <==> Keep(docs, IsReady) != []
    ensures !anyReady ==> relevant == []
  {
    hide Keep, IsReady, IsActive;
    var ready := Filter(docs, IsReady);
    gated := Filter(ready, (d: Document) => !IsActive(d));
    relevant := Filter(ready, IsActive);
    gated := Filter(gated, InSpace(spaceID));
    relevant := Filter(relevant, InSpace(spaceID));
    anyReady := |ready| > 0;
    KeepNone(IsActive);
    KeepNone(InSpace(spaceID));
  }

  lemma NothingRelevant(docs: seq<Document>, request: Request)
    requires Relevant(docs, request.spaceID) == []
    ensures Expected(docs, request) == [] && Hits([]) == [] && Explained([]) == [] && Ranked([])
  {
    hide Relevant, Trim, Lower;
    NoCandidates(Normalized(request.query));
  }

  /** What the stages compute is what the retriever alone finds, however the query is padded. */
  lemma ExpectedExplained(docs: seq<Document>, request: Request, relevant: seq<Document>)
    requires StoredDocuments(docs) && relevant == Relevant(docs, request.spaceID)
    ensures StoredDocuments(relevant)
    ensures var found := Explained(if request.mode.Vector? then [] else BestHits(relevant, Trim(request.query), LimitOf(request)));
            Explained(Expected(docs, request)) == if request.minScore > 0.0 then AtLeastExplained(found, request.minScore) else found
    ensures |Expected(docs, request)| <= LimitOf(request)
    ensures forall h :: h in Expected(docs, request) ==> h in Candidates(relevant, Normalized(request.query))
  {
    hide StoredDocuments, Relevant, Explained, Candidates, Trim, Normalized, SortBy, Ascending, StrictTotal,
      DistinctChunks;
    RelevantStored(docs, request.spaceID);
    NormalizedTrim(request.query);
    BestHitsFacts(relevant, request.query, LimitOf(request));
    var hits := if request.mode.Vector? then [] else BestHits(relevant, request.query, LimitOf(request));
    ThresholdOfHits(hits, request.minScore);
  }

  /** The hit is made of chunk k of document i, which the request may be answered from. */
  predicate Finds(docs: seq<Document>, request: Request, i: nat, k: nat, h: Hit) {
    && i < |docs| && k < |docs[i].chunks| && Searchable(docs[i], request.spaceID) && request.mode != Vector
    && h.documentID == docs[i].id && h.documentName == docs[i].name && h.chunkID == docs[i].chunks[k].id
    && h.ordinal == docs[i].chunks[k].ordinal && h.text == docs[i].chunks[k].text
    && h.score == Score(docs[i].chunks[k].text, Normalized(request.query), Tokenize(Normalized(request.query)))
    && h.score > 0 && (request.minScore > 0.0 ==> h.score as real >= request.minScore)
  }

  /** The results are hits of searchable documents, best first, at most as many as asked for; every hit that is
      not among them scores no higher than any of them, and then they are as many as asked for. */
  ghost predicate FindsBest(hits: seq<Hit>, docs: seq<Document>, request: Request) {
    var limit := if request.limit <= 0 then 3 else request.limit;
    && |hits| <= limit && BestFirst(hits)
    && (forall h :: h in hits ==> exists i: nat, k: nat :: Finds(docs, request, i, k, h))
    && (forall i: nat, k: nat, h: Hit :: Finds(docs, request, i, k, h) && h !in hits ==>
          |hits| == limit && forall r :: r in hits ==> h.score <= r.score)
  }

  lemma AtLeastMembers(hits: seq<Hit>, minScore: real, h: Hit)
    ensures h in AtLeast(hits, minScore) <==> h in hits && h.score as real >= minScore
  {
    if hits != [] {
      AtLeastMembers(hits[1..], minScore, h);
      assert hits == [hits[0]] + hits[1..];
    }
  }

  lemma {:induction false} AtLeastAscends(hits: seq<Hit>, minScore: real)
    requires Ascending(Better, hits)
    ensures Ascending(Better, AtLeast(hits, minScore))
  {
    hide Better;
    if hits != [] {
      var rest := hits[1..];
      assert forall i :: 0 <= i < |rest| ==> rest[i] == hits[i + 1];
      AtLeastAscends(rest, minScore);
      forall h | h in AtLeast(rest, minScore) ensures Better(hits[0], h) { AtLeastMembers(rest, minScore, h); }
    }
  }

  lemma AscendingIsBestFirst(hits: seq<Hit>)
    requires Ascending(Better, hits)
    ensures BestFirst(hits)
  {
    hide StringLess, ChunkOrdinal;
  }

  lemma FindsIsCandidate(docs: seq<Document>, request: Request, h: Hit)
    ensures (h in Candidates(Relevant(docs, request.spaceID), Normalized(request.query)) && request.mode != Vector
             && (request.minScore > 0.0 ==> h.score as real >= request.minScore))
            <==> exists i: nat, k: nat :: Finds(docs, request, i, k, h)
  {
    hide Candidates, Relevant, Score, Tokenize, Normalized, Searchable;
    var relevant, query := Relevant(docs, request.spaceID), Normalized(request.query);
    CandidatesExactly(relevant, query, h);
    if i: nat, k: nat :| Finds(docs, request, i, k, h) {
      RelevantExactly(docs, request.spaceID, docs[i]);
      var j :| 0 <= j < |relevant| && relevant[j] == docs[i];
      SearchableIsReady(docs[i], request.spaceID);
      assert FromChunk(h, relevant, j, k);
    }
    if h in Candidates(relevant, query) && request.mode != Vector
       && (request.minScore > 0.0 ==> h.score as real >= request.minScore) {
      var j, k :| 0 <= j < |relevant| && 0 <= k < |relevant[j].chunks| && FromChunk(h, relevant, j, k)
                  && h.score == Score(relevant[j].chunks[k].text, query, Tokenize(query));
      RelevantExactly(docs, request.spaceID, relevant[j]);
      var i :| 0 <= i < |docs| && docs[i] == relevant[j];
      assert Finds(docs, request, i, k, h);
    }
  }

  lemma SearchableIsReady(d: Document, spaceID: string)
    requires Searchable(d, spaceID)
    ensures d.status.Ready?
  {
  }

  /** What the retriever finds on the relevant documents is the best of all there is. */
  lemma ExpectedIsBest(docs: seq<Document>, request: Request)
    requires StoredDocuments(docs) && Normalized(request.query) != ""
    ensures FindsBest(Expected(docs, request), docs, request)
  {
    hide StoredDocuments, Relevant, Candidates, Normalized, BestHits, Better, Finds, Ascending, StrictTotal, AtLeast,
      BestFirst, DistinctChunks;
    var relevant, limit := Relevant(docs, request.spaceID), LimitOf(request);
    var hits := if request.mode.Vector? then [] else BestHits(relevant, request.query, limit);
    RelevantStored(docs, request.spaceID);
    BestHitsFacts(relevant, request.query, limit);
    BestHitsFew(relevant, request.query, limit);
    NothingAscends();
    if request.minScore > 0.0 { AtLeastAscends(hits, request.minScore); ThresholdOfHits(hits, request.minScore); }
    var expected := Expected(docs, request);
    AscendingIsBestFirst(expected);
    forall h ensures h in expected <==> h in hits && (request.minScore > 0.0 ==> h.score as real >= request.minScore) {
      AtLeastMembers(hits, request.minScore, h);
    }
    forall h | h in expected ensures exists i: nat, k: nat :: Finds(docs, request, i, k, h) { FindsIsCandidate(docs, request, h); }
    forall i: nat, k: nat, h: Hit | Finds(docs, request, i, k, h) && h !in expected
      ensures |expected| == limit && forall r :: r in expected ==> h.score <= r.score
    {
      FindsIsCandidate(docs, request, h);
      BestBeatsRest(relevant, request.query, limit, h);
      forall r | r in hits ensures h.score <= r.score { BetterScores(r, h); }
      if request.minScore > 0.0 { AllAtLeast(hits, request.minScore); }
    }
  }

  lemma BestHitsFew(docs: seq<Document>, query: string, limit: nat)
    ensures |BestHits(docs, query, limit)| <= limit
  {
    hide Candidates, SortBy, Normalized;
  }

  lemma NothingAscends()
    ensures Ascending(Better, [])
  {
  }

  lemma BetterScores(r: Hit, h: Hit)
    requires Better(r, h)
    ensures h.score <= r.score
  {
  }

  lemma {:induction false} AllAtLeast(hits: seq<Hit>, minScore: real)
    requires forall h :: h in hits ==> h.score as real >= minScore
    ensures AtLeast(hits, minScore) == hits
  {
    if hits != [] {
      assert forall h :: h in hits[1..] ==> h in hits;
      AllAtLeast(hits[1..], minScore);
      assert hits[0] in hits;
    }
  }

  /** The request could be answered from a document held back by review. */
  predicate HeldBackHit(docs: seq<Document>, request: Request, i: nat, k: nat) {
    && i < |docs| && k < |docs[i].chunks| && HeldBack(docs[i], request.spaceID)
    && Score(docs[i].chunks[k].text, Normalized(request.query), Tokenize(Normalized(request.query))) > 0
  }

  /** Why an answer is empty. */
  ghost predicate ReasonGiven(docs: seq<Document>, request: Request, empty: bool, reason: Reason) {
    reason ==
      if Blank(request.query) then QueryEmpty
      else if forall i :: 0 <= i < |docs| ==> docs[i].status != Ready then NoReadyDocuments
      else if forall i :: 0 <= i < |docs| ==> !Searchable(docs[i], request.spaceID) then NoReviewActiveDocuments
      else if !empty then Answered
      else if request.minScore > 0.0 then BelowThreshold
      else if exists i: nat, k: nat :: HeldBackHit(docs, request, i, k) then ReviewGatedDocuments
      else if request.mode == Vector then VectorUnavailable else NoMatchingChunks
  }

  lemma NoneRelevant(docs: seq<Document>, spaceID: string)
    ensures Relevant(docs, spaceID) == [] <==> forall i :: 0 <= i < |docs| ==> !Searchable(docs[i], spaceID)
    ensures Keep(docs, IsReady) == [] <==> forall i :: 0 <= i < |docs| ==> docs[i].status != Ready
  {
    hide Relevant, Keep, Searchable;
    forall d: Document ensures d in Relevant(docs, spaceID) <==> d in docs && Searchable(d, spaceID) { RelevantExactly(docs, spaceID, d); }
    forall d: Document ensures d in Keep(docs, IsReady) <==> d in docs && IsReady(d) { KeepExactly(docs, IsReady, d); }
    var relevant, ready := Relevant(docs, spaceID), Keep(docs, IsReady);
    if relevant != [] { assert relevant[0] in relevant; }
    if ready != [] { assert ready[0] in ready; }
    assert forall i :: 0 <= i < |docs| ==> docs[i] in docs;
  }

  lemma GatedHits(docs: seq<Document>, request: Request)
    ensures Candidates(Gated(docs, request.spaceID), Normalized(request.query)) != [] <==>
            exists i: nat, k: nat :: HeldBackHit(docs, request, i, k)
  {
    hide Candidates, Gated, Score, Tokenize, Normalized, HeldBack;
    var gated, query := Gated(docs, request.spaceID), Normalized(request.query);
    var all := Candidates(gated, query);
    if all != [] {
      CandidatesExactly(gated, query, all[0]);
      var j, k :| 0 <= j < |gated| && 0 <= k < |gated[j].chunks| && FromChunk(all[0], gated, j, k)
                  && all[0].score == Score(gated[j].chunks[k].text, query, Tokenize(query));
      RelevantExactly(docs, request.spaceID, gated[j]);
      var i :| 0 <= i < |docs| && docs[i] == gated[j];
      assert HeldBackHit(docs, request, i, k);
    }
    if i: nat, k: nat :| HeldBackHit(docs, request, i, k) {
      RelevantExactly(docs, request.spaceID, docs[i]);
      var j :| 0 <= j < |gated| && gated[j] == docs[i];
      HeldBackIsReady(docs[i], request.spaceID);
      var h := HitOf(docs[i], docs[i].chunks[k], Score(docs[i].chunks[k].text, query, Tokenize(query)));
      assert FromChunk(h, gated, j, k);
      CandidatesExactly(gated, query, h);
    }
  }

  lemma HeldBackIsReady(d: Document, spaceID: string)
    requires HeldBack(d, spaceID)
    ensures d.status.Ready?
  {
  }

  lemma SomeFound(results: seq<Result>, candidates: seq<Hit>)
    requires BestOf(Hits(results), candidates, 1)
    ensures results != [] <==> candidates != []
  {
    hide Hits;
  }

  lemma QueryBlank(query: string)
    ensures Trim(query) == "" <==> Blank(query)
    ensures Normalized(query) == "" <==> Blank(query)
  {
    hide Trim, Lower, Blank;
    TrimOfBlank(query);
    TrimOfBlank(Lower(query));
    LowerBlank(query);
  }

  /** Pipeline.Search refines the retriever: on stored documents, for every order in which the candidates map
      is ranged over, its results are the retriever's on the relevant documents, in the same order and ranks. */
  method Search(docs: seq<Document>, request: Request) returns (response: Response)
    ensures forall i :: 0 <= i < |response.results| ==> response.results[i].rank == i + 1
    ensures response.reason == Answered <==> response.results != []
    ensures response.reason == QueryEmpty <==> Trim(request.query) == ""
    ensures response.gatedCount == if response.reason == QueryEmpty then 0 else |Gated(docs, request.spaceID)|
    ensures StoredDocuments(docs) && Trim(request.query) != "" ==>
              Hits(response.results) == Expected(docs, request) && response.explanations == Explained(Expected(docs, request))
    // the same without the retriever: the best hits of the searchable documents, and why there are none
    ensures StoredDocuments(docs) && !Blank(request.query) ==> FindsBest(Hits(response.results), docs, request)
    ensures ReasonGiven(docs, request, response.results == [], response.reason)
    ensures response.gatedCount == if Blank(request.query) then 0 else CountHeldBack(docs, request.spaceID)
  {
    hide StoredDocuments, Keep, BestHits, Trim, Explained, Hits, Candidates, IsReady, IsActive, Gated, Relevant,
      Expected, Normalized, Blank, FindsBest, HeldBackHit, Searchable, CountHeldBack, BestFirst, TopOf, BestOf;
    QueryBlank(request.query);
    QueryBlank(Trim(request.query));
    NormalizedTrim(request.query);
    NoneRelevant(docs, request.spaceID);
    GatedCount(docs, request.spaceID);
    if StoredDocuments(docs) && !Blank(request.query) { ExpectedIsBest(docs, request); }
    var limit := LimitOf(request);
    var query := Trim(request.query);
    if query == "" { NoResults(); return Response([], [], QueryEmpty, 0); }
    var relevant, gated, ready := Select(docs, request.spaceID);
    if !ready || |relevant| == 0 {
      NothingRelevant(docs, request);
      return Response([], [], if ready then NoReviewActiveDocuments else NoReadyDocuments, |gated|);
    }
    var index := IndexDocuments(relevant);
    var explanations := Explain(relevant, query, limit, request.mode);
    if request.minScore > 0.0 { explanations := Threshold(explanations, request.minScore); }
    if StoredDocuments(docs) { ExpectedExplained(docs, request, relevant); }
    if |explanations| == 0 {
      NoResults();
      if request.minScore > 0.0 { return Response([], [], BelowThreshold, |gated|); }
      var hidden := Retrieval.Search(gated, query, 1);
      SomeFound(hidden, Candidates(gated, Normalized(query)));
      GatedHits(docs, request);
      if |hidden| > 0 { return Response([], [], ReviewGatedDocuments, |gated|); }
      return Response([], [], if request.mode.Vector? then VectorUnavailable else NoMatchingChunks, |gated|);
    }
    if |explanations| > limit { explanations := explanations[..limit]; }
    var results := BuildResults(explanations, index);
    if StoredDocuments(docs) {
      RelevantStored(docs, request.spaceID);
      ResultsAreHits(relevant, Normalized(request.query), Expected(docs, request), index, results);
    }
    return Response(results, explanations, Answered, |gated|);
  }
}
