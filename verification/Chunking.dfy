/** chunkKnowledge of the knowledge store and chunkOrdinalFromID of the retriever. */
module Chunking {
  import opened Text
  import opened Splitting

  datatype Chunk = Chunk(id: string, documentID: string, ordinal: nat, text: string)

  // ----- Ordinals in chunk ids

  const MAX_INT := 0x7FFF_FFFF_FFFF_FFFF

  /** The wrap-around of a 64-bit int. */
  function Wrap(x: int): int {
    (x + 0x8000_0000_0000_0000) % 0x1_0000_0000_0000_0000 - 0x8000_0000_0000_0000
  }

  function DigitChar(d: nat): char
    requires d < 10
  {
    '0' + d as char
  }

  function Digits(n: nat): (s: string)
    ensures s != ""
  {
    if n < 10 then [DigitChar(n)] else Digits(n / 10) + [DigitChar(n % 10)]
  }

  function Zeros(n: nat): (s: string)
    ensures |s| == n && forall i :: 0 <= i < n ==> s[i] == '0'
  {
    if n == 0 then "" else ['0'] + Zeros(n - 1)
  }

  /** The format %04d of a number that is not negative. */
  function Padded(n: nat): string {
    var s := Digits(n);
    if |s| < 4 then Zeros(4 - |s|) + s else s
  }

  /** The format "%s:chunk-%04d". */
  function ChunkID(documentID: string, ordinal: nat): string {
    documentID + ":chunk-" + Padded(ordinal)
  }

  /** Position of the last dash, or -1. */
  function LastDash(s: string): (k: int)
    ensures -1 <= k < |s|
    ensures k >= 0 ==> s[k] == '-'
    ensures forall i :: k < i < |s| ==> s[i] != '-'
  {
    if s == "" then -1 else if s[|s| - 1] == '-' then |s| - 1 else LastDash(s[..|s| - 1])
  }

  /** The value of a digit string in 64-bit arithmetic; anything but a digit gives zero. */
  function ReadDigits(s: string, value: int): int
    decreases |s|
  {
    if s == "" then value
    else if s[0] < '0' || s[0] > '9' then 0
    else ReadDigits(s[1..], Wrap(value * 10 + (s[0] - '0') as int))
  }

  function ChunkOrdinal(chunkID: string): int {
    var k := LastDash(chunkID);
    if k == -1 || k == |chunkID| - 1 then 0 else ReadDigits(chunkID[k + 1..], 0)
  }

  method ChunkOrdinalFromID(chunkID: string) returns (value: int)
    ensures value == ChunkOrdinal(chunkID)
  {
    var k := LastDash(chunkID);
    if k == -1 || k == |chunkID| - 1 { return 0; }
    value := 0;
    var digits := chunkID[k + 1..];
    for i := 0 to |digits|
      invariant ReadDigits(digits, 0) == ReadDigits(digits[i..], value)
    {
      assert digits[i..][1..] == digits[i + 1..];
      if digits[i] < '0' || digits[i] > '9' { return 0; }
      value := Wrap(value * 10 + (digits[i] - '0') as int);
    }
    assert digits[|digits|..] == "";
  }

  predicate AllDigits(s: string) {
    forall i :: 0 <= i < |s| ==> '0' <= s[i] <= '9'
  }

  lemma DigitRead(d: nat)
    requires d < 10
    ensures '0' <= DigitChar(d) <= '9' && (DigitChar(d) - '0') as int == d
  {
  }

  lemma WrapSmall(x: int)
    requires 0 <= x <= MAX_INT
    ensures Wrap(x) == x
  {
  }

  lemma {:induction false} DigitsAreDigits(n: nat)
    ensures AllDigits(Digits(n))
  {
    DigitRead(n % 10);
    if n >= 10 { DigitsAreDigits(n / 10); }
  }

  lemma ReadDigitsStep(c: char, s: string, value: int)
    requires '0' <= c <= '9'
    ensures ReadDigits([c] + s, value) == ReadDigits(s, Wrap(value * 10 + (c - '0') as int))
    ensures ReadDigits("", value) == value
  {
    assert ([c] + s)[1..] == s;
  }

  lemma {:induction false} ReadDigitsAppend(a: string, b: string, value: int)
    requires AllDigits(a)
    ensures ReadDigits(a + b, value) == ReadDigits(b, ReadDigits(a, value))
    decreases |a|
  {
    hide ReadDigits, Wrap;
    if a == "" {
      assert a + b == b;
      ReadDigitsStep('0', "", value);
    } else {
      var next := Wrap(value * 10 + (a[0] - '0') as int);
      ReadDigitsAppend(a[1..], b, next);
      ReadDigitsStep(a[0], a[1..], value);
      ReadDigitsStep(a[0], a[1..] + b, value);
      assert [a[0]] + a[1..] == a && [a[0]] + (a[1..] + b) == a + b;
    }
  }

  /** Reading a printed number gives it back, as long as it is one. */
  lemma {:induction false} ReadPrinted(n: nat)
    requires n <= MAX_INT
    ensures ReadDigits(Digits(n), 0) == n
  {
    hide ReadDigits, Wrap;
    var last := DigitChar(n % 10);
    DigitRead(n % 10);
    WrapSmall(n);
    assert [last] + "" == [last];
    if n < 10 {
      ReadDigitsStep(last, "", 0);
      ReadDigitsStep(last, "", n);
    } else {
      ReadPrinted(n / 10);
      DigitsAreDigits(n / 10);
      ReadDigitsAppend(Digits(n / 10), [last], 0);
      ReadDigitsStep(last, "", n / 10);
      ReadDigitsStep(last, "", n);
    }
  }

  lemma {:induction false} ReadZeros(k: nat, s: string)
    ensures ReadDigits(Zeros(k) + s, 0) == ReadDigits(s, 0)
  {
    hide ReadDigits, Wrap;
    if k == 0 {
      assert Zeros(0) + s == s;
    } else {
      ReadZeros(k - 1, s);
      WrapSmall(0);
      ReadDigitsStep('0', Zeros(k - 1) + s, 0);
      assert Zeros(k) + s == ['0'] + (Zeros(k - 1) + s);
    }
  }

  lemma PaddedReadBack(n: nat)
    requires n <= MAX_INT
    ensures ReadDigits(Padded(n), 0) == n && AllDigits(Padded(n)) && Padded(n) != ""
  {
    hide ReadDigits, Digits, Zeros;
    ReadPrinted(n);
    DigitsAreDigits(n);
    if |Digits(n)| < 4 { ReadZeros(4 - |Digits(n)|, Digits(n)); }
  }

  lemma LastDashBefore(prefix: string, digits: string)
    requires AllDigits(digits)
    ensures LastDash(prefix + "-" + digits) == |prefix|
  {
    hide LastDash;
    var s := prefix + "-" + digits;
    var k := LastDash(s);
    assert s[|prefix|] == '-';
    assert forall i :: 0 <= i < |digits| ==> s[|prefix| + 1 + i] == digits[i];
    assert s[|prefix| + 1..] == digits;
  }

  /** The ordinal in a printed chunk id is read back, for every document id and every ordinal. */
  lemma OrdinalReadBack(documentID: string, ordinal: nat)
    requires ordinal <= MAX_INT
    ensures ChunkOrdinal(ChunkID(documentID, ordinal)) == ordinal
  {
    hide LastDash, ReadDigits, Padded;
    PaddedReadBack(ordinal);
    var prefix := documentID + ":chunk";
    var id := ChunkID(documentID, ordinal);
    assert id == prefix + "-" + Padded(ordinal);
    LastDashBefore(prefix, Padded(ordinal));
    assert id[|prefix| + 1..] == Padded(ordinal);
  }

  /** The number a digit string stands for. */
  function Decimal(s: string): nat
    requires AllDigits(s)
  {
    if s == "" then 0 else Decimal(s[..|s| - 1]) * 10 + (s[|s| - 1] - '0') as int
  }

  lemma WrapStep(x: int, d: int)
    ensures Wrap(Wrap(x) * 10 + d) == Wrap(x * 10 + d)
  {
  }

  lemma {:induction false} ReadDigitsSnoc(s: string, c: char, value: int)
    ensures ReadDigits(s + [c], value) ==
            if AllDigits(s) && '0' <= c <= '9' then Wrap(ReadDigits(s, value) * 10 + (c - '0') as int) else 0
    decreases |s|
  {
    hide ReadDigits, Wrap;
    ReadDigitsFirst([c], value);
    ReadDigitsFirst(s, value);
    ReadDigitsFirst(s + [c], value);
    if s == "" {
      assert s + [c] == [c] && [c][1..] == "";
      ReadDigitsFirst("", value);
      if '0' <= c <= '9' { ReadDigitsFirst("", Wrap(value * 10 + (c - '0') as int)); }
    } else {
      assert (s + [c])[1..] == s[1..] + [c];
      if '0' <= s[0] <= '9' { ReadDigitsSnoc(s[1..], c, Wrap(value * 10 + (s[0] - '0') as int)); }
      assert AllDigits(s) <==> '0' <= s[0] <= '9' && AllDigits(s[1..]) by {
        assert forall i :: 0 < i < |s| ==> s[i] == s[1..][i - 1];
      }
    }
  }

  lemma ReadDigitsFirst(s: string, value: int)
    ensures ReadDigits(s, value) ==
            if s == "" then value
            else if '0' <= s[0] <= '9' then ReadDigits(s[1..], Wrap(value * 10 + (s[0] - '0') as int))
            else 0
  {
  }

  lemma {:induction false} ReadsDecimal(s: string)
    ensures ReadDigits(s, 0) == if AllDigits(s) then Wrap(Decimal(s)) else 0
    decreases |s|
  {
    hide ReadDigits, Wrap;
    if s == "" {
      ReadDigitsFirst("", 0);
      WrapSmall(0);
    } else {
      var front, last := s[..|s| - 1], s[|s| - 1];
      assert s == front + [last];
      ReadsDecimal(front);
      ReadDigitsSnoc(front, last, 0);
      if AllDigits(front) && '0' <= last <= '9' { WrapStep(Decimal(front), (last - '0') as int); }
    }
  }

  /** The ordinal of an id: the number after its last dash, in 64 bits, and zero when that is not a number. */
  lemma OrdinalMeans(before: string, after: string)
    requires '-' !in after
    ensures ChunkOrdinal(after) == 0
    ensures ChunkOrdinal(before + "-" + after) ==
            if after != "" && AllDigits(after) then (Decimal(after) + MAX_INT + 1) % (2 * MAX_INT + 2) - MAX_INT - 1 else 0
  {
    hide LastDash, ReadDigits;
    ReadsDecimal(after);
    var id := before + "-" + after;
    assert id[|before|] == '-' && id[|before| + 1..] == after;
    assert LastDash(after) == -1;
    assert LastDash(id) == |before| by {
      assert forall i :: |before| < i < |id| ==> id[i] == after[i - |before| - 1];
    }
  }

  lemma {:induction false} DigitsMean(n: nat)
    ensures AllDigits(Digits(n)) && Decimal(Digits(n)) == n
    ensures Digits(n)[0] == '0' ==> n == 0 && |Digits(n)| == 1
  {
    hide AllDigits;
    DigitsAreDigits(n);
    DigitRead(n % 10);
    if n < 10 {
      assert Digits(n)[..0] == "";
    } else {
      DigitsMean(n / 10);
      var front, last := Digits(n / 10), DigitChar(n % 10);
      assert (front + [last])[..|front| + 1 - 1] == front;
    }
  }

  lemma {:induction false} LeadingZeros(k: nat, s: string)
    requires AllDigits(s)
    ensures AllDigits(Zeros(k) + s) && Decimal(Zeros(k) + s) == Decimal(s)
    decreases |s|
  {
    if s == "" {
      assert Zeros(k) + "" == Zeros(k);
      ZerosMean(k);
    } else {
      LeadingZeros(k, s[..|s| - 1]);
      var all := Zeros(k) + s;
      assert all[..|all| - 1] == Zeros(k) + s[..|s| - 1] && all[|all| - 1] == s[|s| - 1];
    }
  }

  lemma {:induction false} ZerosMean(k: nat)
    ensures AllDigits(Zeros(k)) && Decimal(Zeros(k)) == 0
  {
    if k > 0 {
      ZerosMean(k - 1);
      assert Zeros(k)[..k - 1] == Zeros(k - 1);
    }
  }

  /** A chunk id ends with its ordinal in at least four digits, filled up with zeros and no longer than needed. */
  lemma ChunkIDIs(documentID: string, ordinal: nat)
    ensures exists digits ::
              && AllDigits(digits) && Decimal(digits) == ordinal
              && ChunkID(documentID, ordinal) == documentID + ":chunk-" + digits
              && |digits| >= 4 && (|digits| > 4 ==> digits[0] != '0')
  {
    hide AllDigits, Decimal, Padded;
    PaddedMeans(ordinal);
    var digits := Padded(ordinal);
    assert ChunkID(documentID, ordinal) == documentID + ":chunk-" + digits;
  }

  lemma PaddedMeans(n: nat)
    ensures AllDigits(Padded(n)) && Decimal(Padded(n)) == n
    ensures |Padded(n)| >= 4 && (|Padded(n)| > 4 ==> Padded(n)[0] != '0')
  {
    hide AllDigits, Decimal, Digits, Zeros;
    DigitsMean(n);
    if |Digits(n)| < 4 { LeadingZeros(4 - |Digits(n)|, Digits(n)); }
  }

  /** A chunk id names one document and one ordinal. */
  lemma ChunkIDInjective(a: string, m: nat, b: string, n: nat)
    requires m <= MAX_INT && n <= MAX_INT
    ensures ChunkID(a, m) == ChunkID(b, n) <==> a == b && m == n
  {
    hide ChunkOrdinal, Padded;
    OrdinalReadBack(a, m);
    OrdinalReadBack(b, n);
    if ChunkID(a, m) == ChunkID(b, n) {
      assert a == ChunkID(a, m)[..|ChunkID(a, m)| - |":chunk-" + Padded(m)|];
      assert b == ChunkID(b, n)[..|ChunkID(b, n)| - |":chunk-" + Padded(n)|];
    }
  }

  // ----- Cutting a document

  function TextsOf(parts: seq<string>): seq<string> {
    if parts == [] then []
    else (if Trim(parts[0]) == "" then [] else [Trim(parts[0])]) + TextsOf(parts[1..])
  }

  /** The paragraphs of a content: trimmed, without the blank ones. */
  function Texts(content: string): seq<string> {
    TextsOf(Split(content, "\n\n"))
  }

  lemma TextsStep(part: string, parts: seq<string>)
    ensures TextsOf([part] + parts) == (if Trim(part) == "" then [] else [Trim(part)]) + TextsOf(parts)
    ensures TextsOf([]) == []
  {
    assert ([part] + parts)[1..] == parts;
  }

  predicate ChunksOf(chunks: seq<Chunk>, documentID: string, texts: seq<string>) {
    && |chunks| == |texts|
    && forall i :: 0 <= i < |chunks| ==> chunks[i] == Chunk(ChunkID(documentID, i + 1), documentID, i + 1, texts[i])
  }

  /** Numbered 1 to n in order, one chunk for each paragraph. */
  method ChunkKnowledge(documentID: string, content: string) returns (chunks: seq<Chunk>)
    ensures ChunksOf(chunks, documentID, Texts(content))
  {
    hide TextsOf, Split, Trim, ChunkID;
    var parts := Split(content, "\n\n");
    chunks := [];
    ghost var texts: seq<string> := [];
    assert parts[0..] == parts;
    for i := 0 to |parts|
      invariant ChunksOf(chunks, documentID, texts)
      invariant Texts(content) == texts + TextsOf(parts[i..])
    {
      assert parts[i..] == [parts[i]] + parts[i + 1..];
      TextsStep(parts[i], parts[i + 1..]);
      var text := Trim(parts[i]);
      if text != "" {
        var ordinal := |chunks| + 1;
        chunks := chunks + [Chunk(ChunkID(documentID, ordinal), documentID, ordinal, text)];
        texts := texts + [text];
      }
    }
    TextsStep("", []);
    assert parts[|parts|..] == [];
  }

  // ----- What the chunks keep

  lemma StripTrim(s: string)
    ensures StripSpace(Trim(s)) == StripSpace(s)
  {
    hide TrimLeft, TrimRight, StripSpace, Blank, IsSpace;
    var l := TrimLeft(s);
    var head, tail := s[..|s| - |l|], l[|Trim(s)|..];
    assert s == head + l && l == Trim(s) + tail;
    StripAppend(head, l);
    StripAppend(Trim(s), tail);
    StripBlank(head);
    StripBlank(tail);
  }

  lemma {:induction false} StripTexts(parts: seq<string>)
    ensures StripSpace(Concat(TextsOf(parts))) == StripSpace(Concat(parts))
  {
    hide TextsOf, Concat, StripSpace, Trim;
    TextsStep("", []);
    if parts != [] {
      var part, rest := parts[0], parts[1..];
      assert parts == [part] + rest;
      StripTexts(rest);
      TextsStep(part, rest);
      StripTrim(part);
      ConcatCons(part, rest);
      StripAppend(part, Concat(rest));
      if Trim(part) == "" {
        assert [] + TextsOf(rest) == TextsOf(rest);
        StripStep('a', "");
      } else {
        ConcatCons(Trim(part), TextsOf(rest));
        StripAppend(Trim(part), Concat(TextsOf(rest)));
      }
    }
  }

  lemma ConcatCons(s: string, rest: seq<string>)
    ensures Concat([s] + rest) == s + Concat(rest) && Concat([]) == ""
  {
    assert ([s] + rest)[1..] == rest;
  }

  lemma {:induction false} StripJoin(parts: seq<string>, sep: string)
    requires Blank(sep)
    ensures StripSpace(JoinWith(parts, sep)) == StripSpace(Concat(parts))
    decreases |parts|
  {
    hide JoinWith, Concat, StripSpace, Blank;
    if parts == [] {
      ConcatCons("", []);
      assert JoinWith([], sep) == "" by { JoinNone(sep); }
    } else {
      var part, rest := parts[0], parts[1..];
      assert parts == [part] + rest;
      StripJoin(rest, sep);
      JoinStep(part, rest, sep);
      ConcatCons(part, rest);
      ConcatCons("", []);
      if rest == [] {
        assert part + "" == part;
      } else {
        StripAppend(part + sep, JoinWith(rest, sep));
        StripAppend(part, sep);
        StripAppend(part, Concat(rest));
        StripBlank(sep);
      }
    }
  }

  lemma JoinNone(sep: string)
    ensures JoinWith([], sep) == ""
  {
  }

  /** A trimmed text found in one of the parts. */
  predicate CutFrom(parts: seq<string>, t: string) {
    t != "" && !IsSpace(t[0]) && !IsSpace(t[|t| - 1]) && exists k :: 0 <= k < |parts| && Contains(parts[k], t)
  }

  lemma CutFromLater(part: string, rest: seq<string>, t: string)
    requires CutFrom(rest, t) || (t != "" && !IsSpace(t[0]) && !IsSpace(t[|t| - 1]) && Contains(part, t))
    ensures CutFrom([part] + rest, t)
  {
    hide Contains, IsSpace;
    var all := [part] + rest;
    if CutFrom(rest, t) {
      var k :| 0 <= k < |rest| && Contains(rest[k], t);
      assert all[k + 1] == rest[k];
    } else {
      assert all[0] == part;
    }
  }

  lemma {:induction false} TextsAreSolid(parts: seq<string>)
    ensures forall i :: 0 <= i < |TextsOf(parts)| ==> CutFrom(parts, TextsOf(parts)[i])
  {
    hide TextsOf, Trim, Contains, CutFrom;
    TextsStep("", []);
    if parts != [] {
      var part, rest := parts[0], parts[1..];
      assert parts == [part] + rest;
      TextsAreSolid(rest);
      TextsStep(part, rest);
      if Trim(part) != "" { TrimSolid(part); }
      forall i | 0 <= i < |TextsOf(parts)| ensures CutFrom(parts, TextsOf(parts)[i]) {
        CutFromLater(part, rest, TextsOf(parts)[i]);
      }
    }
  }

  lemma TrimSolid(s: string)
    requires Trim(s) != ""
    ensures var t := Trim(s); !IsSpace(t[0]) && !IsSpace(t[|t| - 1]) && Contains(s, t)
  {
    hide TrimLeft, TrimRight, IsSpace, Blank;
    var l := TrimLeft(s);
    var t := Trim(s);
    assert t[0] == l[0];
    assert s[|s| - |l|..|s| - |l| + |t|] == t;
    assert OccursAt(s, t, |s| - |l|);
  }

  /** Chunking loses nothing but white space. */
  lemma ChunkingConserves(content: string)
    ensures StripSpace(Concat(Texts(content))) == StripSpace(content)
  {
    hide TextsOf, Concat, StripSpace, Split, JoinWith, Blank;
    var parts := Split(content, "\n\n");
    StripTexts(parts);
    JoinSplit(content, "\n\n");
    SeparatorIsBlank();
    StripJoin(parts, "\n\n");
  }

  /** Every chunk is a paragraph: trimmed, not empty, and without an empty line inside. */
  lemma ChunksAreParagraphs(content: string)
    ensures forall i :: 0 <= i < |Texts(content)| ==> Paragraph(Texts(content)[i])
  {
    hide TextsOf, Split, Contains, IsSpace;
    var parts := Split(content, "\n\n");
    TextsAreSolid(parts);
    PartsHaveNoSeparator(content, "\n\n");
    var texts := Texts(content);
    forall i | 0 <= i < |texts| ensures Paragraph(texts[i]) {
      assert CutFrom(parts, texts[i]);
      var k :| 0 <= k < |parts| && Contains(parts[k], texts[i]);
      if Contains(texts[i], "\n\n") { ContainsTransitive(parts[k], texts[i], "\n\n"); }
    }
  }

  /** Only a blank content has no chunks. */
  lemma NoChunksExactlyWhenBlank(content: string)
    ensures Texts(content) == [] <==> Blank(content)
  {
    hide TextsOf, Texts, Concat, StripSpace, Blank, Contains;
    ChunkingConserves(content);
    ChunksAreParagraphs(content);
    StripBlank(content);
    var texts := Texts(content);
    if texts == [] {
      ConcatCons("", []);
      StripStep('a', "");
    } else {
      var t := texts[0];
      assert Paragraph(t) && texts == [t] + texts[1..];
      ConcatCons(t, texts[1..]);
      StripAppend(t, Concat(texts[1..]));
      StripBlank(t);
      NotBlank(t, 0);
    }
  }

  predicate Paragraph(t: string) {
    t != "" && !IsSpace(t[0]) && !IsSpace(t[|t| - 1]) && !Contains(t, "\n\n")
  }

  lemma SeparatorIsBlank()
    ensures Blank("\n\n")
  {
  }

  /** Paragraphs joined by empty lines are cut into themselves: chunking is stable. */
  lemma {:induction false} ChunkingStable(texts: seq<string>)
    requires forall i :: 0 <= i < |texts| ==> Paragraph(texts[i])
    ensures Texts(JoinWith(texts, "\n\n")) == texts
    decreases |texts|
  {
    hide TextsOf, Split, JoinWith, Paragraph, Trim, FirstAtEnd;
    if texts == [] {
      JoinNone("\n\n");
      SplitStep("", "\n\n");
      EmptyText();
    } else {
      var t, rest := texts[0], texts[1..];
      assert texts == [t] + rest;
      ChunkingStable(rest);
      JoinStep(t, rest, "\n\n");
      ParagraphIsPart(t);
      TextsOfParagraph(t, rest);
    }
  }

  lemma TextsOfParagraph(t: string, rest: seq<string>)
    requires t != "" && FirstAtEnd(t, "\n\n") && Split(t, "\n\n") == [t] && Trim(t) == t
    requires Texts(JoinWith(rest, "\n\n")) == rest
    ensures Texts(if rest == [] then t else t + "\n\n" + JoinWith(rest, "\n\n")) == [t] + rest
  {
    hide TextsOf, Split, JoinWith, Trim, FirstAtEnd;
    if rest == [] {
      TextsStep(t, []);
      assert [t] + [] == [t];
    } else {
      SplitFirst(t, "\n\n", JoinWith(rest, "\n\n"));
      TextsStep(t, Split(JoinWith(rest, "\n\n"), "\n\n"));
    }
  }

  lemma EmptyText()
    ensures TextsOf([""]) == []
  {
    hide Trim;
    TextsStep("", []);
    TrimOfBlank("");
    assert [""] + [] == [""];
  }

  lemma ParagraphIsPart(t: string)
    requires Paragraph(t)
    ensures t != "" && FirstAtEnd(t, "\n\n") && Split(t, "\n\n") == [t] && Trim(t) == t
  {
    hide Split;
    forall i | 0 <= i < |t| ensures !("\n\n" <= (t + "\n\n")[i..]) {
      if i + 1 < |t| {
        assert !OccursAt(t, "\n\n", i);
        assert (t + "\n\n")[i..][..2] == t[i..i + 2];
      } else {
        assert (t + "\n\n")[i..][0] == t[i];
      }
    }
    NoSeparatorSplit(t, "\n\n");
    assert TrimLeft(t) == t && TrimRight(t) == t;
  }
}
