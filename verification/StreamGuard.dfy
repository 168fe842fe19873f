/** The persona guard (guard.go) and its incremental form for streamed text (stream_guard.go). */
module StreamGuards {
  import opened Text
  import opened Normalization

  const PENDING_LIMIT := 4 * 1024
  const CANDIDATE_LIMIT := 256 * 1024

  const MARKERS := ["not certain", "uncertain", "likely", "might", "may", "could", "i think"]

  datatype Decision = Ok | ForbiddenClaim(claim: string) | MissingUncertainty | CandidateTooLarge

  // ----- The guard on a whole text

  predicate ContainsUncertainty(content: string) {
    exists i :: 0 <= i < |MARKERS| && Contains(content, MARKERS[i])
  }

  /** The phrases that own up to uncertainty. */
  lemma UncertaintyMeans(content: string)
    ensures ContainsUncertainty(content) <==>
              || Contains(content, "not certain") || Contains(content, "uncertain") || Contains(content, "likely")
              || Contains(content, "might") || Contains(content, "may") || Contains(content, "could") || Contains(content, "i think")
  {
    hide Contains;
    assert MARKERS[0] == "not certain" && MARKERS[1] == "uncertain" && MARKERS[2] == "likely" && MARKERS[3] == "might"
           && MARKERS[4] == "may" && MARKERS[5] == "could" && MARKERS[6] == "i think";
  }

  /** The empty claim is skipped; a claim of white space only occurs in every text. */
  predicate Hit(content: string, claim: string) {
    claim != "" && Contains(NormalizeText(content), NormalizeText(claim))
  }

  function Check(claims: seq<string>, content: string, confidence: real): Decision
    decreases |claims|
  {
    if claims == [] then
      if confidence < 0.5 && !ContainsUncertainty(NormalizeText(content)) then MissingUncertainty else Ok
    else if Hit(content, claims[0]) then ForbiddenClaim(Trim(claims[0]))
    else Check(claims[1..], content, confidence)
  }

  /** No claim of the list occurs. */
  predicate Clean(claims: seq<string>, content: string) {
    forall i :: 0 <= i < |claims| ==> !Hit(content, claims[i])
  }

  /** What an allowed text is, and that a rejection names the first claim that occurs. */
  lemma {:induction false} CheckMeans(claims: seq<string>, content: string, confidence: real)
    ensures var d := Check(claims, content, confidence);
            && !d.CandidateTooLarge?
            && (d == Ok <==> Clean(claims, content) && (confidence < 0.5 ==> ContainsUncertainty(NormalizeText(content))))
            && (d == MissingUncertainty ==> Clean(claims, content) && confidence < 0.5)
            && (d.ForbiddenClaim? <==> !Clean(claims, content))
            && (d.ForbiddenClaim? ==>
                  exists i :: 0 <= i < |claims| && Hit(content, claims[i]) && d.claim == Trim(claims[i]) && Clean(claims[..i], content))
  {
    hide Hit, ContainsUncertainty, Trim;
    if claims != [] {
      var rest := claims[1..];
      if Hit(content, claims[0]) {
        assert Clean(claims[..0], content);
      } else {
        CheckMeans(rest, content, confidence);
        assert forall i :: 0 <= i < |rest| ==> rest[i] == claims[i + 1];
        assert Clean(rest, content) <==> Clean(claims, content);
        var d := Check(rest, content, confidence);
        if d.ForbiddenClaim? {
          var i :| 0 <= i < |rest| && Hit(content, rest[i]) && d.claim == Trim(rest[i]) && Clean(rest[..i], content);
          assert Clean(claims[..i + 1], content) by { assert claims[..i + 1] == [claims[0]] + rest[..i]; }
        }
      }
    }
  }

  /** A part of a clean text is clean, whatever the claims. */
  lemma CleanPart(claims: seq<string>, a: string, t: string, b: string)
    requires Clean(claims, a + t + b)
    ensures Clean(claims, t)
  {
    hide Contains, NormalizeText;
    forall i | 0 <= i < |claims| ensures Hit(t, claims[i]) ==> Hit(a + t + b, claims[i]) {
      if Hit(t, claims[i]) { NormalizePart(a, t, b, NormalizeText(claims[i])); }
    }
  }

  // ----- Sentence boundaries

  predicate Boundary(c: char) {
    c == '.' || c == '!' || c == '?' || c == '\n'
  }

  function LastBoundary(value: string): (n: nat)
    ensures n <= |value|
    ensures n > 0 ==> Boundary(value[n - 1])
    ensures forall i :: n <= i < |value| ==> !Boundary(value[i])
  {
    if value == "" then 0
    else if Boundary(value[|value| - 1]) then |value|
    else LastBoundary(value[..|value| - 1])
  }

  method LastSentenceBoundary(value: string) returns (n: nat)
    ensures n <= |value|
    ensures n > 0 ==> Boundary(value[n - 1])
    ensures forall i :: n <= i < |value| ==> !Boundary(value[i])
    ensures n == LastBoundary(value)
  {
    for i := |value| downto 0
      invariant forall j :: i <= j < |value| ==> !Boundary(value[j])
    {
      if Boundary(value[i]) { return i + 1; }
    }
    return 0;
  }

  // ----- The incremental guard

  /** The fields of a stream guard that change. */
  datatype Guarded = Guarded(pending: string, complete: string, buffering: bool, visible: bool)

  datatype Step = Step(next: Guarded, segments: seq<string>, decision: Decision, buffered: bool)

  function Start(confidence: real): Guarded {
    Guarded("", "", confidence < 0.5, false)
  }

  function Added(claims: seq<string>, s: Guarded, chunk: string): Step {
    if chunk == "" then Step(s, [], Ok, s.buffering)
    else
      var t := s.(pending := s.pending + chunk, complete := s.complete + chunk);
      if |t.complete| > CANDIDATE_LIMIT then Step(t, [], CandidateTooLarge, t.buffering)
      else if t.buffering then Step(t, [], Ok, true)
      else if Check(claims, t.pending, 0.9) != Ok then Step(t, [], Check(claims, t.pending, 0.9), false)
      else if |t.pending| > PENDING_LIMIT then Step(t.(buffering := true), [], Ok, true)
      else
        var n := LastBoundary(t.pending);
        if n == 0 then Step(t, [], Ok, false)
        else
          Step(t.(pending := t.pending[n..], visible := t.visible || Trim(t.pending[..n]) != ""), [t.pending[..n]], Ok, false)
  }

  function Finalized(claims: seq<string>, confidence: real, s: Guarded): Step {
    var d := Check(claims, s.complete, confidence);
    if d != Ok || s.pending == "" then Step(s, [], d, s.buffering)
    else Step(s.(pending := "", visible := s.visible || Trim(s.pending) != ""), [s.pending], d, s.buffering)
  }

  /** A segment a stream may show before its end: it closes a sentence, is short and contains no claim. */
  predicate Showable(claims: seq<string>, segment: string) {
    0 < |segment| <= PENDING_LIMIT && Boundary(segment[|segment| - 1]) && Clean(claims, segment)
  }

  /** The part of the fields that a released segment leaves visible. */
  predicate SeesOutput(before: Guarded, step: Step) {
    step.next.visible <==> before.visible || !Blank(Concat(step.segments))
  }

  /** Either everything is kept, or what precedes the last boundary is released. */
  lemma AddCases(claims: seq<string>, s: Guarded, chunk: string)
    ensures var step := Added(claims, s, chunk);
            var pending := s.pending + chunk;
            var n := LastBoundary(pending);
            && step.next.complete == s.complete + chunk
            && (s.buffering ==> step.next.buffering)
            && if step.segments == [] then step.next.pending == pending && step.next.visible == s.visible
               else step.decision == Ok && !s.buffering && n > 0 && step.segments == [pending[..n]] && step.next.pending == pending[n..]
                    && step.next.visible == (s.visible || Trim(pending[..n]) != "")
  {
    hide Check, Trim, LastBoundary;
    assert s.pending + "" == s.pending && s.complete + "" == s.complete;
  }

  /** Adding a chunk loses no text, and a rejected chunk releases nothing. */
  lemma AddConserves(claims: seq<string>, s: Guarded, chunk: string)
    ensures var step := Added(claims, s, chunk);
            && |step.segments| <= 1
            && Concat(step.segments) + step.next.pending == s.pending + chunk
            && step.next.complete == s.complete + chunk
            && (step.decision != Ok ==> step.segments == [])
            && (s.buffering ==> step.next.buffering && step.segments == [])
            && SeesOutput(s, step)
  {
    hide Check, Trim, Clean, Concat, LastBoundary, Blank, Added;
    AddCases(claims, s, chunk);
    var pending := s.pending + chunk;
    if Added(claims, s, chunk).segments == [] {
      OneSegment("");
      assert "" + pending == pending;
    } else {
      CutSegment(pending, LastBoundary(pending));
    }
  }

  lemma CutSegment(pending: string, n: nat)
    requires n <= |pending|
    ensures Concat([pending[..n]]) + pending[n..] == pending
    ensures Blank(Concat([pending[..n]])) <==> Trim(pending[..n]) == ""
  {
    hide Concat, Trim, Blank;
    OneSegment(pending[..n]);
    TrimOfBlank(pending[..n]);
  }

  lemma CheckedPart(claims: seq<string>, pending: string, n: nat)
    requires Check(claims, pending, 0.9) == Ok && n <= |pending|
    ensures Clean(claims, pending[..n])
  {
    hide Check, Clean;
    CheckMeans(claims, pending, 0.9);
    assert "" + pending[..n] + pending[n..] == pending;
    CleanPart(claims, "", pending[..n], pending[n..]);
  }

  /** A stream shows only clean whole sentences, and keeps back only an unfinished sentence
      unless the guard has turned to buffering. */
  lemma AddShows(claims: seq<string>, s: Guarded, chunk: string)
    ensures var step := Added(claims, s, chunk);
            && (forall i :: 0 <= i < |step.segments| ==> Showable(claims, step.segments[i]))
            && (chunk != "" && step.decision == Ok && !step.next.buffering ==>
                  forall i :: 0 <= i < |step.next.pending| ==> !Boundary(step.next.pending[i]))
  {
    hide Check, Trim, Clean, LastBoundary;
    var pending := s.pending + chunk;
    var n := LastBoundary(pending);
    if Check(claims, pending, 0.9) == Ok { CheckedPart(claims, pending, n); }
  }

  lemma OneSegment(segment: string)
    ensures Concat([segment]) == segment && Concat([]) == "" && Blank("")
  {
    assert [segment][1..] == [];
    assert segment + "" == segment;
  }

  /** Finalising releases all that is kept back when, and only when, the whole text passes. */
  lemma FinalizeKeeps(claims: seq<string>, confidence: real, s: Guarded)
    ensures var step := Finalized(claims, confidence, s);
            && |step.segments| <= 1
            && step.decision == Check(claims, s.complete, confidence)
            && step.next.complete == s.complete
            && Concat(step.segments) + step.next.pending == s.pending
            && (step.decision == Ok <==> Check(claims, s.complete, confidence) == Ok)
            && (step.decision == Ok ==> step.next.pending == "")
            && (step.decision != Ok ==> step.segments == [])
            && (forall i :: 0 <= i < |step.segments| ==> step.segments[i] == s.pending)
            && SeesOutput(s, step)
  {
    hide Check, Trim, Concat, Blank;
    OneSegment(s.pending);
    TrimOfBlank(s.pending);
    assert s.pending + "" == s.pending && "" + s.pending == s.pending;
  }

  /** While the incremental guard has seen a text that is clean as a whole and not too long, it rejects nothing. */
  lemma AddAllows(claims: seq<string>, s: Guarded, chunk: string, before: string)
    requires s.complete == before + s.pending
    requires |s.complete + chunk| <= CANDIDATE_LIMIT && Clean(claims, s.complete + chunk)
    ensures Added(claims, s, chunk).decision == Ok
  {
    hide Check, Trim, Clean;
    var pending := s.pending + chunk;
    assert before + pending + "" == s.complete + chunk;
    CleanPart(claims, before, pending, "");
    CheckMeans(claims, pending, 0.9);
  }

  class StreamGuard {
    const claims: seq<string>
    const confidence: real
    var fullBuffer: bool
    var pending: string
    var complete: string
    var visibleOutput: bool

    constructor (claims: seq<string>, confidence: real)
      ensures this.claims == claims && this.confidence == confidence && State() == Start(confidence)
    {
      this.claims, this.confidence := claims, confidence;
      fullBuffer, pending, complete, visibleOutput := confidence < 0.5, "", "", false;
    }

    function State(): Guarded
      reads this
    {
      Guarded(pending, complete, fullBuffer, visibleOutput)
    }

    method Add(chunk: string) returns (segments: seq<string>, decision: Decision, buffered: bool)
      modifies this
      ensures Added(claims, old(State()), chunk) == Step(State(), segments, decision, buffered)
    {
      hide Check, Trim, LastBoundary;
      if chunk == "" { return [], Ok, fullBuffer; }
      pending := pending + chunk;
      complete := complete + chunk;
      if |complete| > CANDIDATE_LIMIT { return [], CandidateTooLarge, fullBuffer; }
      if fullBuffer { return [], Ok, true; }
      decision := Check(claims, pending, 0.9);
      if decision != Ok { return [], decision, false; }
      if |pending| > PENDING_LIMIT {
        fullBuffer := true;
        return [], Ok, true;
      }
      var boundary := LastSentenceBoundary(pending);
      if boundary == 0 { return [], Ok, false; }
      var segment := pending[..boundary];
      pending := pending[boundary..];
      visibleOutput := visibleOutput || Trim(segment) != "";
      return [segment], Ok, false;
    }

    method Finalize() returns (segments: seq<string>, decision: Decision, buffered: bool)
      modifies this
      ensures Finalized(claims, confidence, old(State())) == Step(State(), segments, decision, buffered)
    {
      hide Check, Trim;
      decision := Check(claims, complete, confidence);
      if decision != Ok { return [], decision, fullBuffer; }
      if pending == "" { return [], decision, fullBuffer; }
      segments := [pending];
      visibleOutput := visibleOutput || Trim(pending) != "";
      pending := "";
      return segments, decision, fullBuffer;
    }
  }
}
