/** PersonaAgent.Stream: a provider's chunks pass the stream guard on their way to the client. */
module PersonaStreams {
  import opened Text
  import opened Normalization
  import opened StreamGuards

  datatype Reply = Delivered | Refused(canceled: bool)

  datatype Ending = Finished | ProviderError(canceled: bool)

  datatype Chunk = Chunk(content: string, done: bool)

  /** What a run depends on besides the chunks: the sink answers its k-th delta with replies[k]. */
  datatype Config = Config(claims: seq<string>, confidence: real, failClosed: bool, hasSink: bool, replies: seq<Reply>)

  datatype Status = Going | GuardRejected | SinkRefused(canceled: bool)

  datatype Progress = Progress(
    guard: Guarded, released: seq<string>, offered: seq<string>, accepted: string, status: Status)

  datatype FallbackKind = ProviderFallback | GuardFallback(decision: Decision) | EmptyResponse

  datatype Result = Failed | Fallback(kind: FallbackKind) | Generated(content: string)

  datatype Streaming = Streaming(progress: Progress, result: Result)

  function ReplyAt(replies: seq<Reply>, k: nat): Reply {
    if k < |replies| then replies[k] else Delivered
  }

  function Emit(cfg: Config, p: Progress, segment: string): Progress {
    if Trim(segment) == "" then p
    else if !cfg.hasSink then p.(accepted := p.accepted + segment)
    else
      var q := p.(offered := p.offered + [segment]);
      match ReplyAt(cfg.replies, |p.offered|)
      case Delivered => q.(accepted := p.accepted + segment)
      case Refused(canceled) => q.(status := SinkRefused(canceled))
  }

  function EmitAll(cfg: Config, p: Progress, segments: seq<string>): Progress
    decreases |segments|
  {
    if segments == [] || !p.status.Going? then p else EmitAll(cfg, Emit(cfg, p, segments[0]), segments[1..])
  }

  function Receive(cfg: Config, p: Progress, chunk: Chunk): Progress {
    if chunk.done then p
    else
      var step := Added(cfg.claims, p.guard, chunk.content);
      var q := p.(guard := step.next, released := p.released + step.segments);
      if step.decision != Ok then q.(status := GuardRejected) else EmitAll(cfg, q, step.segments)
  }

  function Opened(cfg: Config): Progress {
    Progress(Start(cfg.confidence), [], [], "", Going)
  }

  /** The provider stops at the first callback error. */
  function Received(cfg: Config, chunks: seq<Chunk>): Progress {
    if chunks == [] then Opened(cfg)
    else
      var p := Received(cfg, chunks[..|chunks| - 1]);
      if p.status.Going? then Receive(cfg, p, chunks[|chunks| - 1]) else p
  }

  predicate Canceled(status: Status, ending: Ending) {
    match status
    case Going => ending == ProviderError(true)
    case GuardRejected => false
    case SinkRefused(canceled) => canceled
  }

  function Close(cfg: Config, p: Progress): Streaming
    requires p.status.Going?
  {
    var last := Finalized(cfg.claims, cfg.confidence, p.guard);
    var q := p.(guard := last.next, released := p.released + last.segments);
    if last.decision != Ok then
      Streaming(q, if q.guard.visible then Failed else Fallback(GuardFallback(last.decision)))
    else
      var e := EmitAll(cfg, q, last.segments);
      if !e.status.Going? then Streaming(e, Failed)
      else if Trim(e.accepted) == "" then Streaming(e, Fallback(EmptyResponse))
      else Streaming(e, Generated(e.accepted))
  }

  function Streamed(cfg: Config, chunks: seq<Chunk>, ending: Ending): Streaming {
    var p := Received(cfg, chunks);
    if p.status.Going? && ending.Finished? then Close(cfg, p)
    else if Canceled(p.status, ending) || cfg.failClosed || p.guard.visible then Streaming(p, Failed)
    else Streaming(p, Fallback(ProviderFallback))
  }

  // ----- Accounting

  function Visible(segments: seq<string>): seq<string> {
    if segments == [] then []
    else (if Trim(segments[0]) == "" then [] else [segments[0]]) + Visible(segments[1..])
  }

  lemma VisibleStep(s: string, rest: seq<string>)
    ensures Visible([s] + rest) == (if Trim(s) == "" then [] else [s]) + Visible(rest)
    ensures Visible([]) == []
  {
    hide Trim;
    assert ([s] + rest)[1..] == rest;
  }

  lemma {:induction false} VisibleAppend(a: seq<string>, b: seq<string>)
    ensures Visible(a + b) == Visible(a) + Visible(b)
  {
    hide Visible;
    if a == [] {
      assert a + b == b;
      VisibleStep("", []);
    } else {
      VisibleAppend(a[1..], b);
      VisibleStep(a[0], a[1..]);
      VisibleStep(a[0], a[1..] + b);
      assert a == [a[0]] + a[1..] && a + b == [a[0]] + (a[1..] + b);
    }
  }

  lemma {:induction false} VisibleAll(segments: seq<string>, s: string)
    requires s in Visible(segments)
    ensures s in segments && Trim(s) != ""
  {
    hide Trim;
    if segments != [] && s != segments[0] { VisibleAll(segments[1..], s); }
    else if segments != [] && Trim(segments[0]) == "" { VisibleAll(segments[1..], s); }
  }

  /** No text is lost, and exactly the released segments that are not blank went out, in order. */
  predicate Accounted(cfg: Config, p: Progress) {
    && Concat(p.released) + p.guard.pending == p.guard.complete
    && (p.guard.visible <==> Visible(p.released) != [])
    && p.offered == (if cfg.hasSink then Visible(p.released) else [])
    && (!p.status.SinkRefused? ==> p.accepted == Concat(Visible(p.released)))
    && (p.status.SinkRefused? ==> Visible(p.released) != [])
  }

  lemma OneVisible(segments: seq<string>)
    requires |segments| <= 1
    ensures Visible(segments) == [] <==> Blank(Concat(segments))
    ensures Visible(segments) == if segments == [] || Trim(segments[0]) == "" then [] else segments
  {
    hide Trim, Concat, Blank;
    OneSegment("");
    if segments != [] {
      assert segments == [segments[0]] && segments[1..] == [];
      OneSegment(segments[0]);
      TrimOfBlank(segments[0]);
    }
  }

  lemma EmitAllKeeps(cfg: Config, p: Progress, before: seq<string>, segments: seq<string>)
    requires p.status.Going? && |segments| <= 1
    requires p.offered == (if cfg.hasSink then Visible(before) else []) && p.accepted == Concat(Visible(before))
    ensures var e := EmitAll(cfg, p, segments);
            && e.guard == p.guard && e.released == p.released
            && !e.status.GuardRejected?
            && e.offered == (if cfg.hasSink then Visible(before + segments) else [])
            && (e.status.Going? ==> e.accepted == Concat(Visible(before + segments)))
            && (e.status.SinkRefused? ==> Visible(before + segments) != [])
            && ((forall k :: 0 <= k < |cfg.replies| ==> cfg.replies[k].Delivered?) ==> e.status.Going?)
  {
    hide Trim, Concat, Visible;
    VisibleAppend(before, segments);
    OneVisible(segments);
    if segments == [] {
      assert before + segments == before;
    } else {
      assert segments == [segments[0]] && segments[1..] == [];
      assert Visible(before) + [] == Visible(before);
      ConcatSnoc(Visible(before), segments[0]);
    }
  }

  lemma AcceptStep(cfg: Config, p: Progress, step: Step)
    requires p.status.Going? && Accounted(cfg, p) && |step.segments| <= 1
    requires SeesOutput(p.guard, step)
    ensures step.next.visible <==> Visible(p.released + step.segments) != []
    ensures Concat(p.released + step.segments) == Concat(p.released) + Concat(step.segments)
  {
    hide Trim, Concat, Visible, Blank;
    VisibleAppend(p.released, step.segments);
    OneVisible(step.segments);
    ConcatAppend(p.released, step.segments);
  }

  lemma ReceiveKeeps(cfg: Config, p: Progress, chunk: Chunk)
    requires p.status.Going? && Accounted(cfg, p)
    ensures Accounted(cfg, Receive(cfg, p, chunk))
    ensures !chunk.done ==> Receive(cfg, p, chunk).guard.complete == p.guard.complete + chunk.content
  {
    hide Trim, Concat, Visible, Blank, Added, EmitAll;
    if !chunk.done {
      var step := Added(cfg.claims, p.guard, chunk.content);
      AddConserves(cfg.claims, p.guard, chunk.content);
      AcceptStep(cfg, p, step);
      var q := p.(guard := step.next, released := p.released + step.segments);
      assert Concat(q.released) + q.guard.pending == Concat(p.released) + (Concat(step.segments) + q.guard.pending);
      assert Concat(p.released) + (p.guard.pending + chunk.content) == p.guard.complete + chunk.content;
      if step.decision == Ok {
        EmitAllKeeps(cfg, q, p.released, step.segments);
      } else {
        assert p.released + [] == p.released;
      }
    }
  }

  lemma {:induction false} ReceivedKeeps(cfg: Config, chunks: seq<Chunk>)
    ensures Accounted(cfg, Received(cfg, chunks))
  {
    hide Accounted, Receive;
    if chunks == [] {
      OpenedAccounted(cfg);
    } else {
      var prefix := chunks[..|chunks| - 1];
      ReceivedKeeps(cfg, prefix);
      if Received(cfg, prefix).status.Going? { ReceiveKeeps(cfg, Received(cfg, prefix), chunks[|chunks| - 1]); }
    }
  }

  lemma OpenedAccounted(cfg: Config)
    ensures Accounted(cfg, Opened(cfg))
  {
  }

  lemma CloseKeeps(cfg: Config, p: Progress)
    requires p.status.Going? && Accounted(cfg, p)
    ensures Accounted(cfg, Close(cfg, p).progress)
  {
    hide Trim, Concat, Visible, Blank, Finalized, EmitAll, Check;
    var step := Finalized(cfg.claims, cfg.confidence, p.guard);
    FinalizeKeeps(cfg.claims, cfg.confidence, p.guard);
    AcceptStep(cfg, p, step);
    var q := p.(guard := step.next, released := p.released + step.segments);
    assert Concat(q.released) + q.guard.pending == Concat(p.released) + (Concat(step.segments) + q.guard.pending);
    if step.decision == Ok {
      EmitAllKeeps(cfg, q, p.released, step.segments);
    } else {
      assert p.released + [] == p.released;
    }
  }

  // ----- What the client can see

  predicate AllShowable(claims: seq<string>, segments: seq<string>) {
    forall i :: 0 <= i < |segments| ==> Showable(claims, segments[i])
  }

  /** Before the end of the text only clean whole sentences go out, and none at low confidence. */
  lemma {:induction false} ReceivedShows(cfg: Config, chunks: seq<Chunk>)
    ensures var p := Received(cfg, chunks);
            && AllShowable(cfg.claims, p.released)
            && (cfg.confidence < 0.5 ==> p.guard.buffering && p.released == [])
  {
    hide Added, EmitAll, Showable;
    if chunks != [] {
      var prefix := chunks[..|chunks| - 1];
      var chunk := chunks[|chunks| - 1];
      ReceivedShows(cfg, prefix);
      var p := Received(cfg, prefix);
      if p.status.Going? && !chunk.done {
        var step := Added(cfg.claims, p.guard, chunk.content);
        AddShows(cfg.claims, p.guard, chunk.content);
        AddConserves(cfg.claims, p.guard, chunk.content);
        EmitAllReleased(cfg, p.(guard := step.next, released := p.released + step.segments), step.segments);
      }
    }
  }

  /** A run that was not rejected has not outgrown the guard, and what it released never does. */
  lemma {:induction false} ReceivedFits(cfg: Config, chunks: seq<Chunk>)
    ensures var p := Received(cfg, chunks);
            && (!p.status.GuardRejected? ==> |p.guard.complete| <= CANDIDATE_LIMIT)
            && |Concat(p.released)| <= CANDIDATE_LIMIT
  {
    hide Receive, Concat;
    OneSegment("");
    if chunks != [] {
      var prefix := chunks[..|chunks| - 1];
      ReceivedFits(cfg, prefix);
      ReceivedKeeps(cfg, prefix);
      if Received(cfg, prefix).status.Going? { StepFits(cfg, Received(cfg, prefix), chunks[|chunks| - 1]); }
    }
  }

  lemma StepFits(cfg: Config, p: Progress, chunk: Chunk)
    requires p.status.Going? && |p.guard.complete| <= CANDIDATE_LIMIT && Accounted(cfg, p)
    ensures var q := Receive(cfg, p, chunk);
            && (!q.status.GuardRejected? ==> |q.guard.complete| <= CANDIDATE_LIMIT)
            && |Concat(q.released)| <= CANDIDATE_LIMIT
  {
    hide EmitAll, Concat, Visible, Check, Trim, LastBoundary, Blank;
    if !chunk.done {
      var step := Added(cfg.claims, p.guard, chunk.content);
      AddConserves(cfg.claims, p.guard, chunk.content);
      ConcatAppend(p.released, step.segments);
      var q := p.(guard := step.next, released := p.released + step.segments);
      EmitAllReleased(cfg, q, step.segments);
      assert p.released + [] == p.released;
      if step.decision == Ok { EmitAllKeeps(cfg, q, p.released, step.segments); }
    }
  }

  lemma {:induction false} EmitAllReleased(cfg: Config, p: Progress, segments: seq<string>)
    ensures var e := EmitAll(cfg, p, segments); e.guard == p.guard && e.released == p.released
    decreases |segments|
  {
    hide Trim;
    if segments != [] && p.status.Going? { EmitAllReleased(cfg, Emit(cfg, p, segments[0]), segments[1..]); }
  }

  /** The text a client has been handed, whatever became of the run. */
  function Shown(cfg: Config, chunks: seq<Chunk>, ending: Ending): string {
    Concat(Streamed(cfg, chunks, ending).progress.offered)
  }

  lemma CloseReleased(cfg: Config, p: Progress)
    requires p.status.Going?
    ensures Close(cfg, p).progress.released == p.released + Finalized(cfg.claims, cfg.confidence, p.guard).segments
  {
    hide EmitAll, Finalized, Check;
    var last := Finalized(cfg.claims, cfg.confidence, p.guard);
    var q := p.(guard := last.next, released := p.released + last.segments);
    EmitAllReleased(cfg, q, last.segments);
  }

  // ----- The stream against the guard on the whole text

  function Contents(chunks: seq<Chunk>): string {
    if chunks == [] then ""
    else
      var last := chunks[|chunks| - 1];
      Contents(chunks[..|chunks| - 1]) + if last.done then "" else last.content
  }

  lemma {:induction false} StripVisible(segments: seq<string>)
    ensures StripSpace(Concat(Visible(segments))) == StripSpace(Concat(segments))
  {
    hide Visible, Concat, StripSpace, Trim;
    if segments == [] {
      VisibleStep("", []);
    } else {
      var s, rest := segments[0], segments[1..];
      StripVisible(rest);
      VisibleStep(s, rest);
      assert segments == [s] + rest;
      ConcatAppend([s], rest);
      ConcatAppend([s], Visible(rest));
      OneSegment(s);
      StripAppend(s, Concat(rest));
      StripAppend(s, Concat(Visible(rest)));
      TrimOfBlank(s);
      StripBlank(s);
      assert [] + Visible(rest) == Visible(rest);
    }
  }

  /** A run that still goes on has all the text it was given. */
  lemma {:induction false} ReceivedText(cfg: Config, chunks: seq<Chunk>)
    ensures Received(cfg, chunks).status.Going? ==> Received(cfg, chunks).guard.complete == Contents(chunks)
  {
    hide Accounted, Receive;
    if chunks != [] {
      var prefix := chunks[..|chunks| - 1];
      var last := chunks[|chunks| - 1];
      ReceivedText(cfg, prefix);
      ReceivedKeeps(cfg, prefix);
      if Received(cfg, prefix).status.Going? {
        ReceiveKeeps(cfg, Received(cfg, prefix), last);
        DoneChunk(cfg, Received(cfg, prefix), last);
        assert Contents(prefix) + "" == Contents(prefix);
      }
    }
  }

  lemma DoneChunk(cfg: Config, p: Progress, chunk: Chunk)
    ensures chunk.done ==> Receive(cfg, p, chunk) == p
  {
    hide Added, EmitAll;
  }

  /** With a sink that takes everything, a text that is clean as a whole is never rejected on the way. */
  lemma {:induction false} CleanGoesOn(cfg: Config, chunks: seq<Chunk>)
    requires forall k :: 0 <= k < |cfg.replies| ==> cfg.replies[k].Delivered?
    requires |Contents(chunks)| <= CANDIDATE_LIMIT && Clean(cfg.claims, Contents(chunks))
    ensures Received(cfg, chunks).status.Going?
  {
    hide Accounted, Receive, Clean;
    if chunks != [] {
      var prefix := chunks[..|chunks| - 1];
      var last := chunks[|chunks| - 1];
      var text := if last.done then "" else last.content;
      assert "" + Contents(prefix) + text == Contents(chunks);
      CleanPart(cfg.claims, "", Contents(prefix), text);
      CleanGoesOn(cfg, prefix);
      ReceivedText(cfg, prefix);
      ReceivedKeeps(cfg, prefix);
      if last.done { DoneChunk(cfg, Received(cfg, prefix), last); }
      else { CleanStep(cfg, Received(cfg, prefix), last); }
    }
  }

  lemma CleanStep(cfg: Config, p: Progress, chunk: Chunk)
    requires forall k :: 0 <= k < |cfg.replies| ==> cfg.replies[k].Delivered?
    requires p.status.Going? && Accounted(cfg, p) && !chunk.done
    requires |p.guard.complete + chunk.content| <= CANDIDATE_LIMIT && Clean(cfg.claims, p.guard.complete + chunk.content)
    ensures Receive(cfg, p, chunk).status.Going?
  {
    hide Added, EmitAll, Concat, Visible, Clean;
    AddAllows(cfg.claims, p.guard, chunk.content, Concat(p.released));
    AddConserves(cfg.claims, p.guard, chunk.content);
    var step := Added(cfg.claims, p.guard, chunk.content);
    EmitAllKeeps(cfg, p.(guard := step.next, released := p.released + step.segments), p.released, step.segments);
  }

  /** What closing a run comes to: the guard on the whole text decides, and an answer is the shown text. */
  lemma CloseMeans(cfg: Config, p: Progress)
    requires p.status.Going? && Accounted(cfg, p)
    ensures var r := Close(cfg, p);
            var allowed := Check(cfg.claims, p.guard.complete, cfg.confidence) == Ok;
            && (r.result.Generated? ==>
                  && allowed && !Blank(p.guard.complete)
                  && StripSpace(r.result.content) == StripSpace(p.guard.complete)
                  && (cfg.hasSink ==> r.result.content == Concat(r.progress.offered)))
            && (r.result.Fallback? ==> r.progress.offered == [] && !r.result.kind.ProviderFallback?)
            && (r.result.Fallback? && r.result.kind.EmptyResponse? ==> allowed && Blank(p.guard.complete))
            && (r.result.Fallback? && r.result.kind.GuardFallback? ==> !allowed)
            && (allowed && (forall k :: 0 <= k < |cfg.replies| ==> cfg.replies[k].Delivered?) ==>
                  r.result.Generated? || r.result == Fallback(EmptyResponse))
  {
    hide Accounted, EmitAll, Concat, Visible, Clean, Trim, Check, Finalized, StripSpace, Blank;
    CloseKeeps(cfg, p);
    CloseText(cfg, p);
    var r := Close(cfg, p);
    FinalizeKeeps(cfg.claims, cfg.confidence, p.guard);
    AccountedMeans(cfg, p);
    AccountedMeans(cfg, r.progress);
    var step := Finalized(cfg.claims, cfg.confidence, p.guard);
    TrimOfBlank(r.progress.accepted);
    if step.decision == Ok {
      EmitAllKeeps(cfg, p.(guard := step.next, released := p.released + step.segments), p.released, step.segments);
    }
  }

  lemma CloseText(cfg: Config, p: Progress)
    requires p.status.Going?
    ensures Close(cfg, p).progress.guard == Finalized(cfg.claims, cfg.confidence, p.guard).next
  {
    hide EmitAll, Trim, Finalized;
    var step := Finalized(cfg.claims, cfg.confidence, p.guard);
    EmitAllReleased(cfg, p.(guard := step.next, released := p.released + step.segments), step.segments);
  }

  /** The facts of an accounted run in terms of the text it was given. */
  lemma AccountedMeans(cfg: Config, p: Progress)
    requires Accounted(cfg, p)
    ensures p.guard.pending == "" ==> Concat(p.released) == p.guard.complete
    ensures !p.status.SinkRefused? ==> StripSpace(p.accepted) == StripSpace(Concat(p.released))
    ensures !p.status.SinkRefused? ==> (Blank(p.accepted) <==> Blank(Concat(p.released)))
    ensures !p.guard.visible ==> p.offered == []
    ensures Blank(Concat(p.released)) ==> p.offered == []
    ensures !p.status.SinkRefused? && cfg.hasSink ==> p.accepted == Concat(p.offered)
    ensures !p.status.SinkRefused? ==> p.accepted == Concat(Visible(p.released))
    ensures p.offered == (if cfg.hasSink then Visible(p.released) else [])
  {
    hide Concat, Visible, StripSpace, Blank;
    StripVisible(p.released);
    StripBlank(Concat(p.released));
    StripBlank(p.accepted);
    assert Concat(p.released) + "" == Concat(p.released);
    VisibleBlank(p.released);
  }

  lemma {:induction false} VisibleBlank(segments: seq<string>)
    ensures Blank(Concat(segments)) ==> Visible(segments) == []
  {
    hide Visible, Trim;
    VisibleStep("", []);
    if segments != [] {
      var s, rest := segments[0], segments[1..];
      VisibleStep(s, rest);
      VisibleBlank(rest);
      assert segments == [s] + rest;
      TrimOfBlank(s);
      var all := s + Concat(rest);
      if Blank(all) {
        assert forall i :: 0 <= i < |s| ==> s[i] == all[i];
        assert forall i :: 0 <= i < |Concat(rest)| ==> Concat(rest)[i] == all[|s| + i];
      }
    }
  }

  /** All or nothing: an answer is exactly what the client was shown and passes the guard as a whole,
      changed in white space at most; a fallback answer comes only when nothing was shown. */
  lemma AllOrNothing(cfg: Config, chunks: seq<Chunk>, ending: Ending)
    ensures var r := Streamed(cfg, chunks, ending);
            && (r.result.Generated? ==>
                  && ending.Finished?
                  && Check(cfg.claims, Contents(chunks), cfg.confidence) == Ok
                  && !Blank(r.result.content)
                  && StripSpace(r.result.content) == StripSpace(Contents(chunks))
                  && (cfg.hasSink ==> r.result.content == Concat(r.progress.offered)))
            && (r.result.Fallback? ==> r.progress.offered == [])
  {
    hide Accounted, Received, Close, Check, Blank, StripSpace, Concat, Contents;
    ReceivedKeeps(cfg, chunks);
    ReceivedText(cfg, chunks);
    var p := Received(cfg, chunks);
    AccountedMeans(cfg, p);
    if p.status.Going? {
      CloseMeans(cfg, p);
      var r := Close(cfg, p);
      if r.result.Generated? {
        StripBlank(r.result.content);
        StripBlank(Contents(chunks));
      }
    }
  }

  /** The streamed guard agrees with the guard on the whole text, whatever the chunks: with a sink that
      takes every delta, the text becomes the answer exactly when it is within the size limit, the guard
      allows it as a whole and it is not blank. */
  lemma AgreesWithWholeGuard(cfg: Config, chunks: seq<Chunk>)
    requires forall k :: 0 <= k < |cfg.replies| ==> cfg.replies[k].Delivered?
    ensures var r := Streamed(cfg, chunks, Finished).result;
            var text := Contents(chunks);
            var allowed := |text| <= CANDIDATE_LIMIT && Check(cfg.claims, text, cfg.confidence) == Ok;
            && (r.Generated? <==> allowed && !Blank(text))
            && (r == Fallback(EmptyResponse) <==> allowed && Blank(text))
  {
    hide Accounted, Received, Close, Check, Blank, Contents, Clean, Concat;
    ReceivedKeeps(cfg, chunks);
    ReceivedText(cfg, chunks);
    ReceivedFits(cfg, chunks);
    CheckMeans(cfg.claims, Contents(chunks), cfg.confidence);
    var p := Received(cfg, chunks);
    if |Contents(chunks)| <= CANDIDATE_LIMIT && Clean(cfg.claims, Contents(chunks)) { CleanGoesOn(cfg, chunks); }
    if p.status.Going? { CloseMeans(cfg, p); }
  }

  /** Which of its outcomes a run has. The guard's fallback and the provider's come only when nothing went out; a
      cancellation, a refused delta and a closed fallback policy fail the run. */
  lemma EndsExactly(cfg: Config, chunks: seq<Chunk>, ending: Ending)
    ensures var p, r := Received(cfg, chunks), Streamed(cfg, chunks, ending);
            var decision := Check(cfg.claims, Contents(chunks), cfg.confidence);
            var closing := p.status.Going? && ending == Finished;
            && (r.result.Generated? <==> closing && decision == Ok && r.progress.status.Going? && !Blank(Contents(chunks)))
            && (r.result == Fallback(EmptyResponse) <==> closing && decision == Ok && r.progress.status.Going? && Blank(Contents(chunks)))
            && (r.result == Fallback(GuardFallback(decision)) <==> closing && decision != Ok && Blank(Concat(p.released)))
            && (r.result == Fallback(ProviderFallback) <==>
                  && !cfg.failClosed && Blank(Concat(p.released))
                  && (p.status.GuardRejected? || (p.status.Going? && ending == ProviderError(false))))
            && (r.result.Fallback? && r.result.kind.GuardFallback? ==> r.result.kind.decision == decision)
  {
    hide Accounted, Received, Close, Check, Blank, Concat, Contents, Visible;
    ReceivedKeeps(cfg, chunks);
    ReceivedText(cfg, chunks);
    var p := Received(cfg, chunks);
    NothingVisible(cfg, p);
    if p.status.Going? { CloseExactly(cfg, p); }
  }

  lemma NothingVisible(cfg: Config, p: Progress)
    requires Accounted(cfg, p)
    ensures !p.guard.visible <==> Blank(Concat(p.released))
    ensures p.status.SinkRefused? ==> p.guard.visible
  {
    hide Concat, Visible, StripSpace;
    StripVisible(p.released);
    StripBlank(Concat(p.released));
    StripBlank("");
    OneSegment("");
    VisibleBlank(p.released);
  }

  lemma CloseExactly(cfg: Config, p: Progress)
    requires p.status.Going? && Accounted(cfg, p)
    ensures var r := Close(cfg, p);
            var decision := Check(cfg.claims, p.guard.complete, cfg.confidence);
            && (decision != Ok ==> r.result == if p.guard.visible then Failed else Fallback(GuardFallback(decision)))
            && (decision == Ok ==>
                  r.result == if !r.progress.status.Going? then Failed
                              else if Blank(p.guard.complete) then Fallback(EmptyResponse)
                              else Generated(r.progress.accepted))
  {
    hide Accounted, EmitAll, Trim, Check, Blank, Concat, Visible;
    CloseMeans(cfg, p);
    FinalizeKeeps(cfg.claims, cfg.confidence, p.guard);
  }

  /** Every delta before the last was taken, and a refused delta is the last one and ends the run. */
  predicate Answered(cfg: Config, p: Progress) {
    && (forall k :: 0 <= k < |p.offered| - 1 ==> ReplyAt(cfg.replies, k) == Delivered)
    && (if p.offered == [] then !p.status.SinkRefused?
        else match ReplyAt(cfg.replies, |p.offered| - 1)
             case Delivered => !p.status.SinkRefused?
             case Refused(canceled) => p.status == SinkRefused(canceled))
  }

  lemma RefusalEnds(cfg: Config, chunks: seq<Chunk>, ending: Ending)
    ensures Answered(cfg, Streamed(cfg, chunks, ending).progress)
  {
    hide Answered, Received, EmitAll, Check, Finalized, Trim;
    ReceivedAnswered(cfg, chunks);
    var p := Received(cfg, chunks);
    if p.status.Going? && ending.Finished? {
      var last := Finalized(cfg.claims, cfg.confidence, p.guard);
      var q := p.(guard := last.next, released := p.released + last.segments);
      StaysAnswered(cfg, p, q);
      EmitAllAnswered(cfg, q, last.segments);
    }
  }

  lemma {:induction false} ReceivedAnswered(cfg: Config, chunks: seq<Chunk>)
    ensures Answered(cfg, Received(cfg, chunks))
  {
    hide EmitAll, Added;
    if chunks != [] {
      var p, chunk := Received(cfg, chunks[..|chunks| - 1]), chunks[|chunks| - 1];
      ReceivedAnswered(cfg, chunks[..|chunks| - 1]);
      if p.status.Going? && !chunk.done {
        var step := Added(cfg.claims, p.guard, chunk.content);
        EmitAllAnswered(cfg, p.(guard := step.next, released := p.released + step.segments), step.segments);
      }
    }
  }

  lemma StaysAnswered(cfg: Config, p: Progress, q: Progress)
    requires Answered(cfg, p) && q.offered == p.offered && q.status == p.status
    ensures Answered(cfg, q)
  {
  }

  lemma {:induction false} EmitAllAnswered(cfg: Config, p: Progress, segments: seq<string>)
    requires Answered(cfg, p)
    ensures Answered(cfg, EmitAll(cfg, p, segments))
    decreases |segments|
  {
    hide Trim;
    if segments != [] && p.status.Going? { EmitAllAnswered(cfg, Emit(cfg, p, segments[0]), segments[1..]); }
  }

  /** At low confidence nothing is shown before the whole text has passed, so no claim of any form is. */
  lemma LowConfidenceShowsCheckedText(cfg: Config, chunks: seq<Chunk>, ending: Ending)
    requires cfg.confidence < 0.5
    ensures var r := Streamed(cfg, chunks, ending);
            r.progress.offered != [] ==>
              r.progress.offered == [Contents(chunks)] && Check(cfg.claims, Contents(chunks), cfg.confidence) == Ok
  {
    hide Accounted, Received, Close, Check, Contents, Concat, Visible, AllShowable;
    ReceivedKeeps(cfg, chunks);
    ReceivedText(cfg, chunks);
    ReceivedShows(cfg, chunks);
    var p := Received(cfg, chunks);
    AccountedMeans(cfg, p);
    OneSegment("");
    if p.status.Going? { CloseAtOnce(cfg, p); }
  }

  lemma CloseAtOnce(cfg: Config, p: Progress)
    requires p.status.Going? && Accounted(cfg, p) && p.released == []
    ensures var e := Close(cfg, p).progress;
            e.offered != [] ==> e.offered == [p.guard.complete] && Check(cfg.claims, p.guard.complete, cfg.confidence) == Ok
  {
    hide EmitAll, Concat, Visible, Trim, Check, Finalized, Blank;
    CloseKeeps(cfg, p);
    CloseReleased(cfg, p);
    OneSegment("");
    VisibleStep("", []);
    var step := Finalized(cfg.claims, cfg.confidence, p.guard);
    FinalizeKeeps(cfg.claims, cfg.confidence, p.guard);
    OneVisible(step.segments);
    assert [] + step.segments == step.segments;
    assert "" + p.guard.pending == p.guard.pending;
  }

  /** Chunks after a callback error are not looked at. */
  lemma {:induction false} ReceivedStops(cfg: Config, chunks: seq<Chunk>, k: nat)
    requires k <= |chunks|
    requires k == |chunks| || !Received(cfg, chunks[..k]).status.Going?
    ensures Received(cfg, chunks) == Received(cfg, chunks[..k])
    decreases |chunks|
  {
    hide Receive;
    if k == |chunks| {
      assert chunks[..k] == chunks;
    } else {
      var prefix := chunks[..|chunks| - 1];
      assert prefix[..k] == chunks[..k];
      ReceivedStops(cfg, prefix, k);
    }
  }

  // ----- The running program

  /** A client that takes deltas; it may refuse one. */
  class DeltaSink {
    const replies: seq<Reply>
    var offered: seq<string>

    constructor (replies: seq<Reply>)
      ensures this.replies == replies && offered == []
    {
      this.replies, offered := replies, [];
    }

    method EmitAssistantDelta(segment: string) returns (reply: Reply)
      modifies this
      ensures offered == old(offered) + [segment] && reply == ReplyAt(replies, |old(offered)|)
    {
      reply := ReplyAt(replies, |offered|);
      offered := offered + [segment];
    }
  }

  class PersonaAgent {
    const claims: seq<string>
    const failClosed: bool

    constructor (claims: seq<string>, failClosed: bool)
      ensures this.claims == claims && this.failClosed == failClosed
    {
      this.claims, this.failClosed := claims, failClosed;
    }

    function ConfigOf(sink: DeltaSink?, confidence: real): Config {
      Config(claims, confidence, failClosed, sink != null, if sink == null then [] else sink.replies)
    }

    static function OfferedTo(sink: DeltaSink?): seq<string>
      reads if sink == null then {} else {sink}
    {
      if sink == null then [] else sink.offered
    }

    method EmitDelta(sink: DeltaSink?, accepted: string, segment: string, ghost cfg: Config, ghost p: Progress)
      returns (grown: string, status: Status)
      requires cfg.hasSink <==> sink != null
      requires sink != null ==> cfg.replies == sink.replies
      requires p.status.Going? && p.offered == OfferedTo(sink) && p.accepted == accepted
      modifies if sink == null then {} else {sink}
      ensures var e := Emit(cfg, p, segment);
              e.offered == OfferedTo(sink) && e.accepted == grown && e.status == status
    {
      if Trim(segment) == "" { return accepted, Going; }
      if sink != null {
        var reply := sink.EmitAssistantDelta(segment);
        if reply.Refused? { return accepted, SinkRefused(reply.canceled); }
      }
      return accepted + segment, Going;
    }

    /** The loop over the segments of one guard step. */
    method EmitSegments(sink: DeltaSink?, accepted: string, segments: seq<string>, ghost cfg: Config, ghost p: Progress)
      returns (grown: string, status: Status)
      requires cfg.hasSink <==> sink != null
      requires sink != null ==> cfg.replies == sink.replies
      requires p.status.Going? && p.offered == OfferedTo(sink) && p.accepted == accepted
      modifies if sink == null then {} else {sink}
      ensures var e := EmitAll(cfg, p, segments);
              e.offered == OfferedTo(sink) && e.accepted == grown && e.status == status
    {
      hide Trim, Emit;
      grown, status := accepted, Going;
      ghost var q := p;
      var k := 0;
      while k < |segments| && status.Going?
        invariant k <= |segments|
        invariant q.offered == OfferedTo(sink) && q.accepted == grown && q.status == status
        invariant EmitAll(cfg, p, segments) == EmitAll(cfg, q, segments[k..])
      {
        ghost var e := Emit(cfg, q, segments[k]);
        assert segments[k..][1..] == segments[k + 1..];
        grown, status := EmitDelta(sink, grown, segments[k], cfg, q);
        q := e;
        k := k + 1;
      }
    }

    /** What the provider's callback does with one chunk. */
    method Callback(guard: StreamGuard, sink: DeltaSink?, accepted: string, chunk: Chunk, ghost cfg: Config, ghost p: Progress)
      returns (grown: string, status: Status, ghost q: Progress)
      requires cfg.hasSink <==> sink != null
      requires sink != null ==> cfg.replies == sink.replies
      requires cfg.claims == guard.claims
      requires p.status.Going? && p.offered == OfferedTo(sink) && p.accepted == accepted && p.guard == guard.State()
      modifies guard, if sink == null then {} else {sink}
      ensures q == Receive(cfg, p, chunk)
      ensures q.offered == OfferedTo(sink) && q.accepted == grown && q.status == status && q.guard == guard.State()
    {
      hide Trim, EmitAll, Added;
      if chunk.done { return accepted, Going, p; }
      var segments, decision, _ := guard.Add(chunk.content);
      q := p.(guard := guard.State(), released := p.released + segments);
      if decision != Ok { return accepted, GuardRejected, q.(status := GuardRejected); }
      EmitAllReleased(cfg, q, segments);
      grown, status := EmitSegments(sink, accepted, segments, cfg, q);
      q := EmitAll(cfg, q, segments);
    }

    /** What happens once the provider has delivered everything. */
    method Finish(guard: StreamGuard, sink: DeltaSink?, accepted: string, ghost cfg: Config, ghost p: Progress)
      returns (result: Result)
      requires cfg.hasSink <==> sink != null
      requires sink != null ==> cfg.replies == sink.replies
      requires cfg.claims == guard.claims && cfg.confidence == guard.confidence
      requires p.status.Going? && p.offered == OfferedTo(sink) && p.accepted == accepted && p.guard == guard.State()
      modifies guard, if sink == null then {} else {sink}
      ensures OfferedTo(sink) == Close(cfg, p).progress.offered && result == Close(cfg, p).result
    {
      hide Trim, EmitAll, Finalized;
      var segments, decision, _ := guard.Finalize();
      ghost var q := p.(guard := guard.State(), released := p.released + segments);
      if decision != Ok {
        if guard.visibleOutput { return Failed; }
        return Fallback(GuardFallback(decision));
      }
      var content, status := EmitSegments(sink, accepted, segments, cfg, q);
      if !status.Going? { return Failed; }
      if Trim(content) == "" { return Fallback(EmptyResponse); }
      return Generated(content);
    }

    /** PersonaAgent.Stream from the provider call on: its deltas and its result are those of the run. */
    method Stream(sink: DeltaSink?, confidence: real, chunks: seq<Chunk>, ending: Ending) returns (result: Result)
      requires OfferedTo(sink) == []
      modifies if sink == null then {} else {sink}
      ensures var r := Streamed(ConfigOf(sink, confidence), chunks, ending);
              OfferedTo(sink) == r.progress.offered && result == r.result
    {
      hide Trim, Receive, EmitAll, Added, Finalized, Canceled;
      ghost var cfg := ConfigOf(sink, confidence);
      var guard := new StreamGuard(claims, confidence);
      var accepted, status := "", Going;
      ghost var p := Opened(cfg);
      var k := 0;
      while k < |chunks| && status.Going?
        invariant k <= |chunks|
        invariant fresh(guard) && guard.claims == claims && guard.confidence == confidence
        invariant p == Received(cfg, chunks[..k])
        invariant p.offered == OfferedTo(sink) && p.accepted == accepted && p.status == status && p.guard == guard.State()
      {
        accepted, status, p := Callback(guard, sink, accepted, chunks[k], cfg, p);
        assert chunks[..k + 1][..k] == chunks[..k];
        k := k + 1;
      }
      ReceivedStops(cfg, chunks, k);
      if !status.Going? || ending != Finished {
        if Canceled(status, ending) || failClosed { return Failed; }
        if guard.visibleOutput { return Failed; }
        return Fallback(ProviderFallback);
      }
      result := Finish(guard, sink, accepted, cfg, p);
    }
  }
}
