/** What reaches the exporter: batches, and what a successful forceFlush promises about them. */
module BatchExport {
  import opened Wrappers
  import opened BatchProtocol
  import opened BatchControl
  import opened BatchQueue
  import opened BatchFlush
  import opened BatchShutdown

  predicate BatchBound(c: Config, b: set<SpanId>) {
    1 <= |b| <= c.maxBatchSize
  }

  predicate InBatch(log: seq<ExporterCall>, i: int, p: SpanId) {
    0 <= i < |log| && log[i].Batch? && p in log[i].spans
  }

  /** The batches are proper, no two share a span, and together they are exactly the exported spans. */
  ghost predicate BatchesInv(c: Config, log: seq<ExporterCall>, exported: set<SpanId>) {
    && (forall i :: 0 <= i < |log| && log[i].Batch? ==> BatchBound(c, log[i].spans))
    && (forall i, j, p :: InBatch(log, i, p) && InBatch(log, j, p) ==> i == j)
    && (forall p :: p in exported <==> exists i :: InBatch(log, i, p))
  }

  ghost predicate ExportInv(c: Config, s: State) {
    && BatchesInv(c, s.log, s.exported)
    && (s.worker.pc == Pop(PopCount) || s.worker.pc == Pop(Export) ==> BatchBound(c, s.worker.batch))
  }

  lemma BatchesAppend(c: Config, log: seq<ExporterCall>, exported: set<SpanId>, e: ExporterCall)
    requires BatchesInv(c, log, exported)
    requires e.Batch? ==> BatchBound(c, e.spans) && e.spans !! exported
    ensures BatchesInv(c, log + [e], exported + (if e.Batch? then e.spans else {}))
  {
    var log' := log + [e];
    forall i, p | InBatch(log', i, p)
      ensures if i == |log| then e.Batch? && p in e.spans else InBatch(log, i, p)
    {
    }
    forall i, p | InBatch(log, i, p)
      ensures InBatch(log', i, p)
    {
    }
    forall p | e.Batch? && p in e.spans
      ensures InBatch(log', |log|, p)
    {
    }
  }

  lemma ExportWorker(c: Config, s: State, choice: Choice)
    requires ExportInv(c, s) && QueueInv(c, s) && WorkEnabled(c, s, choice)
    ensures ExportInv(c, WorkerStep(c, s, choice))
  {
    var t, w := WorkerStep(c, s, choice), s.worker;
    HeldAfter(c, s, choice);
    if w.pc == Pop(Export) {
      BatchesAppend(c, s.log, s.exported, Batch(w.batch, choice.flag, w.request));
    } else if w.pc == Req(FlushExporter) || w.pc == Close(FinalFlush) {
      BatchesAppend(c, s.log, s.exported, FlushCall(choice.flag, w.request));
    }
  }

  lemma ExportStep(c: Config, s: State, a: Step)
    requires ExportInv(c, s) && QueueInv(c, s) && Enabled(c, s, a)
    ensures ExportInv(c, Do(c, s, a))
  {
    match a
    case Work(choice) => ExportWorker(c, s, choice);
    case Stop(x, ok) => BatchesAppend(c, s.log, s.exported, ShutdownCall(ok, x));
    case _ =>
  }

  // ---------------------------------------------------------------- flush means exported

  /** The request the worker is completing. */
  predicate Current(s: State, f: CallId) {
    s.worker.request == Some(f) && f in s.flush.requests
  }

  /** Every batch exported on behalf of request f has succeeded. */
  ghost predicate BatchesOk(log: seq<ExporterCall>, f: CallId) {
    forall i :: 0 <= i < |log| && log[i].Batch? && log[i].forRequest == Some(f) ==> log[i].success
  }

  /** The spans accepted before request f was enqueued have been exported. */
  predicate Flushed(s: State, f: CallId)
    requires f in s.flush.requests
  {
    s.flush.requests[f].before <= s.exported
  }

  ghost predicate BeforeAccepted(s: State) {
    forall f :: f in s.flush.requests ==> s.flush.requests[f].before <= AcceptedSpans(s.spans.callers)
  }

  /** What is known of the request being completed, at the end of its drain and after. */
  ghost predicate CurrentFlushed(s: State) {
    s.worker.request.Some? && s.worker.request.value in s.flush.requests ==>
      && (s.worker.pc == Idle(IdleDone) ==> Flushed(s, s.worker.request.value) || Expired(s))
      && (s.worker.ok && (s.worker.pc == Req(FlushExporter) || s.worker.pc == Req(StoreOk)) ==>
            Flushed(s, s.worker.request.value))
  }

  ghost predicate CompletedFlushed(s: State) {
    forall f :: f in s.flush.requests && s.flush.requests[f].stores == 1 && s.flush.requests[f].ok ==> Flushed(s, f)
  }

  ghost predicate FlushedInv(s: State) {
    BeforeAccepted(s) && CurrentFlushed(s) && CompletedFlushed(s)
  }

  ghost predicate TaggedInv(s: State) {
    && (forall i :: 0 <= i < |s.log| && s.log[i].Batch? && s.log[i].forRequest.Some? ==>
          s.log[i].forRequest.value in s.flush.requests && s.log[i].forRequest.value !in s.flush.queue)
    && (forall f :: Current(s, f) && s.worker.ok && s.worker.pc != Req(ReleaseDone) ==> BatchesOk(s.log, f))
    && (forall f :: f in s.flush.requests && s.flush.requests[f].stores == 1 && s.flush.requests[f].ok ==>
          BatchesOk(s.log, f))
  }

  lemma AcceptedGrows(c: Config, s: State, a: Step)
    requires Enabled(c, s, a)
    ensures AcceptedSpans(s.spans.callers) <= AcceptedSpans(Do(c, s, a).spans.callers)
  {
    var t := Do(c, s, a);
    forall p | p in AcceptedSpans(s.spans.callers)
      ensures p in AcceptedSpans(t.spans.callers)
    {
      assert p in t.spans.callers && HasAccepted(t.spans.callers[p]);
    }
  }

  /** How a drain ends, and how the verdict survives until it is stored. */
  lemma DrainVerdict(c: Config, s: State, choice: Choice)
    requires WorkEnabled(c, s, choice)
    ensures var w, w' := s.worker, NextWorker(c, s, choice);
      && (w'.pc == Idle(IdleDone) ==> (w.pc == Idle(IdleClock) && Expired(s)) || (w.pc == Idle(IdleEmpty) && s.spans.size == 0))
      && (w'.ok && (w'.pc == Req(FlushExporter) || w'.pc == Req(StoreOk)) ==>
            (w.pc == Idle(IdleDone) && w.ok && !Expired(s)) || (w.pc == Req(FlushExporter) && w.ok))
      && (w'.request.Some? && w.pc != Req(TakeRequest) ==> w'.request == w.request)
      && (w.pc == Req(TakeRequest) ==> w'.pc != Idle(IdleDone) && w'.pc != Req(FlushExporter) && w'.pc != Req(StoreOk))
  {
  }

  lemma CurrentWorker(c: Config, s: State, choice: Choice)
    requires FlushedInv(s) && QueueInv(c, s) && RequestInv(s) && WorkEnabled(c, s, choice)
    ensures CurrentFlushed(WorkerStep(c, s, choice))
  {
    DrainVerdict(c, s, choice);
    var t := WorkerStep(c, s, choice);
    if t.worker.request.Some? && s.worker.pc != Req(TakeRequest) {
      var f := s.worker.request.value;
      assert t.flush.requests[f].before == s.flush.requests[f].before && s.exported <= t.exported;
      assert t.flush.requests[f].deadline == s.flush.requests[f].deadline;
      if s.worker.pc == Idle(IdleEmpty) && s.spans.size == 0 {
        EmptyWhenZero(c, s);
        assert AcceptedSpans(s.spans.callers) == s.exported;
      }
    }
  }

  lemma CompletedWorker(c: Config, s: State, choice: Choice)
    requires FlushedInv(s) && RequestInv(s) && WorkEnabled(c, s, choice)
    ensures CompletedFlushed(WorkerStep(c, s, choice)) && BeforeAccepted(WorkerStep(c, s, choice))
  {
    var t := WorkerStep(c, s, choice);
    forall f | f in t.flush.requests
      ensures f in s.flush.requests && t.flush.requests[f].before == s.flush.requests[f].before
      ensures t.flush.requests[f].stores == 1 && t.flush.requests[f].ok ==> Flushed(t, f)
    {
      assert RequestState(s, f);
    }
  }

  lemma FlushedStep(c: Config, s: State, a: Step)
    requires FlushedInv(s) && QueueInv(c, s) && RequestInv(s) && Enabled(c, s, a)
    ensures FlushedInv(Do(c, s, a))
  {
    AcceptedGrows(c, s, a);
    match a
    case Work(choice) =>
      CurrentWorker(c, s, choice);
      CompletedWorker(c, s, choice);
    case Flush(f, accept) => FlushedFlusher(s, f, accept);
    case _ =>
  }

  lemma FlushedFlusher(s: State, f: CallId, accept: bool)
    requires FlushedInv(s) && RequestInv(s) && f in s.flush.callers && FlushEnabled(s, f, accept)
    ensures FlushedInv(FlusherStep(s, f, accept))
  {
    var t := FlusherStep(s, f, accept);
    assert forall g :: g in s.flush.requests && g != f ==> t.flush.requests[g] == s.flush.requests[g];
  }

  lemma TaggedAppend(s: State, t: State, e: ExporterCall)
    requires TaggedInv(s) && t.log == s.log + [e]
    requires t.flush == s.flush && t.worker.request == s.worker.request && t.worker.pc != Req(ReleaseDone)
    requires s.worker.pc != Req(ReleaseDone) && (t.worker.ok ==> s.worker.ok)
    requires e.Batch? ==>
      && e.forRequest == s.worker.request && (t.worker.ok ==> e.success)
      && (e.forRequest.Some? ==>
            && e.forRequest.value in s.flush.requests && e.forRequest.value !in s.flush.queue
            && s.flush.requests[e.forRequest.value].stores == 0)
    ensures TaggedInv(t)
  {
    forall f | BatchesOk(s.log, f) && (e.Batch? && e.forRequest == Some(f) ==> e.success)
      ensures BatchesOk(t.log, f)
    {
    }
    assert forall f :: Current(t, f) ==> Current(s, f);
  }

  lemma TaggedWorker(c: Config, s: State, choice: Choice)
    requires TaggedInv(s) && ControlInv(c, s) && RequestInv(s) && WorkEnabled(c, s, choice)
    ensures TaggedInv(WorkerStep(c, s, choice))
  {
    var t, w := WorkerStep(c, s, choice), s.worker;
    assert t.flush.requests.Keys == s.flush.requests.Keys;
    if w.request.Some? {
      assert RequestState(s, w.request.value);
      assert w.request == Some(w.request.value) && w.request.value !in s.flush.queue;
    }
    if w.pc == Pop(Export) {
      TaggedAppend(s, t, Batch(w.batch, choice.flag, w.request));
    } else if w.pc == Req(FlushExporter) || w.pc == Close(FinalFlush) {
      TaggedAppend(s, t, FlushCall(choice.flag, w.request));
    } else {
      assert t.log == s.log;
      if w.pc == Req(TakeRequest) && s.flush.queue != {} {
        assert BatchesOk(s.log, choice.request);
      }
    }
  }

  lemma TaggedStep(c: Config, s: State, a: Step)
    requires TaggedInv(s) && ControlInv(c, s) && RequestInv(s) && Enabled(c, s, a)
    ensures TaggedInv(Do(c, s, a))
  {
    if a.Work? {
      TaggedWorker(c, s, a.choice);
    } else {
      var t := Do(c, s, a);
      assert t.worker == s.worker;
      assert forall f :: Current(t, f) ==> Current(s, f);
      assert forall f :: BatchesOk(s.log, f) ==> BatchesOk(t.log, f);
    }
  }
}
