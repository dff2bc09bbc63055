/** The promises of the batch span processor, for every run and every interleaving. */
module BatchTheorems {
  import opened Wrappers
  import opened MapCount
  import opened BatchProtocol
  import opened BatchControl
  import opened BatchQueue
  import opened BatchFlush
  import opened BatchShutdown
  import opened BatchWakeup
  import opened BatchExport

  ghost predicate SpanInv(c: Config, s: State) {
    && QueueInv(c, s) && NotifyOutcomes(s.spans.callers) && ExportInv(c, s)
    && SealInv(s) && OnEndInv(c, s) && SignalInv(s)
  }

  ghost predicate CallInv(s: State) {
    && GateInv(s) && RequestInv(s) && WakeInv(s) && FlushedInv(s) && TaggedInv(s)
    && JoinInv(s) && ExporterInv(s) && WaitInv(s)
  }

  ghost predicate Inv(c: Config, s: State) {
    Normal(c) && ControlInv(c, s) && SpanInv(c, s) && CallInv(s)
  }

  lemma InitCounts(s: State)
    requires s.spans.callers == map[] && s.flush.callers == map[]
    ensures Where(s.spans.callers, HoldsSlot) == {} && Where(s.spans.callers, Admitted) == {}
    ensures Where(s.spans.callers, DroppedFull) == {} && Where(s.spans.callers, HasAccepted) == {}
    ensures Where(s.flush.callers, Inside) == {}
  {
  }

  lemma InitSpanInv(c: Config, now: int)
    requires Normal(c)
    ensures SpanInv(c, Init(now))
  {
    InitCounts(Init(now));
  }

  lemma InitInv(c: Config, now: int)
    requires Normal(c)
    ensures Inv(c, Init(now))
  {
    InitCounts(Init(now));
    InitSpanInv(c, now);
  }

  lemma SpanInvStep(c: Config, s: State, a: Step)
    requires Inv(c, s) && Enabled(c, s, a)
    ensures SpanInv(c, Do(c, s, a))
  {
    QueueStep(c, s, a);
    NotifyOutcomesStep(c, s, a);
    ExportStep(c, s, a);
    SealStep(c, s, a);
    OnEndStep(c, s, a);
    SignalStep(c, s, a);
  }

  lemma CallInvStep(c: Config, s: State, a: Step)
    requires Inv(c, s) && Enabled(c, s, a)
    ensures CallInv(Do(c, s, a))
  {
    GateStep(c, s, a);
    RequestStep(c, s, a);
    WakeStep(c, s, a);
    FlushedStep(c, s, a);
    TaggedStep(c, s, a);
    JoinStep(c, s, a);
    ExporterStep(c, s, a);
    WaitStep(c, s, a);
  }

  lemma InvStep(c: Config, s: State, a: Step)
    requires Inv(c, s) && Enabled(c, s, a)
    ensures Inv(c, Do(c, s, a))
  {
    ControlStep(c, s, a);
    SpanInvStep(c, s, a);
    CallInvStep(c, s, a);
  }

  lemma {:induction false} InvRun(c: Config, s: State, steps: seq<Step>)
    requires Inv(c, s) && Runs(c, s, steps)
    ensures Inv(c, After(c, s, steps))
    decreases |steps|
  {
    if steps != [] {
      InvStep(c, s, steps[0]);
      InvRun(c, Do(c, s, steps[0]), steps[1..]);
    }
  }

  lemma ReachableInv(c: Config, s: State)
    requires Reachable(c, s)
    ensures Inv(Normalize(c), s)
  {
    var start, steps :| Runs(Normalize(c), Init(start), steps) && After(Normalize(c), Init(start), steps) == s;
    InitInv(Normalize(c), start);
    InvRun(Normalize(c), Init(start), steps);
  }

  // ---------------------------------------------------------------- size and capacity

  /** The size counter, its lower bound and the capacity bound, in every reachable state. */
  lemma SizeAndCapacity(c: Config, s: State)
    requires Reachable(c, s)
    ensures s.spans.size == |s.spans.queue| + |Where(s.spans.callers, HoldsSlot)| + |Uncounted(s.worker)|
    ensures s.spans.size >= 0
    ensures s.spans.size == 0 ==> s.spans.queue == {}
    ensures |s.spans.queue| + |Where(s.spans.callers, Admitted)| <= Normalize(c).queueCapacity
  {
    ReachableInv(c, s);
  }

  // ---------------------------------------------------------------- conservation

  predicate ExactlyOne(a: bool, b: bool, d: bool) {
    (a && !b && !d) || (!a && b && !d) || (!a && !b && d)
  }

  /** Every span is where its onEnd call said it went, and in one place only. */
  lemma Conservation(c: Config, s: State, p: SpanId)
    requires Reachable(c, s) && p in s.spans.callers && s.spans.callers[p].Returned?
    ensures s.spans.callers[p].outcome == Accepted ==>
      ExactlyOne(p in s.spans.queue, p in Held(s.worker), exists i :: InBatch(s.log, i, p))
    ensures s.spans.callers[p].outcome != Accepted ==>
      p !in s.spans.queue && p !in Held(s.worker) && !exists i :: InBatch(s.log, i, p)
    ensures forall i, j :: InBatch(s.log, i, p) && InBatch(s.log, j, p) ==> i == j
  {
    ReachableInv(c, s);
    assert p in AcceptedSpans(s.spans.callers) <==> s.spans.callers[p].outcome == Accepted;
  }

  /** droppedSpanCount is the number of calls that returned kFull; batches have the configured size. */
  lemma DropsAndBatches(c: Config, s: State)
    requires Reachable(c, s)
    ensures s.spans.dropped == |set p | p in s.spans.callers && s.spans.callers[p] == Returned(Full)|
    ensures forall i :: 0 <= i < |s.log| && s.log[i].Batch? ==>
      1 <= |s.log[i].spans| <= Normalize(c).maxBatchSize <= Normalize(c).queueCapacity
  {
    ReachableInv(c, s);
    assert Where(s.spans.callers, DroppedFull)
        == set p | p in s.spans.callers && s.spans.callers[p] == Returned(Full);
    forall i | 0 <= i < |s.log| && s.log[i].Batch?
      ensures BatchBound(Normalize(c), s.log[i].spans)
    {
    }
  }

  // ---------------------------------------------------------------- nothing is stranded

  /** Once the worker has stopped, every accepted span has been exported, in exactly one batch. */
  lemma NoStrandedSpan(c: Config, s: State)
    requires Reachable(c, s) && s.stop.workerStopped
    ensures s.spans.queue == {} && Held(s.worker) == {}
    ensures forall p :: p in s.spans.callers && HasAccepted(s.spans.callers[p]) ==> exists i :: InBatch(s.log, i, p)
    ensures forall i, j, p :: InBatch(s.log, i, p) && InBatch(s.log, j, p) ==> i == j
  {
    ReachableInv(c, s);
    forall p | p in s.spans.callers && HasAccepted(s.spans.callers[p])
      ensures exists i :: InBatch(s.log, i, p)
    {
      assert p in AcceptedSpans(s.spans.callers);
      assert p in s.exported;
    }
  }

  /** The log is the same, or exporter.shutdown was called once more. */
  ghost predicate AtMostShutdown(log: seq<ExporterCall>, log': seq<ExporterCall>) {
    log' == log || exists ok, x :: log' == log + [ShutdownCall(ok, x)]
  }

  /** ... and no later step of anybody can accept another one. */
  lemma {:induction false} NothingAcceptedAfterStop(c: Config, s: State, steps: seq<Step>)
    requires Inv(c, s) && s.stop.workerStopped && Runs(c, s, steps)
    ensures AcceptedSpans(After(c, s, steps).spans.callers) == AcceptedSpans(s.spans.callers)
    decreases |steps|
  {
    if steps != [] {
      InvStep(c, s, steps[0]);
      StoppedStep(c, s, steps[0]);
      NothingAcceptedAfterStop(c, Do(c, s, steps[0]), steps[1..]);
    }
  }

  /** The only exporter call left after the worker has stopped is one exporter.shutdown. */
  lemma {:induction false} NoExportAfterStop(c: Config, s: State, steps: seq<Step>)
    requires Inv(c, s) && s.stop.workerStopped && Runs(c, s, steps)
    ensures AtMostShutdown(s.log, After(c, s, steps).log)
    decreases |steps|
  {
    if steps != [] {
      var t := Do(c, s, steps[0]);
      InvStep(c, s, steps[0]);
      StoppedStep(c, s, steps[0]);
      NoExportAfterStop(c, t, steps[1..]);
      InvRun(c, t, steps[1..]);
      ShutdownCalls(s.log, t.log, After(c, t, steps[1..]).log);
    }
  }

  lemma ShutdownCalls(s: seq<ExporterCall>, t: seq<ExporterCall>, u: seq<ExporterCall>)
    requires AtMostShutdown(s, t) && AtMostShutdown(t, u)
    requires forall i, j :: 0 <= i < |u| && 0 <= j < |u| && u[i].ShutdownCall? && u[j].ShutdownCall? ==> i == j
    ensures AtMostShutdown(s, u)
  {
    if t != s {
      assert u[|t| - 1].ShutdownCall? && u[|u| - 1].ShutdownCall?;
    }
  }

  lemma StoppedStep(c: Config, s: State, a: Step)
    requires ControlInv(c, s) && SealInv(s) && s.stop.workerStopped && Enabled(c, s, a)
    ensures Do(c, s, a).stop.workerStopped
    ensures AcceptedSpans(Do(c, s, a).spans.callers) == AcceptedSpans(s.spans.callers)
    ensures AtMostShutdown(s.log, Do(c, s, a).log)
  {
    var t := Do(c, s, a);
    forall p
      ensures p in AcceptedSpans(t.spans.callers) <==> p in AcceptedSpans(s.spans.callers)
    {
      assert p in s.spans.callers ==> p in t.spans.callers;
    }
    if t.log != s.log {
      assert t.log == s.log + [ShutdownCall(a.ok, a.stop)];
    }
  }

  /** Once the worker has stopped, every request ever enqueued was answered, exactly once. */
  lemma NoStrandedFlush(c: Config, s: State)
    requires Reachable(c, s) && s.stop.workerStopped
    ensures forall f :: f in s.flush.callers && HasRequest(s.flush.callers[f]) ==>
      f in s.flush.requests && s.flush.requests[f].stores == 1 && s.flush.requests[f].releases == 1
    ensures s.flush.queue == {}
    ensures forall f :: f in s.flush.callers ==> !MayEnqueue(s.flush.callers[f])
  {
    ReachableInv(c, s);
    forall f | f in s.flush.callers && HasRequest(s.flush.callers[f])
      ensures f in s.flush.requests && s.flush.requests[f].stores == 1 && s.flush.requests[f].releases == 1
    {
      assert f in s.flush.requests && RequestState(s, f);
    }
  }

  // ---------------------------------------------------------------- wakeups

  /** A worker about to wait at the loop head finds a permit for every queued request that was announced. */
  lemma NoLostFlushWakeup(c: Config, s: State, f: CallId)
    requires Reachable(c, s) && f in s.flush.queue && f in s.flush.callers && HasNotified(s.flush.callers[f])
    ensures s.signal.permits > 0 || RequestDrainAhead(s.worker)
    ensures s.worker.pc == Head(HeadWait) ==> s.signal.permits > 0
  {
    ReachableInv(c, s);
  }

  /** The worker observes an empty request queue somewhere along the run. */
  ghost predicate SeesNoRequest(c: Config, s: State, steps: seq<Step>)
    requires Runs(c, s, steps)
    decreases |steps|
  {
    steps != [] && (
      (steps[0].Work? && s.worker.pc == Req(TakeRequest) && s.flush.queue == {})
      || SeesNoRequest(c, Do(c, s, steps[0]), steps[1..]))
  }

  /** What "a drain is ahead" means: no way back to the wait without finding the request queue empty. */
  lemma {:induction false} DrainComesBeforeWait(c: Config, s: State, steps: seq<Step>)
    requires Inv(c, s) && Runs(c, s, steps)
    requires RequestDrainAhead(s.worker) && After(c, s, steps).worker.pc == Head(HeadWait)
    ensures SeesNoRequest(c, s, steps)
    decreases |steps|
  {
    if steps != [] && !(steps[0].Work? && s.worker.pc == Req(TakeRequest) && s.flush.queue == {}) {
      AheadKept(c, s, steps[0]);
      InvStep(c, s, steps[0]);
      DrainComesBeforeWait(c, Do(c, s, steps[0]), steps[1..]);
    }
  }

  lemma AheadKept(c: Config, s: State, a: Step)
    requires ControlInv(c, s) && Enabled(c, s, a) && RequestDrainAhead(s.worker)
    requires !(a.Work? && s.worker.pc == Req(TakeRequest) && s.flush.queue == {})
    ensures RequestDrainAhead(Do(c, s, a).worker)
  {
  }

  /**
   kOnEnd: with the worker at its wait, an accepted span left in the queue has a permit present or coming, unless a
   flush deadline left spans behind and the worker has not found the queue empty since.
   */
  lemma NoLostSpanWakeup(c: Config, s: State, p: SpanId)
    requires Reachable(c, s) && c.mode == OnEnd && !s.drainCutShort
    requires p in s.spans.queue && p in s.spans.callers && s.spans.callers[p] == Returned(Accepted)
    requires s.worker.pc == Head(HeadWait)
    ensures s.signal.permits > 0 || PermitComing(s)
  {
    ReachableInv(c, s);
    assert Announced(s.spans.callers[p]);
  }

  /** signalPending is never set without a wakeup behind it. */
  lemma PendingMeansWakeup(c: Config, s: State)
    requires Reachable(c, s) && s.signal.pending
    ensures
      s.signal.permits > 0 || PermitComing(s) || s.worker.pc == Head(HeadClear) || s.worker.pc == Idle(IdleClear)
  {
    ReachableInv(c, s);
  }

  // ---------------------------------------------------------------- flush means exported

  lemma BeforeStep(c: Config, s: State, a: Step, f: CallId)
    requires RequestInv(s) && Enabled(c, s, a) && f in s.flush.requests
    ensures f in Do(c, s, a).flush.requests
    ensures Do(c, s, a).flush.requests[f].before == s.flush.requests[f].before
  {
  }

  lemma {:induction false} BeforeKept(c: Config, s: State, steps: seq<Step>, f: CallId)
    requires Inv(c, s) && Runs(c, s, steps) && f in s.flush.requests
    ensures f in After(c, s, steps).flush.requests
    ensures After(c, s, steps).flush.requests[f].before == s.flush.requests[f].before
    decreases |steps|
  {
    if steps != [] {
      var t := Do(c, s, steps[0]);
      BeforeStep(c, s, steps[0], f);
      InvStep(c, s, steps[0]);
      BeforeKept(c, t, steps[1..], f);
    }
  }

  /**
   forceFlush enqueues its request in state s; when it later returns true through that request, every
   span accepted by then had been passed to exportBatch and every batch drained for it succeeded.
   */
  lemma FlushMeansExported(c: Config, s: State, f: CallId, steps: seq<Step>)
    requires Reachable(c, s)
    requires f in s.flush.callers && s.flush.callers[f].FlushEnqueue?
    requires Enabled(Normalize(c), s, Flush(f, true))
    requires Runs(Normalize(c), Do(Normalize(c), s, Flush(f, true)), steps)
    ensures var t := After(Normalize(c), Do(Normalize(c), s, Flush(f, true)), steps);
      f in t.flush.callers && t.flush.callers[f] == FlushReturned(true, true) ==>
        && AcceptedSpans(s.spans.callers) <= t.exported
        && forall i :: 0 <= i < |t.log| && t.log[i].Batch? && t.log[i].forRequest == Some(f) ==> t.log[i].success
  {
    var d := Normalize(c);
    ReachableInv(c, s);
    InvStep(d, s, Flush(f, true));
    var m := Do(d, s, Flush(f, true));
    assert m.flush.requests[f].before == AcceptedSpans(s.spans.callers);
    BeforeKept(d, m, steps, f);
    InvRun(d, m, steps);
    var t := After(d, m, steps);
    if f in t.flush.callers && t.flush.callers[f] == FlushReturned(true, true) {
      assert RequestState(t, f);
      assert Flushed(t, f) && BatchesOk(t.log, f);
    }
  }

  // ---------------------------------------------------------------- shutdown

  /** At most one shutdown call joins, exporter.shutdown runs at most once, and without an expired poll it runs last. */
  lemma SingleJoinSingleShutdown(c: Config, s: State)
    requires Reachable(c, s)
    ensures forall x, y ::
      x in s.stop.callers && y in s.stop.callers && s.stop.callers[x].joiner && s.stop.callers[y].joiner ==> x == y
    ensures forall i, j ::
      0 <= i < |s.log| && 0 <= j < |s.log| && s.log[i].ShutdownCall? && s.log[j].ShutdownCall? ==> i == j
    ensures !s.stop.pollExpired ==>
      forall i :: 0 <= i < |s.log| && s.log[i].ShutdownCall? ==> i == |s.log| - 1 && s.stop.workerStopped
  {
    ReachableInv(c, s);
  }

  /** shutdown returning true means the worker is gone and nothing accepted or requested was left behind. */
  lemma ShutdownMeansDrained(c: Config, s: State, x: CallId)
    requires Reachable(c, s) && x in s.stop.callers && s.stop.callers[x].pc.StopReturned? && s.stop.callers[x].ok
    ensures s.stop.workerStopped && AcceptedSpans(s.spans.callers) == s.exported
    ensures forall f :: f in s.flush.requests ==> s.flush.requests[f].stores == 1 && s.flush.requests[f].releases == 1
  {
    ReachableInv(c, s);
    assert SawStopped(s, x);
    NoStrandedFlush(c, s);
  }
}
