/** shutdown: sealing the span queue, the single join and the single exporter shutdown. */
module BatchShutdown {
  import opened MapCount
  import opened BatchProtocol
  import opened BatchControl
  import opened BatchQueue

  /** The worker has seen size == 0 after it saw shutdown. */
  predicate Sealed(w: Worker) {
    w.round == Third && !w.pc.Head?
  }

  /** After that, nothing is queued and nobody can enqueue: every reservation will meet the closed check. */
  ghost predicate SealInv(s: State) {
    Sealed(s.worker) ==>
      && s.spans.queue == {} && Held(s.worker) == {}
      && s.worker.pc != Pop(PopCount) && s.worker.pc != Pop(Export)
      && forall p :: p in s.spans.callers ==> !s.spans.callers[p].Enqueue?
  }

  lemma EmptyWhenZero(c: Config, s: State)
    requires QueueInv(c, s) && s.spans.size == 0
    ensures s.spans.queue == {} && Uncounted(s.worker) == {}
    ensures forall p :: p in s.spans.callers ==> !HoldsSlot(s.spans.callers[p])
  {
    WhereNone(s.spans.callers, HoldsSlot);
  }

  lemma SealWorker(c: Config, s: State, choice: Choice)
    requires SealInv(s) && QueueInv(c, s) && ControlInv(c, s) && WorkEnabled(c, s, choice)
    ensures SealInv(WorkerStep(c, s, choice))
  {
    if s.spans.size == 0 {
      EmptyWhenZero(c, s);
    }
    HeldAfter(c, s, choice);
  }

  lemma SealStep(c: Config, s: State, a: Step)
    requires SealInv(s) && QueueInv(c, s) && ControlInv(c, s) && Enabled(c, s, a)
    ensures SealInv(Do(c, s, a))
  {
    if a.Work? {
      SealWorker(c, s, a.choice);
    }
  }

  // ---------------------------------------------------------------- shutdown callers

  ghost predicate JoinInv(s: State) {
    && (forall x :: x in s.stop.callers && s.stop.callers[x].joiner ==> s.stop.joinClaimed)
    && (forall x, y :: x in s.stop.callers && y in s.stop.callers && s.stop.callers[x].joiner && s.stop.callers[y].joiner
          ==> x == y)
    && (forall x :: x in s.stop.callers && s.stop.callers[x].pc.StopJoin? ==> s.stop.callers[x].joiner)
    && (forall x :: x in s.stop.callers && !s.stop.callers[x].pc.StopStoreFlag? ==> s.stop.shutdownRequested)
  }

  predicate CallsExporter(s: State, x: CallId) {
    x in s.stop.callers && s.stop.callers[x].pc.StopCallExporter?
  }

  /** Past its wait the call still means to return true. */
  predicate SawStopped(s: State, x: CallId) {
    && x in s.stop.callers && PastWait(s.stop.callers[x].pc)
    && !s.stop.callers[x].pc.StopReadStopped? && s.stop.callers[x].ok
  }

  /** At most one call reaches exporter.shutdown, and it is reached at most once. */
  ghost predicate ExporterInv(s: State) {
    && (forall x :: CallsExporter(s, x) ==> s.stop.exporterShutdown)
    && (forall x, y :: CallsExporter(s, x) && CallsExporter(s, y) ==> x == y)
    && (forall i :: 0 <= i < |s.log| && s.log[i].ShutdownCall? ==>
          s.stop.exporterShutdown && forall x :: !CallsExporter(s, x))
    && (forall i, j :: 0 <= i < |s.log| && 0 <= j < |s.log| && s.log[i].ShutdownCall? && s.log[j].ShutdownCall? ==> i == j)
  }

  /** Unless some call gave up polling, callers pass their wait only after the worker has stopped. */
  ghost predicate WaitInv(s: State) {
    && (!s.stop.pollExpired ==>
          && (forall x :: x in s.stop.callers && PastWait(s.stop.callers[x].pc) ==> s.stop.workerStopped)
          && (s.stop.exporterShutdown ==> s.stop.workerStopped)
          && (forall i :: 0 <= i < |s.log| && s.log[i].ShutdownCall? ==> i == |s.log| - 1))
    && (forall x :: SawStopped(s, x) ==> s.stop.workerStopped)
  }

  lemma JoinStep(c: Config, s: State, a: Step)
    requires JoinInv(s) && Enabled(c, s, a)
    ensures JoinInv(Do(c, s, a))
  {
  }

  lemma ExporterStop(c: Config, s: State, x: CallId, ok: bool)
    requires ExporterInv(s) && x in s.stop.callers && !s.stop.callers[x].pc.StopReturned?
    ensures ExporterInv(StopperStep(c, s, x, ok))
  {
    var t := StopperStep(c, s, x, ok);
    assert forall y :: CallsExporter(t, y) ==> y == x || CallsExporter(s, y);
    assert CallsExporter(t, x) ==> !s.stop.exporterShutdown;
    assert t.log != s.log ==> CallsExporter(s, x) && !CallsExporter(t, x);
  }

  lemma ExporterWork(c: Config, s: State, choice: Choice)
    requires ExporterInv(s) && WorkEnabled(c, s, choice)
    ensures ExporterInv(WorkerStep(c, s, choice))
  {
    assert forall y :: CallsExporter(WorkerStep(c, s, choice), y) ==> CallsExporter(s, y);
  }

  lemma ExporterStep(c: Config, s: State, a: Step)
    requires ExporterInv(s) && Enabled(c, s, a)
    ensures ExporterInv(Do(c, s, a))
  {
    match a
    case Stop(x, ok) => ExporterStop(c, s, x, ok);
    case Work(choice) => ExporterWork(c, s, choice);
    case _ => assert forall y :: CallsExporter(Do(c, s, a), y) ==> CallsExporter(s, y);
  }

  lemma WaitStop(c: Config, s: State, x: CallId, ok: bool)
    requires WaitInv(s) && ExporterInv(s) && ControlInv(c, s) && Enabled(c, s, Stop(x, ok))
    ensures WaitInv(StopperStep(c, s, x, ok))
  {
    var t := StopperStep(c, s, x, ok);
    assert forall y :: SawStopped(t, y) && y != x ==> SawStopped(s, y);
    assert SawStopped(t, x) ==> SawStopped(s, x) || s.stop.workerStopped;
    assert CallsExporter(s, x) <==> s.stop.callers[x].pc.StopCallExporter?;
  }

  lemma WaitWork(c: Config, s: State, choice: Choice)
    requires WaitInv(s) && ExporterInv(s) && ControlInv(c, s) && WorkEnabled(c, s, choice)
    ensures WaitInv(WorkerStep(c, s, choice))
  {
    assert forall y :: SawStopped(WorkerStep(c, s, choice), y) ==> SawStopped(s, y);
  }

  lemma WaitStep(c: Config, s: State, a: Step)
    requires WaitInv(s) && ExporterInv(s) && ControlInv(c, s) && Enabled(c, s, a)
    ensures WaitInv(Do(c, s, a))
  {
    match a
    case Stop(x, ok) => WaitStop(c, s, x, ok);
    case Work(choice) => WaitWork(c, s, choice);
    case _ => assert forall y :: SawStopped(Do(c, s, a), y) ==> SawStopped(s, y);
  }
}
