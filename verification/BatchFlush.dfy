/** forceFlush: the gate of active callers, the life of a request and the wakeup of the worker. */
module BatchFlush {
  import opened Wrappers
  import opened MapCount
  import opened BatchProtocol
  import opened BatchControl

  /** activeFlushCallers counts the calls between its fetch_add and its fetch_sub. */
  ghost predicate ActiveCounted(s: State) {
    s.flush.active == |Where(s.flush.callers, Inside)|
  }

  /** Past the gate the worker knows that nobody can add a request any more. */
  predicate PastGate(w: Worker) {
    w.pc == Close(LoadEmpty) || (w.round == Third && !w.pc.Head?)
  }

  /** The loop has ended or is bound to end. */
  predicate Leaving(pc: WorkerPc) {
    pc == Close(FinalFlush) || pc == Close(StoreDrainOk) || pc == Close(StoreStopped) || pc == Exited
  }

  ghost predicate GateInv(s: State) {
    && ActiveCounted(s)
    && (PastGate(s.worker) ==> forall f :: f in s.flush.callers ==> !MayEnqueue(s.flush.callers[f]))
    && (Leaving(s.worker.pc) ==> s.flush.queue == {})
  }

  /** A request is queued, in the worker's hands or completed; `ok` and `done` are written once each. */
  ghost predicate RequestState(s: State, f: CallId)
    requires f in s.flush.requests
  {
    var r := s.flush.requests[f];
    if f in s.flush.queue then
      s.worker.request != Some(f) && r.stores == 0 && r.releases == 0 && r.donePermits == 0
    else if s.worker.request == Some(f) then
      r.stores == (if s.worker.pc == Req(ReleaseDone) then 1 else 0) && r.releases == 0 && r.donePermits == 0
    else
      r.stores == 1 && r.releases == 1 && 0 <= r.donePermits <= 1
  }

  /** The requests are those of the callers that enqueued one. */
  ghost predicate RequestKeys(s: State) {
    && (forall f :: f in s.flush.requests <==> f in s.flush.callers && HasRequest(s.flush.callers[f]))
    && (forall f :: f in s.flush.queue ==> f in s.flush.requests)
    && (s.worker.request.Some? ==> s.worker.request.value in s.flush.requests)
  }

  /** A caller that got its answer got the stored one. */
  ghost predicate Answered(s: State, f: CallId)
    requires f in s.flush.callers
  {
    && (s.flush.callers[f].FlushReadOk? || s.flush.callers[f] == FlushReturned(true, true) ==>
          f in s.flush.requests && s.flush.requests[f].releases == 1)
    && (s.flush.callers[f] == FlushReturned(true, true) ==> s.flush.requests[f].ok)
  }

  ghost predicate RequestInv(s: State) {
    && RequestKeys(s)
    && (forall f :: f in s.flush.requests ==> RequestState(s, f))
    && (forall f :: f in s.flush.callers ==> Answered(s, f))
  }

  /** A drain of the request queue down to empty lies ahead of the next wait at the loop head. */
  predicate RequestDrainAhead(w: Worker) {
    match w.pc
    case Head(op) => op != HeadWait
    case Close(_) => false
    case Drain(_) => false
    case Exited => false
    case _ => w.round != Ready
  }

  /** No lost wakeup for a queued request whose caller has run forceNotify. */
  ghost predicate WakeInv(s: State) {
    forall f :: f in s.flush.queue && f in s.flush.callers && HasNotified(s.flush.callers[f]) ==>
      s.signal.permits > 0 || RequestDrainAhead(s.worker)
  }

  // ---------------------------------------------------------------- the gate

  lemma ActiveBegin(s: State, f: CallId, timeout: int)
    requires ActiveCounted(s) && f !in s.flush.callers
    ensures ActiveCounted(BeginForceFlush(s, f, timeout))
  {
    WhereUpdate(s.flush.callers, Inside, f, BeginForceFlush(s, f, timeout).flush.callers[f]);
  }

  lemma InsideNext(s: State, f: CallId, accept: bool)
    requires f in s.flush.callers && FlushEnabled(s, f, accept)
    ensures Inside(NextFlusher(s, f, accept)) <==> Inside(s.flush.callers[f]) && !s.flush.callers[f].FlushLeave?
  {
  }

  lemma ActiveFlusher(s: State, f: CallId, accept: bool)
    requires ActiveCounted(s) && f in s.flush.callers && FlushEnabled(s, f, accept)
    ensures ActiveCounted(FlusherStep(s, f, accept))
  {
    InsideNext(s, f, accept);
    WhereUpdate(s.flush.callers, Inside, f, NextFlusher(s, f, accept));
    assert FlusherStep(s, f, accept).flush.callers == s.flush.callers[f := NextFlusher(s, f, accept)];
  }

  lemma ActiveStep(c: Config, s: State, a: Step)
    requires ActiveCounted(s) && Enabled(c, s, a)
    ensures ActiveCounted(Do(c, s, a))
  {
    match a
    case CallForceFlush(f, timeout) => ActiveBegin(s, f, timeout);
    case Flush(f, accept) => ActiveFlusher(s, f, accept);
    case _ =>
  }

  lemma GateCrossing(c: Config, s: State, choice: Choice)
    requires ControlInv(c, s) && WorkEnabled(c, s, choice)
    ensures PastGate(NextWorker(c, s, choice)) ==>
      PastGate(s.worker) || (s.worker.pc == Close(LoadActive) && s.flush.active == 0)
    ensures Leaving(NextWorker(c, s, choice).pc) ==>
      Leaving(s.worker.pc) || (s.worker.pc == Req(TakeRequest) && s.flush.queue == {})
  {
  }

  lemma GateWorker(c: Config, s: State, choice: Choice)
    requires GateInv(s) && ControlInv(c, s) && WorkEnabled(c, s, choice)
    ensures GateInv(WorkerStep(c, s, choice))
  {
    GateCrossing(c, s, choice);
    if s.flush.active == 0 {
      WhereNone(s.flush.callers, Inside);
      assert forall f :: f in s.flush.callers ==> !Inside(s.flush.callers[f]);
    }
  }

  lemma GateStep(c: Config, s: State, a: Step)
    requires GateInv(s) && ControlInv(c, s) && Enabled(c, s, a)
    ensures GateInv(Do(c, s, a))
  {
    if a.Work? {
      GateWorker(c, s, a.choice);
    } else {
      ActiveStep(c, s, a);
    }
  }

  // ---------------------------------------------------------------- requests

  lemma HasRequestNext(s: State, f: CallId, accept: bool)
    requires f in s.flush.callers && FlushEnabled(s, f, accept)
    ensures HasRequest(NextFlusher(s, f, accept)) <==>
      HasRequest(s.flush.callers[f]) || (s.flush.callers[f].FlushEnqueue? && accept)
    ensures s.flush.callers[f].FlushEnqueue? ==> !HasRequest(s.flush.callers[f])
  {
  }

  lemma RequestFlusher(s: State, f: CallId, accept: bool)
    requires RequestInv(s) && f in s.flush.callers && FlushEnabled(s, f, accept)
    ensures RequestInv(FlusherStep(s, f, accept))
  {
    var t := FlusherStep(s, f, accept);
    HasRequestNext(s, f, accept);
    assert RequestKeys(t);
    forall g | g in t.flush.requests
      ensures RequestState(t, g)
    {
      assert g != f ==> RequestState(s, g);
      assert f in s.flush.requests ==> RequestState(s, f);
    }
    forall g | g in t.flush.callers
      ensures Answered(t, g)
    {
      assert g != f ==> Answered(s, g);
      assert Answered(s, f) && (f in s.flush.requests ==> RequestState(s, f));
    }
  }

  /** The request in the worker's hands after a step. */
  lemma RequestNext(c: Config, s: State, choice: Choice)
    requires ControlInv(c, s) && WorkEnabled(c, s, choice)
    ensures var w, w' := s.worker, NextWorker(c, s, choice);
      && w'.request == (if w.pc == Req(TakeRequest) && s.flush.queue != {} then Some(choice.request)
                        else if w.pc == Req(ReleaseDone) then None else w.request)
      && (w'.pc == Req(ReleaseDone) <==> w.pc == Req(StoreOk))
      && (w.pc == Req(TakeRequest) ==> w.request.None?)
  {
  }

  lemma RequestWorker(c: Config, s: State, choice: Choice)
    requires RequestInv(s) && ControlInv(c, s) && WorkEnabled(c, s, choice)
    ensures RequestInv(WorkerStep(c, s, choice))
  {
    var t := WorkerStep(c, s, choice);
    RequestNext(c, s, choice);
    assert t.flush.requests.Keys == s.flush.requests.Keys;
    assert RequestKeys(t);
    forall g | g in t.flush.requests
      ensures RequestState(t, g)
    {
      assert RequestState(s, g);
    }
    forall g | g in t.flush.callers
      ensures Answered(t, g)
    {
      assert Answered(s, g) && (g in s.flush.requests ==> RequestState(s, g));
    }
  }

  lemma RequestStep(c: Config, s: State, a: Step)
    requires RequestInv(s) && ControlInv(c, s) && Enabled(c, s, a)
    ensures RequestInv(Do(c, s, a))
  {
    match a
    case Flush(f, accept) => RequestFlusher(s, f, accept);
    case Work(choice) => RequestWorker(c, s, choice);
    case CallForceFlush(f, timeout) => RequestBegin(s, f, timeout);
    case _ => RequestOther(s, Do(c, s, a));
  }

  lemma RequestOther(s: State, t: State)
    requires RequestInv(s) && t.flush == s.flush && t.worker == s.worker
    ensures RequestInv(t)
  {
    assert forall g :: g in t.flush.requests ==> RequestState(s, g) && RequestState(t, g);
    assert forall g :: g in t.flush.callers ==> Answered(s, g) && Answered(t, g);
  }

  lemma RequestBegin(s: State, f: CallId, timeout: int)
    requires RequestInv(s) && f !in s.flush.callers
    ensures RequestInv(BeginForceFlush(s, f, timeout))
  {
    var t := BeginForceFlush(s, f, timeout);
    assert forall g :: g in t.flush.requests ==> RequestState(s, g) && RequestState(t, g);
    assert forall g :: g in t.flush.callers && g != f ==> Answered(s, g) && Answered(t, g);
  }

  // ---------------------------------------------------------------- wakeup

  lemma WakeWorker(c: Config, s: State, choice: Choice)
    requires ControlInv(c, s) && WorkEnabled(c, s, choice)
    ensures var t := WorkerStep(c, s, choice);
      s.signal.permits > 0 || RequestDrainAhead(s.worker) ==>
        t.signal.permits > 0 || RequestDrainAhead(t.worker) || t.flush.queue == {}
  {
  }

  lemma WakeStep(c: Config, s: State, a: Step)
    requires WakeInv(s) && RequestInv(s) && ControlInv(c, s) && Enabled(c, s, a)
    requires s.signal.permits >= 0
    ensures WakeInv(Do(c, s, a))
  {
    if a.Work? {
      WakeWorker(c, s, a.choice);
    } else if a.CallForceFlush? {
      assert a.flush !in s.flush.queue;
    }
  }
}
