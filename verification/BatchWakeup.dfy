/** The counting semaphore, signalPending and the kOnEnd wakeup. */
module BatchWakeup {
  import opened BatchProtocol
  import opened BatchControl
  import opened BatchQueue
  import opened BatchShutdown

  predicate PostsFlush(g: Flusher) {
    g.FlushLastPost? || g.FlushPost?
  }

  /** Some caller is about to release a permit. */
  ghost predicate PermitComing(s: State) {
    || (exists p :: p in s.spans.callers && s.spans.callers[p].NotifyPost?)
    || (exists f :: f in s.flush.callers && PostsFlush(s.flush.callers[f]))
    || (exists x :: x in s.stop.callers && s.stop.callers[x].pc.StopPost?)
  }

  /** signalPending is backed by a permit, a caller about to release one, or a worker about to clear it. */
  ghost predicate SignalInv(s: State) {
    && s.signal.permits >= 0
    && (s.signal.pending ==>
          s.signal.permits > 0 || PermitComing(s) || s.worker.pc == Head(HeadClear) || s.worker.pc == Idle(IdleClear))
  }

  /** The notify of an accepted span has at least exchanged signalPending. */
  predicate Announced(q: Producer) {
    (q.NotifyPost? || q.Returned?) && q.outcome == Accepted
  }

  /** The worker will find the span queue empty, or export, before it waits at the loop head again. */
  predicate SpanDrainAhead(w: Worker) {
    match w.pc
    case Head(op) => op != HeadWait
    case Req(op) => op == TakeRequest && w.round == First && !w.completedAny
    case Idle(op) => op != IdleDone
    case Pop(_) => true
    case Drain(_) => true
    case Close(_) => false
    case Exited => false
  }

  ghost predicate OnEndInv(c: Config, s: State) {
    c.mode == OnEnd && !s.drainCutShort ==>
      forall p :: p in s.spans.queue && p in s.spans.callers && Announced(s.spans.callers[p]) ==>
        s.signal.pending || SpanDrainAhead(s.worker)
  }

  // ---------------------------------------------------------------- preservation

  /** A permit that is coming still is after somebody else's step, or has arrived. */
  lemma PermitKept(c: Config, s: State, a: Step)
    requires PermitComing(s) && s.signal.permits >= 0 && Enabled(c, s, a) && !a.Work?
    ensures PermitComing(Do(c, s, a)) || Do(c, s, a).signal.permits > 0
  {
    var t := Do(c, s, a);
    if p :| p in s.spans.callers && s.spans.callers[p].NotifyPost? {
      assert p in t.spans.callers && (t.spans.callers[p] == s.spans.callers[p] || (a.Produce? && a.span == p));
    } else if f :| f in s.flush.callers && PostsFlush(s.flush.callers[f]) {
      assert f in t.flush.callers && (t.flush.callers[f] == s.flush.callers[f] || (a.Flush? && a.flush == f));
    } else if x :| x in s.stop.callers && s.stop.callers[x].pc.StopPost? {
      assert x in t.stop.callers && (t.stop.callers[x] == s.stop.callers[x] || (a.Stop? && a.stop == x));
    }
  }

  lemma SignalWorker(c: Config, s: State, choice: Choice)
    requires SignalInv(s) && WorkEnabled(c, s, choice)
    ensures SignalInv(WorkerStep(c, s, choice))
  {
  }

  lemma SignalStep(c: Config, s: State, a: Step)
    requires SignalInv(s) && Enabled(c, s, a)
    ensures SignalInv(Do(c, s, a))
  {
    var t := Do(c, s, a);
    match a
    case Work(choice) => SignalWorker(c, s, choice);
    case Produce(p, _) =>
      if PermitComing(s) { PermitKept(c, s, a); }
      assert t.spans.callers[p].NotifyPost? ==> PermitComing(t);
    case Flush(f, _) =>
      if PermitComing(s) { PermitKept(c, s, a); }
      assert PostsFlush(t.flush.callers[f]) ==> PermitComing(t);
    case Stop(x, _) =>
      if PermitComing(s) { PermitKept(c, s, a); }
      assert t.stop.callers[x].pc.StopPost? ==> PermitComing(t);
    case _ =>
      if PermitComing(s) { PermitKept(c, s, a); }
  }

  /** In kOnEnd mode only an empty span queue, or a deadline, ends a drain that was ahead. */
  lemma DrainEnds(c: Config, s: State, choice: Choice)
    requires ControlInv(c, s) && WorkEnabled(c, s, choice) && Normal(c) && c.mode == OnEnd
    requires SpanDrainAhead(s.worker) && !SpanDrainAhead(NextWorker(c, s, choice))
    requires !(s.worker.pc == Idle(IdleClock) && Expired(s) && s.spans.queue != {})
    ensures s.spans.size == 0 || s.spans.queue == {}
  {
  }

  lemma OnEndWorker(c: Config, s: State, choice: Choice)
    requires OnEndInv(c, s) && QueueInv(c, s) && ControlInv(c, s) && WorkEnabled(c, s, choice)
    requires Normal(c)
    ensures OnEndInv(c, WorkerStep(c, s, choice))
  {
    var t := WorkerStep(c, s, choice);
    if c.mode == OnEnd && !t.drainCutShort && !SpanDrainAhead(t.worker) {
      if s.spans.size == 0 {
        EmptyWhenZero(c, s);
      }
      if SpanDrainAhead(s.worker) {
        DrainEnds(c, s, choice);
        assert t.spans.queue == {};
      } else if s.drainCutShort {
        assert FindsEmpty(s) && t.spans.queue == {};
      } else {
        assert t.signal.pending == s.signal.pending && t.spans.queue == s.spans.queue;
      }
    }
  }

  lemma OnEndStep(c: Config, s: State, a: Step)
    requires OnEndInv(c, s) && QueueInv(c, s) && ControlInv(c, s) && Enabled(c, s, a)
    requires Normal(c)
    ensures OnEndInv(c, Do(c, s, a))
  {
    match a
    case Work(choice) => OnEndWorker(c, s, choice);
    case _ =>
  }
}
