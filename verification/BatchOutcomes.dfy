/** What happens to each onEnd and forceFlush call between its start and its return, over every run. */
module BatchOutcomes {
  import opened MapCount
  import opened BatchProtocol
  import opened BatchQueue
  import opened BatchTheorems

  /** Something is true of a state of the run and the step taken from it. */
  ghost predicate Sometime(c: Config, s: State, steps: seq<Step>, event: (State, Step) -> bool)
    requires Runs(c, s, steps)
    decreases |steps|
  {
    steps != [] && (event(s, steps[0]) || Sometime(c, Do(c, s, steps[0]), steps[1..], event))
  }

  // ---------------------------------------------------------------- onEnd

  /** The call finds shutdown requested when it checks. */
  function FindsClosed(p: SpanId): (State, Step) -> bool {
    (s: State, a: Step) =>
      a.Produce? && a.span == p && p in s.spans.callers && s.spans.callers[p].CheckClosed? && s.stop.shutdownRequested
  }

  /** The queue refuses the span of the call. */
  function EnqueueFails(p: SpanId): (State, Step) -> bool {
    (s: State, a: Step) => a == Produce(p, false) && p in s.spans.callers && s.spans.callers[p].Enqueue?
  }

  /** The outcome a call is heading for, given what will happen to it. */
  function Fate(q: Producer, closed: bool, failed: bool): PushOutcome {
    match q
    case CheckClosed(_) => if closed then Closed else if failed then Full else Accepted
    case Enqueue(_) => if failed then Full else Accepted
    case UndoFull(_) => Full
    case CountDrop => Full
    case UndoClosed => Closed
    case Notify(outcome) => outcome
    case NotifyPost(outcome) => outcome
    case Returned(outcome) => outcome
  }

  /** How one step moves a call: by its own steps only, and past each test once. */
  lemma ProducerMoves(c: Config, s: State, p: SpanId, a: Step)
    requires Enabled(c, s, a) && p in s.spans.callers
    ensures p in Do(c, s, a).spans.callers
    ensures var q, q' := s.spans.callers[p], Do(c, s, a).spans.callers[p];
      if a.Produce? && a.span == p then !q.Returned? && q' == NextProducer(c, s, q, a.accept) else q' == q
  {
    match a
    case Produce(_, _) =>
    case _ =>
  }

  lemma {:induction false} FateRun(c: Config, s: State, p: SpanId, steps: seq<Step>)
    requires Runs(c, s, steps) && p in s.spans.callers
    ensures var q, t := s.spans.callers[p], After(c, s, steps);
      && (!q.CheckClosed? ==> !Sometime(c, s, steps, FindsClosed(p)))
      && (!q.CheckClosed? && !q.Enqueue? ==> !Sometime(c, s, steps, EnqueueFails(p)))
      && p in t.spans.callers
      && (t.spans.callers[p].Returned? ==>
            t.spans.callers[p].outcome
            == Fate(q, Sometime(c, s, steps, FindsClosed(p)), Sometime(c, s, steps, EnqueueFails(p))))
    decreases |steps|
  {
    if steps != [] {
      ProducerMoves(c, s, p, steps[0]);
      FateRun(c, Do(c, s, steps[0]), p, steps[1..]);
    }
  }

  /** Everything that counts against the capacity. */
  ghost function Occupied(s: State): nat {
    |s.spans.queue| + |Where(s.spans.callers, HoldsSlot)| + |Uncounted(s.worker)|
  }

  lemma Begins(c: Config, s: State, p: SpanId, sampled: bool)
    requires QueueInv(c, s)
    ensures BeginOnEnd(c, s, p, sampled).spans.callers[p] ==
      if !sampled then Returned(Unsampled)
      else if Occupied(s) >= c.queueCapacity then UndoFull(false)
      else CheckClosed(Occupied(s))
  {
  }

  /**
   The outcome of an onEnd call, whatever happens between its start and its return: a sampled span is dropped as full
   exactly if the capacity was taken when the call began or the queue refused it, turned away exactly if shutdown was
   requested when it checked, and accepted otherwise.
   */
  lemma OnEndOutcome(c: Config, s: State, p: SpanId, sampled: bool, steps: seq<Step>)
    requires Reachable(c, s) && p !in s.spans.callers
    requires Runs(Normalize(c), Do(Normalize(c), s, CallOnEnd(p, sampled)), steps)
    ensures var d := Normalize(c);
      var u := Do(d, s, CallOnEnd(p, sampled));
      var t := After(d, u, steps);
      && p in t.spans.callers
      && (t.spans.callers[p].Returned? ==>
            t.spans.callers[p].outcome ==
              if !sampled then Unsampled
              else if Occupied(s) >= d.queueCapacity then Full
              else if Sometime(d, u, steps, FindsClosed(p)) then Closed
              else if Sometime(d, u, steps, EnqueueFails(p)) then Full
              else Accepted)
  {
    ReachableInv(c, s);
    Begins(Normalize(c), s, p, sampled);
    FateRun(Normalize(c), Do(Normalize(c), s, CallOnEnd(p, sampled)), p, steps);
  }

  /** The call runs notify. */
  function Notifies(p: SpanId): (State, Step) -> bool {
    (s: State, a: Step) => a.Produce? && a.span == p && p in s.spans.callers && s.spans.callers[p].Notify?
  }

  /** A call that made reservation number n and ends with the outcome has to notify. */
  predicate MustNotify(c: Config, n: int, outcome: PushOutcome) {
    || outcome == Closed
    || (outcome == Accepted && (c.mode == OnEnd || (c.mode == BatchSize && n == c.maxBatchSize)))
  }

  predicate WillNotify(c: Config, q: Producer, outcome: PushOutcome) {
    match q
    case CheckClosed(previous) => MustNotify(c, previous + 1, outcome)
    case Enqueue(previous) => MustNotify(c, previous + 1, outcome)
    case UndoClosed => true
    case Notify(_) => true
    case _ => false
  }

  lemma {:induction false} NotifyRun(c: Config, s: State, p: SpanId, steps: seq<Step>)
    requires Runs(c, s, steps) && p in s.spans.callers
    ensures p in After(c, s, steps).spans.callers
    ensures var q, t := s.spans.callers[p], After(c, s, steps).spans.callers[p];
      t.Returned? ==>
        && (Sometime(c, s, steps, Notifies(p)) <==> WillNotify(c, q, t.outcome))
        && (q.Returned? || q.Notify? || q.NotifyPost? ==> t.outcome == q.outcome)
        && (q.UndoFull? || q.CountDrop? ==> t.outcome == Full) && (q.UndoClosed? ==> t.outcome == Closed)
        && (q.Enqueue? ==> t.outcome == Full || t.outcome == Accepted)
    decreases |steps|
  {
    if steps != [] {
      ProducerMoves(c, s, p, steps[0]);
      NotifyRun(c, Do(c, s, steps[0]), p, steps[1..]);
    }
  }

  /**
   Which onEnd calls notify the worker: those turned away, and of those accepted all in kOnEnd mode, in kBatchSize mode
   the one that brought the occupied slots to the batch size, and none in kTimed mode.
   */
  lemma WhoNotifies(c: Config, s: State, p: SpanId, steps: seq<Step>)
    requires Reachable(c, s) && p !in s.spans.callers
    requires Runs(Normalize(c), Do(Normalize(c), s, CallOnEnd(p, true)), steps)
    ensures var d := Normalize(c);
      var u := Do(d, s, CallOnEnd(p, true));
      var t := After(d, u, steps);
      && p in t.spans.callers
      && (t.spans.callers[p].Returned? ==>
            (Sometime(d, u, steps, Notifies(p)) <==> MustNotify(d, Occupied(s) + 1, t.spans.callers[p].outcome)))
  {
    ReachableInv(c, s);
    Begins(Normalize(c), s, p, true);
    NotifyRun(Normalize(c), Do(Normalize(c), s, CallOnEnd(p, true)), p, steps);
  }

  ghost function ProducerReleases(c: Config, p: SpanId): (State, Step) -> bool {
    (s: State, a: Step) =>
      a.Produce? && a.span == p && Enabled(c, s, a) && Do(c, s, a).signal.permits == s.signal.permits + 1
  }

  lemma {:induction false} PostRun(c: Config, s: State, p: SpanId, steps: seq<Step>)
    requires Runs(c, s, steps) && p in s.spans.callers && s.spans.callers[p].NotifyPost?
    ensures p in After(c, s, steps).spans.callers
    ensures After(c, s, steps).spans.callers[p].Returned? ==> Sometime(c, s, steps, ProducerReleases(c, p))
    decreases |steps|
  {
    if steps != [] {
      var t := Do(c, s, steps[0]);
      ProducerMoves(c, s, p, steps[0]);
      if t.spans.callers[p].NotifyPost? {
        PostRun(c, t, p, steps[1..]);
      } else {
        assert ProducerReleases(c, p)(s, steps[0]);
        FateRun(c, t, p, steps[1..]);
      }
    }
  }

  /** notify sets signalPending, and releases a permit before it returns if it was not set. */
  lemma NotifyReleases(c: Config, s: State, p: SpanId, accept: bool, steps: seq<Step>)
    requires p in s.spans.callers && s.spans.callers[p].Notify?
    requires Runs(c, Do(c, s, Produce(p, accept)), steps)
    ensures var u := Do(c, s, Produce(p, accept));
      && u.signal.pending && p in After(c, u, steps).spans.callers
      && (!s.signal.pending && After(c, u, steps).spans.callers[p].Returned? ==>
            Sometime(c, u, steps, ProducerReleases(c, p)))
  {
    var u := Do(c, s, Produce(p, accept));
    FateRun(c, u, p, steps);
    if !s.signal.pending {
      PostRun(c, u, p, steps);
    }
  }

  // ---------------------------------------------------------------- forceFlush

  /** The call finds shutdown requested or the worker stopped when it checks. */
  function FindsShutdown(f: CallId): (State, Step) -> bool {
    (s: State, a: Step) =>
      && a.Flush? && a.flush == f && f in s.flush.callers
      && ((s.flush.callers[f].FlushCheckShutdown? && s.stop.shutdownRequested)
          || (s.flush.callers[f].FlushCheckStopped? && s.stop.workerStopped))
  }

  /** The request queue refuses the request of the call. */
  function RequestFails(f: CallId): (State, Step) -> bool {
    (s: State, a: Step) => a == Flush(f, false) && f in s.flush.callers && s.flush.callers[f].FlushEnqueue?
  }

  /** The call reads size as zero. */
  function ReadsEmpty(f: CallId): (State, Step) -> bool {
    (s: State, a: Step) =>
      a.Flush? && a.flush == f && f in s.flush.callers && s.flush.callers[f].FlushReadEmpty? && s.spans.size == 0
  }

  lemma FlusherMoves(c: Config, s: State, f: CallId, a: Step)
    requires Enabled(c, s, a) && f in s.flush.callers
    ensures f in Do(c, s, a).flush.callers
    ensures a.Flush? && a.flush == f ==> FlushEnabled(s, f, a.accept)
    ensures Do(c, s, a).flush.callers[f]
         == if a.Flush? && a.flush == f then NextFlusher(s, f, a.accept) else s.flush.callers[f]
  {
    match a
    case Flush(_, _) =>
    case _ =>
  }

  predicate BeforeChecks(g: Flusher) {
    g.FlushCheckShutdown? || g.FlushCheckStopped?
  }

  predicate BeforeQueue(g: Flusher) {
    BeforeChecks(g) || g.FlushCreate? || g.FlushEnqueue?
  }

  /** On the way out of the gate with the given exit. */
  predicate Leaving(g: Flusher, exit: FlushExit) {
    (g.FlushLeave? || g.FlushRecheck? || g.FlushLastSet? || g.FlushLastPost?) && g.exit == exit
  }

  predicate BeforeRead(g: Flusher) {
    BeforeChecks(g) || Leaving(g, Early) || g.FlushReadEmpty?
  }

  /** Whether the call will return through its request. */
  predicate WillAsk(g: Flusher, shutdown: bool, failed: bool) {
    if g.FlushReturned? then g.viaRequest
    else if BeforeChecks(g) then !shutdown && !failed
    else if BeforeQueue(g) then !failed
    else !Leaving(g, Early) && !Leaving(g, Rejected) && !g.FlushReadEmpty?
  }

  /** One step does not change where the call is heading, if what happens now is added to what will happen. */
  lemma AskStep(c: Config, s: State, f: CallId, a: Step, shutdown: bool, failed: bool)
    requires Enabled(c, s, a) && f in s.flush.callers && f in Do(c, s, a).flush.callers
    requires !BeforeChecks(Do(c, s, a).flush.callers[f]) ==> !shutdown
    requires !BeforeQueue(Do(c, s, a).flush.callers[f]) ==> !failed
    ensures var g, g', sh, fa := s.flush.callers[f], Do(c, s, a).flush.callers[f],
                                 FindsShutdown(f)(s, a) || shutdown, RequestFails(f)(s, a) || failed;
      (!BeforeChecks(g) ==> !sh) && (!BeforeQueue(g) ==> !fa) && WillAsk(g, sh, fa) == WillAsk(g', shutdown, failed)
  {
    FlusherMoves(c, s, f, a);
  }

  lemma {:induction false} AskRun(c: Config, s: State, f: CallId, steps: seq<Step>)
    requires Runs(c, s, steps) && f in s.flush.callers
    ensures var g, t := s.flush.callers[f], After(c, s, steps);
      && (!BeforeChecks(g) ==> !Sometime(c, s, steps, FindsShutdown(f)))
      && (!BeforeQueue(g) ==> !Sometime(c, s, steps, RequestFails(f)))
      && f in t.flush.callers
      && (t.flush.callers[f].FlushReturned? ==>
            t.flush.callers[f].viaRequest
            == WillAsk(g, Sometime(c, s, steps, FindsShutdown(f)), Sometime(c, s, steps, RequestFails(f))))
    decreases |steps|
  {
    if steps != [] {
      FlusherMoves(c, s, f, steps[0]);
      var t := Do(c, s, steps[0]);
      AskRun(c, t, f, steps[1..]);
      AskStep(c, s, f, steps[0], Sometime(c, t, steps[1..], FindsShutdown(f)), Sometime(c, t, steps[1..], RequestFails(f)));
    }
  }

  lemma {:induction false} ReadRun(c: Config, s: State, f: CallId, steps: seq<Step>)
    requires Runs(c, s, steps) && f in s.flush.callers
    ensures var g, t := s.flush.callers[f], After(c, s, steps);
      && (!BeforeRead(g) ==> !Sometime(c, s, steps, ReadsEmpty(f)))
      && f in t.flush.callers
      && (t.flush.callers[f].FlushReturned? && !t.flush.callers[f].viaRequest && !g.FlushReturned? ==>
            t.flush.callers[f].result == Sometime(c, s, steps, ReadsEmpty(f)))
    decreases |steps|
  {
    if steps != [] {
      FlusherMoves(c, s, f, steps[0]);
      if Do(c, s, steps[0]).flush.callers[f].FlushReturned? {
        ReturnedKept(c, Do(c, s, steps[0]), f, steps[1..]);
      }
      ReadRun(c, Do(c, s, steps[0]), f, steps[1..]);
    }
  }

  /**
   How a forceFlush call returns: through its request exactly if its timeout was not negative, it found neither shutdown
   requested nor the worker stopped, and the request queue took the request; otherwise with true exactly if it read
   size as zero.
   */
  lemma FlushExits(c: Config, s: State, f: CallId, timeout: int, steps: seq<Step>)
    requires f !in s.flush.callers && Runs(c, Do(c, s, CallForceFlush(f, timeout)), steps)
    ensures var u := Do(c, s, CallForceFlush(f, timeout));
      var t := After(c, u, steps);
      && f in t.flush.callers
      && (timeout < 0 ==> t.flush.callers[f] == FlushReturned(false, false))
      && (t.flush.callers[f].FlushReturned? ==>
            && (t.flush.callers[f].viaRequest <==>
                  && timeout >= 0
                  && !Sometime(c, u, steps, FindsShutdown(f))
                  && !Sometime(c, u, steps, RequestFails(f)))
            && (!t.flush.callers[f].viaRequest ==>
                  (t.flush.callers[f].result <==> Sometime(c, u, steps, ReadsEmpty(f)))))
  {
    var u := Do(c, s, CallForceFlush(f, timeout));
    AskRun(c, u, f, steps);
    ReadRun(c, u, f, steps);
    if timeout < 0 {
      ReturnedKept(c, u, f, steps);
    }
  }

  lemma {:induction false} ReturnedKept(c: Config, s: State, f: CallId, steps: seq<Step>)
    requires Runs(c, s, steps) && f in s.flush.callers && s.flush.callers[f].FlushReturned?
    ensures f in After(c, s, steps).flush.callers && After(c, s, steps).flush.callers[f] == s.flush.callers[f]
    decreases |steps|
  {
    if steps != [] {
      FlusherMoves(c, s, f, steps[0]);
      ReturnedKept(c, Do(c, s, steps[0]), f, steps[1..]);
    }
  }

  /** The deadline of a request, or the timeout it will be made from, fits a call made at a given time. */
  predicate Dated(s: State, f: CallId, timeout: int, since: int)
    requires f in s.flush.callers
  {
    && since <= s.now
    && (match s.flush.callers[f]
        case FlushCheckShutdown(n) => n == timeout
        case FlushCheckStopped(n) => n == timeout
        case FlushCreate(n) => n == timeout
        case FlushEnqueue(deadline) => since + timeout <= deadline <= s.now + timeout
        case _ => true)
    && (f in s.flush.requests ==> since + timeout <= s.flush.requests[f].deadline <= s.now + timeout)
  }

  lemma DatedStep(c: Config, s: State, f: CallId, a: Step, timeout: int, since: int)
    requires Enabled(c, s, a) && f in s.flush.callers && Dated(s, f, timeout, since)
    ensures f in Do(c, s, a).flush.callers && Dated(Do(c, s, a), f, timeout, since)
  {
    FlusherMoves(c, s, f, a);
    match a
    case Flush(g, _) => assert g != f && f in s.flush.requests ==> Do(c, s, a).flush.requests[f] == s.flush.requests[f];
    case Work(choice) =>
      assert f in s.flush.requests ==> Do(c, s, a).flush.requests[f].deadline == s.flush.requests[f].deadline;
    case _ =>
  }

  lemma {:induction false} DatedRun(c: Config, s: State, f: CallId, steps: seq<Step>, timeout: int, since: int)
    requires Runs(c, s, steps) && f in s.flush.callers && Dated(s, f, timeout, since)
    ensures f in After(c, s, steps).flush.callers && Dated(After(c, s, steps), f, timeout, since)
    decreases |steps|
  {
    if steps != [] {
      DatedStep(c, s, f, steps[0], timeout, since);
      DatedRun(c, Do(c, s, steps[0]), f, steps[1..], timeout, since);
    }
  }

  /** A request's deadline is its timeout after some moment between the call and now. */
  lemma FlushDeadline(c: Config, s: State, f: CallId, timeout: int, steps: seq<Step>)
    requires Inv(c, s) && f !in s.flush.callers && Runs(c, Do(c, s, CallForceFlush(f, timeout)), steps)
    ensures var t := After(c, Do(c, s, CallForceFlush(f, timeout)), steps);
      f in t.flush.requests ==> s.now + timeout <= t.flush.requests[f].deadline <= t.now + timeout
  {
    DatedRun(c, Do(c, s, CallForceFlush(f, timeout)), f, steps, timeout, s.now);
  }

  // ---------------------------------------------------------------- forceNotify

  /** The step releases a permit and is a step of the given call. */
  ghost function FlushReleases(c: Config, f: CallId): (State, Step) -> bool {
    (s: State, a: Step) =>
      a.Flush? && a.flush == f && Enabled(c, s, a) && Do(c, s, a).signal.permits == s.signal.permits + 1
  }

  ghost function StopReleases(c: Config, x: CallId): (State, Step) -> bool {
    (s: State, a: Step) =>
      a.Stop? && a.stop == x && Enabled(c, s, a) && Do(c, s, a).signal.permits == s.signal.permits + 1
  }

  /** A forceFlush call that waits for its request, or has waited, has released a permit for it. */
  lemma {:induction false} FlushNotifies(c: Config, s: State, f: CallId, steps: seq<Step>)
    requires Runs(c, s, steps) && f in s.flush.callers && !HasNotified(s.flush.callers[f])
    ensures f in After(c, s, steps).flush.callers
    ensures HasNotified(After(c, s, steps).flush.callers[f]) ==> Sometime(c, s, steps, FlushReleases(c, f))
    decreases |steps|
  {
    if steps != [] {
      var t := Do(c, s, steps[0]);
      FlusherMoves(c, s, f, steps[0]);
      if !HasNotified(t.flush.callers[f]) {
        FlushNotifies(c, t, f, steps[1..]);
      } else {
        assert FlushReleases(c, f)(s, steps[0]);
        CallerKept(c, t, f, steps[1..]);
      }
    }
  }

  lemma {:induction false} CallerKept(c: Config, s: State, f: CallId, steps: seq<Step>)
    requires Runs(c, s, steps) && f in s.flush.callers
    ensures f in After(c, s, steps).flush.callers
    decreases |steps|
  {
    if steps != [] {
      FlusherMoves(c, s, f, steps[0]);
      CallerKept(c, Do(c, s, steps[0]), f, steps[1..]);
    }
  }

  /** Between finding itself the last one out and having notified for it. */
  predicate LeavesLast(g: Flusher) {
    g.FlushRecheck? || g.FlushLastSet? || g.FlushLastPost?
  }

  lemma ShutdownStays(c: Config, s: State, a: Step)
    requires s.stop.shutdownRequested && Enabled(c, s, a)
    ensures Do(c, s, a).stop.shutdownRequested
  {
    match a
    case Stop(_, _) =>
    case Work(_) =>
    case _ =>
  }

  lemma {:induction false} LastOneReleases(c: Config, s: State, f: CallId, steps: seq<Step>)
    requires Runs(c, s, steps) && f in s.flush.callers && LeavesLast(s.flush.callers[f]) && s.stop.shutdownRequested
    ensures f in After(c, s, steps).flush.callers
    ensures !LeavesLast(After(c, s, steps).flush.callers[f]) ==> Sometime(c, s, steps, FlushReleases(c, f))
    decreases |steps|
  {
    if steps != [] {
      var t := Do(c, s, steps[0]);
      FlusherMoves(c, s, f, steps[0]);
      ShutdownStays(c, s, steps[0]);
      if LeavesLast(t.flush.callers[f]) {
        LastOneReleases(c, t, f, steps[1..]);
      } else {
        assert FlushReleases(c, f)(s, steps[0]);
        CallerKept(c, t, f, steps[1..]);
      }
    }
  }

  /** After a shutdown request, the forceFlush call that leaves the gate last releases a permit before it goes on. */
  lemma LastOneNotifies(c: Config, s: State, f: CallId, accept: bool, steps: seq<Step>)
    requires f in s.flush.callers && s.flush.callers[f].FlushLeave? && s.flush.active == 1 && s.stop.shutdownRequested
    requires Runs(c, Do(c, s, Flush(f, accept)), steps)
    ensures var u := Do(c, s, Flush(f, accept));
      && f in After(c, u, steps).flush.callers
      && (!LeavesLast(After(c, u, steps).flush.callers[f]) ==> Sometime(c, u, steps, FlushReleases(c, f)))
  {
    LastOneReleases(c, Do(c, s, Flush(f, accept)), f, steps);
  }

  /** The call has requested shutdown and not yet notified the worker. */
  predicate OwesNotify(pc: StopPc) {
    pc.StopStoreFlag? || pc.StopSet? || pc.StopPost?
  }

  lemma StopperMoves(c: Config, s: State, x: CallId, a: Step)
    requires Enabled(c, s, a) && x in s.stop.callers
    ensures x in Do(c, s, a).stop.callers
    ensures a.Stop? && a.stop == x ==> !s.stop.callers[x].pc.StopReturned?
    ensures Do(c, s, a).stop.callers[x].pc
         == if a.Stop? && a.stop == x then NextStopPc(c, s, s.stop.callers[x]) else s.stop.callers[x].pc
  {
    match a
    case Stop(_, _) =>
    case _ =>
  }

  lemma {:induction false} StopperKept(c: Config, s: State, x: CallId, steps: seq<Step>)
    requires Runs(c, s, steps) && x in s.stop.callers
    ensures x in After(c, s, steps).stop.callers
    decreases |steps|
  {
    if steps != [] {
      StopperMoves(c, s, x, steps[0]);
      StopperKept(c, Do(c, s, steps[0]), x, steps[1..]);
    }
  }

  /** A shutdown call that has gone on to join or to poll has released a permit. */
  lemma {:induction false} StopNotifies(c: Config, s: State, x: CallId, steps: seq<Step>)
    requires Runs(c, s, steps) && x in s.stop.callers && OwesNotify(s.stop.callers[x].pc)
    ensures x in After(c, s, steps).stop.callers
    ensures !OwesNotify(After(c, s, steps).stop.callers[x].pc) ==> Sometime(c, s, steps, StopReleases(c, x))
    decreases |steps|
  {
    if steps != [] {
      var t := Do(c, s, steps[0]);
      StopperMoves(c, s, x, steps[0]);
      if OwesNotify(t.stop.callers[x].pc) {
        StopNotifies(c, t, x, steps[1..]);
      } else {
        assert StopReleases(c, x)(s, steps[0]);
        StopperKept(c, t, x, steps[1..]);
      }
    }
  }

  // ---------------------------------------------------------------- every call returns

  function ProducerSteps(p: SpanId, steps: seq<Step>): nat {
    if steps == [] then 0 else (if steps[0].Produce? && steps[0].span == p then 1 else 0) + ProducerSteps(p, steps[1..])
  }

  function FlusherSteps(f: CallId, steps: seq<Step>): nat {
    if steps == [] then 0 else (if steps[0].Flush? && steps[0].flush == f then 1 else 0) + FlusherSteps(f, steps[1..])
  }

  function StopperSteps(x: CallId, steps: seq<Step>): nat {
    if steps == [] then 0 else (if steps[0].Stop? && steps[0].stop == x then 1 else 0) + StopperSteps(x, steps[1..])
  }

  function ProducerLeft(q: Producer): nat {
    match q
    case Returned(_) => 0
    case NotifyPost(_) => 1
    case CountDrop => 1
    case Notify(_) => 2
    case UndoFull(_) => 2
    case UndoClosed => 3
    case Enqueue(_) => 3
    case CheckClosed(_) => 4
  }

  /** onEnd is wait-free: whatever the others do, a call has returned after at most four steps of its own. */
  lemma {:induction false} OnEndReturns(c: Config, s: State, p: SpanId, steps: seq<Step>)
    requires Runs(c, s, steps) && p in s.spans.callers
    ensures p in After(c, s, steps).spans.callers
    ensures ProducerSteps(p, steps) + ProducerLeft(After(c, s, steps).spans.callers[p]) <= ProducerLeft(s.spans.callers[p]) <= 4
    decreases |steps|
  {
    if steps != [] {
      ProducerMoves(c, s, p, steps[0]);
      OnEndReturns(c, Do(c, s, steps[0]), p, steps[1..]);
    }
  }

  function FlusherLeft(g: Flusher): nat {
    match g
    case FlushReturned(_, _) => 0
    case FlushReadOk => 1
    case FlushAwait => 2
    case FlushPost => 3
    case FlushSet => 4
    case FlushReadEmpty => 1
    case FlushLastPost(_) => 5
    case FlushLastSet(_) => 6
    case FlushRecheck(_) => 7
    case FlushLeave(_) => 8
    case FlushEnqueue(_) => 9
    case FlushCreate(_) => 10
    case FlushCheckStopped(_) => 11
    case FlushCheckShutdown(_) => 12
  }

  lemma FlusherLeftFalls(s: State, f: CallId, accept: bool)
    requires f in s.flush.callers && FlushEnabled(s, f, accept)
    ensures FlusherLeft(NextFlusher(s, f, accept)) < FlusherLeft(s.flush.callers[f])
  {
  }

  /** A forceFlush call has returned after at most twelve steps of its own, its timed wait counted as one. */
  lemma {:induction false} ForceFlushReturns(c: Config, s: State, f: CallId, steps: seq<Step>)
    requires Runs(c, s, steps) && f in s.flush.callers
    ensures f in After(c, s, steps).flush.callers
    ensures FlusherSteps(f, steps) + FlusherLeft(After(c, s, steps).flush.callers[f]) <= FlusherLeft(s.flush.callers[f]) <= 12
    decreases |steps|
  {
    if steps != [] {
      FlusherMoves(c, s, f, steps[0]);
      if steps[0].Flush? && steps[0].flush == f {
        FlusherLeftFalls(s, f, steps[0].accept);
      }
      ForceFlushReturns(c, Do(c, s, steps[0]), f, steps[1..]);
    }
  }

  function StopperLeft(pc: StopPc): nat {
    match pc
    case StopReturned => 0
    case StopFinalClock => 1
    case StopCallExporter => 2
    case StopClaimExporter => 3
    case StopReadDrainOk => 4
    case StopReadStopped => 5
    case StopJoin => 5
    case StopPoll => 6
    case StopPollClock => 7
    case StopClaimJoin => 8
    case StopPost => 9
    case StopSet => 10
    case StopStoreFlag => 11
  }

  lemma StoppedStays(c: Config, s: State, a: Step)
    requires s.stop.workerStopped && Enabled(c, s, a)
    ensures Do(c, s, a).stop.workerStopped
  {
    match a
    case Stop(_, _) =>
    case Work(_) =>
    case _ =>
  }

  /** Once the worker has stopped, a shutdown call has returned after at most eleven steps of its own, deadline or not. */
  lemma {:induction false} ShutdownReturns(c: Config, s: State, x: CallId, steps: seq<Step>)
    requires Runs(c, s, steps) && x in s.stop.callers && s.stop.workerStopped
    ensures x in After(c, s, steps).stop.callers
    ensures StopperSteps(x, steps) + StopperLeft(After(c, s, steps).stop.callers[x].pc)
         <= StopperLeft(s.stop.callers[x].pc) <= 11
    decreases |steps|
  {
    if steps != [] {
      StopperMoves(c, s, x, steps[0]);
      StoppedStays(c, s, steps[0]);
      ShutdownReturns(c, Do(c, s, steps[0]), x, steps[1..]);
    }
  }

  /** And no call is ever kept from taking its next step; a shutdown call that joins needs the worker to have stopped. */
  lemma CallsNeverBlock(c: Config, s: State)
    requires Inv(c, s)
    ensures forall p :: p in s.spans.callers && !s.spans.callers[p].Returned? ==> Enabled(c, s, Produce(p, true))
    ensures forall f :: f in s.flush.callers && !s.flush.callers[f].FlushReturned? ==> Enabled(c, s, Flush(f, false))
    ensures forall x :: x in s.stop.callers && !s.stop.callers[x].pc.StopReturned? ==>
      (Enabled(c, s, Stop(x, true)) <==> !s.stop.callers[x].pc.StopJoin? || s.stop.workerStopped)
  {
    forall f | f in s.flush.callers && !s.flush.callers[f].FlushReturned?
      ensures Enabled(c, s, Flush(f, false))
    {
      assert s.flush.callers[f].FlushAwait? || s.flush.callers[f].FlushReadOk? ==> HasRequest(s.flush.callers[f]);
    }
  }
}
