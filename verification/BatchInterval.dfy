/** What one turn of the worker loop exports: after an elapsed interval everything, after a wakeup all full batches. */
module BatchInterval {
  import opened MapCount
  import opened BatchProtocol
  import opened BatchControl
  import opened BatchQueue
  import opened BatchShutdown
  import opened BatchTheorems
  import opened BatchOutcomes

  /** The worker finds no flush request along the run. */
  ghost predicate NoRequestFound(c: Config, s: State, steps: seq<Step>)
    requires Runs(c, s, steps)
    decreases |steps|
  {
    steps != [] ==>
      && (steps[0].Work? && s.worker.pc == Req(TakeRequest) ==> s.flush.queue == {})
      && NoRequestFound(c, Do(c, s, steps[0]), steps[1..])
  }

  /** Of a turn that began with an elapsed interval: the drain that takes partial batches too is not over yet. */
  predicate PartialDrainAhead(w: Worker) {
    match w.pc
    case Head(LoadShutdown) => w.elapsed
    case Req(TakeRequest) => w.round == First && !w.completedAny && w.elapsed
    case Idle(op) => w.round == ShutdownDrain && op != IdleDone
    case Pop(_) => w.round == ShutdownDrain || (w.round == Ready && w.partial)
    case Drain(op) => w.partial && op != CheckReady
    case _ => false
  }

  lemma PartialDrainNext(c: Config, s: State, choice: Choice)
    requires Normal(c) && ControlInv(c, s) && WorkEnabled(c, s, choice)
    requires PartialDrainAhead(s.worker) && !(s.worker.pc == Req(TakeRequest) && s.flush.queue != {})
    ensures PartialDrainAhead(NextWorker(c, s, choice)) || s.spans.size == 0 || s.spans.queue == {}
  {
  }

  lemma PartialDrainEnds(c: Config, s: State, choice: Choice)
    requires Normal(c) && ControlInv(c, s) && QueueInv(c, s) && WorkEnabled(c, s, choice)
    requires PartialDrainAhead(s.worker) && !(s.worker.pc == Req(TakeRequest) && s.flush.queue != {})
    ensures PartialDrainAhead(NextWorker(c, s, choice)) || WorkerStep(c, s, choice).spans.queue == {}
  {
    PartialDrainNext(c, s, choice);
    if s.spans.size == 0 {
      EmptyWhenZero(c, s);
    }
  }

  /** A span once accepted and out of the queue does not come back. */
  lemma GoneStaysGone(c: Config, s: State, a: Step, p: SpanId)
    requires Enabled(c, s, a) && p in AcceptedSpans(s.spans.callers)
    ensures p in AcceptedSpans(Do(c, s, a).spans.callers)
    ensures p in Do(c, s, a).spans.queue ==> p in s.spans.queue
  {
    match a
    case Produce(q, _) =>
    case _ =>
  }

  lemma {:induction false} IntervalRun(c: Config, s: State, steps: seq<Step>, p: SpanId)
    requires Inv(c, s) && Runs(c, s, steps) && NoRequestFound(c, s, steps) && p in AcceptedSpans(s.spans.callers)
    requires p in s.spans.queue ==> PartialDrainAhead(s.worker)
    ensures var t := After(c, s, steps);
      p in AcceptedSpans(t.spans.callers) && (p in t.spans.queue ==> PartialDrainAhead(t.worker))
    decreases |steps|
  {
    if steps != [] {
      var a := steps[0];
      InvStep(c, s, a);
      GoneStaysGone(c, s, a, p);
      if a.Work? && p in s.spans.queue {
        PartialDrainEnds(c, s, a.choice);
      }
      IntervalRun(c, Do(c, s, a), steps[1..], p);
    }
  }

  /**
   In every mode and every interleaving: a span queued when the worker's wait at the loop head times out has been
   exported when the worker is back there, unless the worker found a flush request in between.
   */
  lemma IntervalExports(c: Config, s: State, choice: Choice, steps: seq<Step>, p: SpanId)
    requires Inv(c, s) && s.worker.pc == Head(HeadWait) && !choice.flag && p in s.spans.queue
    requires var u := Do(c, s, Work(choice)); Runs(c, u, steps) && NoRequestFound(c, u, steps)
    ensures var t := After(c, Do(c, s, Work(choice)), steps);
      t.worker.pc == Head(HeadWait) ==> p in t.exported && p !in t.spans.queue
  {
    var u := Do(c, s, Work(choice));
    InvStep(c, s, Work(choice));
    assert p in AcceptedSpans(s.spans.callers);
    IntervalRun(c, u, steps, p);
    InvRun(c, u, steps);
  }

  // ---------------------------------------------------------------- after a wakeup

  /** Of a turn that has found no request: what the worker is doing, unless it has seen shutdown. */
  predicate PlainTurn(w: Worker) {
    || w.sawShutdown || w.pc.Head? || w.pc.Drain?
    || (w.pc == Req(TakeRequest) && w.round == First && !w.completedAny)
    || (w.pc.Pop? && w.round == Ready)
  }

  lemma TurnNext(c: Config, s: State, choice: Choice)
    requires Normal(c) && ControlInv(c, s) && WorkEnabled(c, s, choice)
    requires PlainTurn(s.worker) && !(s.worker.pc == Req(TakeRequest) && s.flush.queue != {})
    ensures var w := NextWorker(c, s, choice);
      && PlainTurn(w)
      && (w.pc == Head(HeadWait) && !w.sawShutdown ==>
            (s.spans.size < c.maxBatchSize || s.spans.queue == {}) && s.worker.pc != Pop(PopCount))
  {
  }

  lemma TurnEnds(c: Config, s: State, choice: Choice)
    requires Normal(c) && ControlInv(c, s) && QueueInv(c, s) && WorkEnabled(c, s, choice)
    requires PlainTurn(s.worker) && !(s.worker.pc == Req(TakeRequest) && s.flush.queue != {})
    requires NextWorker(c, s, choice).pc == Head(HeadWait) && !NextWorker(c, s, choice).sawShutdown
    ensures |WorkerStep(c, s, choice).spans.queue| < c.maxBatchSize
  {
    TurnNext(c, s, choice);
    SubsetSize(WorkerStep(c, s, choice).spans.queue, s.spans.queue);
  }

  lemma {:induction false} TurnRun(c: Config, s: State, steps: seq<Step>)
    requires Inv(c, s) && Runs(c, s, steps) && NoRequestFound(c, s, steps) && PlainTurn(s.worker)
    ensures PlainTurn(After(c, s, steps).worker)
    decreases |steps|
  {
    if steps != [] {
      InvStep(c, s, steps[0]);
      if steps[0].Work? {
        TurnNext(c, s, steps[0].choice);
      }
      TurnRun(c, Do(c, s, steps[0]), steps[1..]);
    }
  }

  /**
   In every mode and every interleaving: when the worker comes back to the loop head from a turn that found no flush
   request and saw no shutdown, it leaves less than a full batch in the queue.
   */
  lemma TurnLeavesNoFullBatch(c: Config, s: State, steps: seq<Step>, choice: Choice)
    requires Inv(c, s) && s.worker.pc == Head(HeadWait)
    requires Runs(c, s, steps) && NoRequestFound(c, s, steps)
    requires var m := After(c, s, steps);
      WorkEnabled(c, m, choice) && !(m.worker.pc == Req(TakeRequest) && m.flush.queue != {})
    ensures var t := WorkerStep(c, After(c, s, steps), choice);
      t.worker.pc == Head(HeadWait) && !t.worker.sawShutdown ==> |t.spans.queue| < c.maxBatchSize
  {
    TurnRun(c, s, steps);
    InvRun(c, s, steps);
    var m := After(c, s, steps);
    if NextWorker(c, m, choice).pc == Head(HeadWait) && !NextWorker(c, m, choice).sawShutdown {
      TurnEnds(c, m, choice);
    }
  }

  // ---------------------------------------------------------------- one pass of drainUntilIdle

  /** The worker passes a batch to exportBatch. */
  function Exports(): (State, Step) -> bool {
    (s: State, a: Step) => a.Work? && s.worker.pc == Pop(Export)
  }

  /** The worker does not test the deadline of a drain along the run. */
  ghost predicate SamePass(c: Config, s: State, steps: seq<Step>)
    requires Runs(c, s, steps)
    decreases |steps|
  {
    steps != [] ==>
      !(steps[0].Work? && s.worker.pc == Idle(IdleClock)) && SamePass(c, Do(c, s, steps[0]), steps[1..])
  }

  lemma {:induction false} PassRun(c: Config, s: State, steps: seq<Step>)
    requires Runs(c, s, steps) && SamePass(c, s, steps)
    ensures After(c, s, steps).worker.exportedAny <==> s.worker.exportedAny || Sometime(c, s, steps, Exports())
    decreases |steps|
  {
    if steps != [] {
      PassRun(c, Do(c, s, steps[0]), steps[1..]);
    }
  }

  /** A pass that leaves spans behind is followed by a wait exactly if it exported nothing, else by the next pass. */
  lemma PassWaits(c: Config, s: State, first: Choice, steps: seq<Step>, last: Choice)
    requires s.worker.pc == Idle(IdleClock) && WorkEnabled(c, s, first)
    requires var u := WorkerStep(c, s, first); Runs(c, u, steps) && SamePass(c, u, steps)
    requires var m := After(c, WorkerStep(c, s, first), steps); m.worker.pc == Idle(IdleEmpty) && m.spans.size != 0
    ensures var u := WorkerStep(c, s, first);
      NextWorker(c, After(c, u, steps), last).pc
      == if Sometime(c, u, steps, Exports()) then Idle(IdleClock) else Idle(IdleWait)
  {
    PassRun(c, WorkerStep(c, s, first), steps);
  }

  // ---------------------------------------------------------------- leaving the loop

  /** The worker completes a flush request. */
  function Completes(): (State, Step) -> bool {
    (s: State, a: Step) => a.Work? && s.worker.pc == Req(ReleaseDone)
  }

  /** No new call of completeFlushRequests begins along the run. */
  ghost predicate SameLook(c: Config, s: State, steps: seq<Step>)
    requires Runs(c, s, steps)
    decreases |steps|
  {
    steps != [] ==> !(steps[0].Work? && StartsRound(s.worker)) && SameLook(c, Do(c, s, steps[0]), steps[1..])
  }

  lemma {:induction false} LookRun(c: Config, s: State, steps: seq<Step>)
    requires Runs(c, s, steps) && SameLook(c, s, steps)
    ensures After(c, s, steps).worker.completedAny <==> s.worker.completedAny || Sometime(c, s, steps, Completes())
    decreases |steps|
  {
    if steps != [] {
      LookRun(c, Do(c, s, steps[0]), steps[1..]);
    }
  }

  lemma StoppedAfterEmptyLook(c: Config, t: State)
    requires ControlInv(c, t) && t.stop.workerStopped
    ensures !t.worker.completedAny
  {
  }

  lemma NewLook(c: Config, s: State, choice: Choice)
    requires s.worker.pc == Close(LoadEmpty) && WorkEnabled(c, s, choice)
    ensures !WorkerStep(c, s, choice).worker.completedAny
  {
  }

  lemma InvControl(c: Config, s: State, steps: seq<Step>)
    requires Inv(c, s) && Runs(c, s, steps)
    ensures ControlInv(c, After(c, s, steps))
  {
    InvRun(c, s, steps);
  }

  /** The worker leaves its loop only if its last look at the request queue, after it read size as zero, found nothing. */
  lemma LeavesAfterEmptyLook(c: Config, s: State, choice: Choice, steps: seq<Step>)
    requires Inv(c, s) && s.worker.pc == Close(LoadEmpty) && WorkEnabled(c, s, choice)
    requires var u := WorkerStep(c, s, choice); Runs(c, u, steps) && SameLook(c, u, steps)
    ensures var u := WorkerStep(c, s, choice);
      After(c, u, steps).stop.workerStopped ==> !Sometime(c, u, steps, Completes())
  {
    var u := WorkerStep(c, s, choice);
    InvStep(c, s, Work(choice));
    InvControl(c, u, steps);
    NewLook(c, s, choice);
    LookRun(c, u, steps);
    if After(c, u, steps).stop.workerStopped {
      StoppedAfterEmptyLook(c, After(c, u, steps));
    }
  }
}
