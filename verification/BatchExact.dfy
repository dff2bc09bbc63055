/** Exactly when a drain that meets its deadline loses a wakeup, and a poll that meets its deadline exports late. */
module BatchExact {
  import opened Wrappers
  import opened BatchProtocol
  import opened BatchControl
  import opened BatchQueue
  import opened BatchFlush
  import opened BatchShutdown
  import opened BatchWakeup
  import opened BatchTheorems
  import opened BatchTermination

  // ---------------------------------------------------------------- a drain at its deadline

  /** The worker waits at the loop head, the span is queued, and no permit is there or coming. */
  ghost predicate Stranded(s: State, p: SpanId) {
    s.worker.pc == Head(HeadWait) && p in s.spans.queue && s.signal.permits == 0 && !PermitComing(s)
  }

  /** The worker, left alone, can strand the span. */
  ghost predicate CanStrand(c: Config, s: State, p: SpanId) {
    exists choices: seq<Choice> :: Runs(c, s, Works(choices)) && Stranded(After(c, s, Works(choices)), p)
  }

  predicate Late(s: State, f: CallId) {
    f in s.flush.requests && s.now > s.flush.requests[f].deadline
  }

  /** The deadlines of the request in progress and of all queued ones have passed. */
  ghost predicate AllLate(s: State) {
    && (s.worker.request.Some? ==> Late(s, s.worker.request.value))
    && (forall f :: f in s.flush.queue ==> Late(s, f))
  }

  // ---- late requests: the worker answers them all without a pop and goes back to its wait

  /** The operations between the deadline test of a late request and the loop head. */
  function AnswerRank(pc: WorkerPc): nat {
    match pc
    case Idle(IdleClock) => 8
    case Idle(IdleDone) => 7
    case Req(FlushExporter) => 6
    case Req(StoreOk) => 5
    case Req(ReleaseDone) => 4
    case Req(TakeRequest) => 3
    case Close(LoadActive) => 2
    case Close(LoadEmpty) => 1
    case _ => 0
  }

  ghost predicate Answering(s: State, p: SpanId) {
    && p in s.spans.queue && s.signal.permits == 0 && !PermitComing(s) && AllLate(s)
    && AnswerRank(s.worker.pc) > 0
    && (s.worker.pc.Idle? ==> s.worker.request.Some?)
    && (s.worker.pc == Req(TakeRequest) && s.worker.round == First ==> s.worker.completedAny)
  }

  /** Requests never change their deadline, and the worker does not move the clock. */
  lemma LateKept(c: Config, s: State, choice: Choice, f: CallId)
    requires RequestInv(s) && WorkEnabled(c, s, choice) && f in s.flush.requests
    ensures Late(WorkerStep(c, s, choice), f) <==> Late(s, f)
  {
  }

  lemma AllLateKept(c: Config, s: State, choice: Choice)
    requires RequestInv(s) && WorkEnabled(c, s, choice) && AllLate(s)
    ensures AllLate(WorkerStep(c, s, choice))
  {
    var t := WorkerStep(c, s, choice);
    forall f | f in t.flush.queue || t.worker.request == Some(f)
      ensures Late(t, f)
    {
      LateKept(c, s, choice, f);
    }
  }

  lemma NonEmptySize(c: Config, s: State, p: SpanId)
    requires QueueInv(c, s) && p in s.spans.queue
    ensures s.spans.size > 0
  {
  }

  function AnswerSteps(s: State): nat {
    10 * |s.flush.queue| + AnswerRank(s.worker.pc)
  }

  lemma AnswerPc(c: Config, s: State, p: SpanId, choice: Choice)
    requires WellPlaced(s.worker) && SealInv(s) && s.spans.size > 0 && Answering(s, p) && WorkEnabled(c, s, choice)
    ensures var w := NextWorker(c, s, choice);
      && (w.pc == Head(HeadWait) || AnswerRank(w.pc) > 0)
      && (AnswerRank(w.pc) < AnswerRank(s.worker.pc) || (s.worker.pc == Req(TakeRequest) && s.flush.queue != {}))
      && (w.pc.Idle? ==> w.request.Some?)
      && (w.pc == Req(TakeRequest) && w.round == First ==> w.completedAny)
  {
  }

  lemma AnswerStep(c: Config, s: State, p: SpanId, choice: Choice)
    requires WellPlaced(s.worker) && SealInv(s) && QueueInv(c, s) && RequestInv(s)
    requires Answering(s, p) && WorkEnabled(c, s, choice)
    ensures var t := WorkerStep(c, s, choice);
      Stranded(t, p) || (Answering(t, p) && AnswerSteps(t) < AnswerSteps(s))
  {
    NonEmptySize(c, s, p);
    AnswerPc(c, s, p, choice);
    AllLateKept(c, s, choice);
    Shrinks(c, s, choice);
  }

  lemma {:induction false} AnswersAndSleeps(c: Config, s: State, p: SpanId) returns (choices: seq<Choice>)
    requires Inv(c, s) && Answering(s, p)
    ensures Runs(c, s, Works(choices)) && Stranded(After(c, s, Works(choices)), p)
    decreases AnswerSteps(s)
  {
    var choice := WorkerNeverBlocks(c, s);
    InvStep(c, s, Work(choice));
    AnswerStep(c, s, p, choice);
    var t := WorkerStep(c, s, choice);
    var rest := [];
    if !Stranded(t, p) {
      rest := AnswersAndSleeps(c, t, p);
    }
    choices := [choice] + rest;
    WorksCons(choice, rest);
    RunsCons(c, s, Work(choice), Works(rest));
  }

  // ---- a request in time, a permit or a caller about to release one: the span is exported before the wait

  /** Past the deadline test of a drain and before its end. */
  predicate InDrain(pc: WorkerPc) {
    pc.Pop? || (pc.Idle? && pc.idle != IdleClock && pc.idle != IdleDone)
  }

  /** Requests are queued only while the worker completes them, and a drain under way was in time. */
  predicate OnDuty(s: State) {
    && (s.flush.queue == {} || s.worker.request.Some? || (s.worker.pc == Req(TakeRequest) && s.worker.completedAny))
    && (InDrain(s.worker.pc) ==> !Expired(s))
  }

  ghost predicate Hope(s: State, p: SpanId) {
    || p !in s.spans.queue || s.signal.permits > 0 || PermitComing(s)
    || (exists f :: f in s.flush.queue && !Late(s, f))
    || (SpanDrainAhead(s.worker) && !Expired(s))
  }

  lemma ExpiredKept(c: Config, s: State, choice: Choice)
    requires RequestInv(s) && WorkEnabled(c, s, choice)
    requires !(s.worker.pc == Req(TakeRequest) && s.flush.queue != {})
    ensures Expired(WorkerStep(c, s, choice)) ==> Expired(s)
  {
  }

  lemma OnDutyStep(c: Config, s: State, choice: Choice)
    requires ControlInv(c, s) && RequestInv(s) && WorkEnabled(c, s, choice) && OnDuty(s)
    ensures OnDuty(WorkerStep(c, s, choice))
  {
    if !(s.worker.pc == Req(TakeRequest) && s.flush.queue != {}) {
      ExpiredKept(c, s, choice);
    }
  }

  /** A drain in time that was ahead still is, or has found the queue empty. */
  lemma AheadStep(c: Config, s: State, choice: Choice)
    requires Normal(c) && ControlInv(c, s) && QueueInv(c, s) && RequestInv(s)
    requires WorkEnabled(c, s, choice) && OnDuty(s) && c.mode == OnEnd
    requires SpanDrainAhead(s.worker) && !Expired(s)
    ensures var t := WorkerStep(c, s, choice);
      t.spans.queue == {} || (SpanDrainAhead(t.worker) && !Expired(t))
  {
    if s.spans.size == 0 {
      EmptyWhenZero(c, s);
    }
    if !SpanDrainAhead(NextWorker(c, s, choice)) {
      DrainEnds(c, s, choice);
    }
    assert !(s.worker.pc == Req(TakeRequest) && s.flush.queue != {});
    ExpiredKept(c, s, choice);
  }

  /** A worker that takes the last permit has a drain in time ahead. */
  lemma PermitTaken(c: Config, s: State, choice: Choice)
    requires ControlInv(c, s) && RequestInv(s) && WorkEnabled(c, s, choice) && OnDuty(s)
    requires s.signal.permits > 0 && WorkerStep(c, s, choice).signal.permits <= 0
    ensures SpanDrainAhead(NextWorker(c, s, choice)) && !Expired(WorkerStep(c, s, choice))
  {
    ExpiredKept(c, s, choice);
  }

  lemma HopeStep(c: Config, s: State, p: SpanId, choice: Choice)
    requires Normal(c) && ControlInv(c, s) && QueueInv(c, s) && RequestInv(s) && s.signal.permits >= 0
    requires WorkEnabled(c, s, choice) && OnDuty(s) && c.mode == OnEnd && Hope(s, p)
    ensures Hope(WorkerStep(c, s, choice), p)
  {
    var t := WorkerStep(c, s, choice);
    if SpanDrainAhead(s.worker) && !Expired(s) {
      AheadStep(c, s, choice);
    } else if f :| f in s.flush.queue && !Late(s, f) {
      LateKept(c, s, choice, f);
      if f !in t.flush.queue {
        assert t.worker.request == Some(f) && t.worker.pc == Idle(IdleClock);
      }
    } else if s.signal.permits > 0 && t.signal.permits <= 0 {
      PermitTaken(c, s, choice);
    }
  }

  lemma {:induction false} HopeRun(c: Config, s: State, p: SpanId, choices: seq<Choice>)
    requires Inv(c, s) && OnDuty(s) && c.mode == OnEnd && Hope(s, p) && Runs(c, s, Works(choices))
    ensures !Stranded(After(c, s, Works(choices)), p)
    decreases |choices|
  {
    if choices != [] {
      assert Works(choices)[1..] == Works(choices[1..]);
      InvStep(c, s, Work(choices[0]));
      OnDutyStep(c, s, choices[0]);
      HopeStep(c, s, p, choices[0]);
      HopeRun(c, WorkerStep(c, s, choices[0]), p, choices[1..]);
    }
  }

  /**
   * At the deadline test of a drain for a request, with a span queued in kOnEnd mode: the worker alone can go back to
   * its wait and leave the span without a wakeup if and only if the deadlines of this and all queued requests have
   * passed and no permit is there or coming. For a span whose onEnd call has returned, that wakeup is lost.
   */
  lemma WakeupLostIff(c: Config, s: State, p: SpanId)
    requires Inv(c, s) && c.mode == OnEnd
    requires s.worker.pc == Idle(IdleClock) && s.worker.request.Some? && p in s.spans.queue
    ensures CanStrand(c, s, p) <==> AllLate(s) && s.signal.permits == 0 && !PermitComing(s)
  {
    if AllLate(s) && s.signal.permits == 0 && !PermitComing(s) {
      var choices := AnswersAndSleeps(c, s, p);
    } else {
      assert Hope(s, p);
      forall choices: seq<Choice> | Runs(c, s, Works(choices))
        ensures !Stranded(After(c, s, Works(choices)), p)
      {
        HopeRun(c, s, p, choices);
      }
    }
  }

  // ---------------------------------------------------------------- a poll at its deadline

  /** Steps of one shutdown call; each flag is what exporter.shutdown would answer. */
  function Stops(x: CallId, answers: seq<bool>): seq<Step> {
    seq(|answers|, i requires 0 <= i < |answers| => Stop(x, answers[i]))
  }

  /** Some exportSpans or forceFlush of the exporter comes after its shutdown. */
  ghost predicate CallAfterShutdown(log: seq<ExporterCall>) {
    exists i, j :: 0 <= i < j < |log| && log[i].ShutdownCall? && !log[j].ShutdownCall?
  }

  /** The call alone, and then the worker and the onEnd and forceFlush calls in progress, can bring that about. */
  ghost predicate CanExportLate(c: Config, s: State, x: CallId) {
    exists answers: seq<bool>, steps: seq<Step> ::
      && Runs(c, s, Stops(x, answers)) && Unattended(steps) && Runs(c, After(c, s, Stops(x, answers)), steps)
      && CallAfterShutdown(After(c, After(c, s, Stops(x, answers)), steps).log)
  }

  /** The worker has an exporter call ahead of it: at least the flush after its last drain. */
  predicate CallsAhead(w: Worker) {
    w.pc != Close(StoreDrainOk) && w.pc != Close(StoreStopped) && w.pc != Exited
  }

  // ---- an expired poll: the exporter is shut down first

  /** later continues log, and of the new entries all (shutdown) or none are calls of exporter.shutdown. */
  ghost predicate Extends(log: seq<ExporterCall>, later: seq<ExporterCall>, shutdown: bool) {
    && |log| <= |later| && later[..|log|] == log
    && forall i :: |log| <= i < |later| ==> later[i].ShutdownCall? == shutdown
  }

  lemma WorkerLogs(c: Config, s: State, choice: Choice)
    requires c.hasExporter && WorkEnabled(c, s, choice)
    ensures var t := WorkerStep(c, s, choice);
      && Extends(s.log, t.log, false)
      && (CallsAhead(s.worker) && !CallsAhead(t.worker) ==> |t.log| > |s.log|)
      && (!CallsAhead(s.worker) ==> t.log == s.log && !CallsAhead(t.worker))
  {
  }

  lemma UnattendedStep(c: Config, s: State, a: Step)
    requires c.hasExporter && Enabled(c, s, a) && (a.Produce? || a.Flush? || a.Work?)
    ensures var t := Do(c, s, a);
      && Extends(s.log, t.log, false)
      && (CallsAhead(s.worker) && !CallsAhead(t.worker) ==> |t.log| > |s.log|)
      && (!CallsAhead(s.worker) ==> t.log == s.log && !CallsAhead(t.worker))
  {
    match a
    case Produce(_, _) =>
    case Flush(_, _) =>
    case Work(choice) => WorkerLogs(c, s, choice);
  }

  lemma {:induction false} UnattendedRun(c: Config, s: State, steps: seq<Step>)
    requires c.hasExporter && Runs(c, s, steps) && Unattended(steps)
    ensures var t := After(c, s, steps);
      && Extends(s.log, t.log, false)
      && (CallsAhead(s.worker) && !CallsAhead(t.worker) ==> |t.log| > |s.log|)
      && (!CallsAhead(s.worker) ==> t.log == s.log)
    decreases |steps|
  {
    if steps != [] {
      UnattendedStep(c, s, steps[0]);
      assert Unattended(steps[1..]);
      UnattendedRun(c, Do(c, s, steps[0]), steps[1..]);
    }
  }

  /** Steps of a call, past its wait, until it has called exporter.shutdown. */
  function ShutdownRank(pc: StopPc): nat {
    match pc
    case StopPollClock => 5
    case StopReadStopped => 4
    case StopReadDrainOk => 3
    case StopClaimExporter => 2
    case StopCallExporter => 1
    case _ => 0
  }

  /** The call is bound to call exporter.shutdown. */
  predicate Bound(s: State, x: CallId) {
    && x in s.stop.callers && s.stop.shutdownRequested
    && var t := s.stop.callers[x];
       && ShutdownRank(t.pc) > 0
       && (t.pc.StopPollClock? ==> s.now > t.deadline)
       && (t.pc.StopCallExporter? || !s.stop.exporterShutdown)
  }

  lemma BoundStep(c: Config, s: State, x: CallId)
    requires c.hasExporter && Bound(s, x)
    ensures Enabled(c, s, Stop(x, true))
    ensures var t := Do(c, s, Stop(x, true));
      && t.worker == s.worker && t.stop.shutdownRequested
      && if s.stop.callers[x].pc.StopCallExporter? then t.log == s.log + [ShutdownCall(true, x)]
         else Bound(t, x) && t.log == s.log && ShutdownRank(t.stop.callers[x].pc) < ShutdownRank(s.stop.callers[x].pc)
  {
  }

  lemma StopsCons(x: CallId, answer: bool, rest: seq<bool>)
    ensures Stops(x, [answer] + rest) == [Stop(x, answer)] + Stops(x, rest)
  {
  }

  lemma {:induction false} ReachesShutdown(c: Config, s: State, x: CallId) returns (answers: seq<bool>)
    requires Inv(c, s) && c.hasExporter && Bound(s, x)
    ensures Runs(c, s, Stops(x, answers))
    ensures var t := After(c, s, Stops(x, answers));
      Inv(c, t) && t.worker == s.worker && t.log == s.log + [ShutdownCall(true, x)] && t.stop.shutdownRequested
    decreases if x in s.stop.callers then ShutdownRank(s.stop.callers[x].pc) else 0
  {
    BoundStep(c, s, x);
    InvStep(c, s, Stop(x, true));
    var rest := [];
    if !s.stop.callers[x].pc.StopCallExporter? {
      rest := ReachesShutdown(c, Do(c, s, Stop(x, true)), x);
    }
    answers := [true] + rest;
    StopsCons(x, true, rest);
    RunsCons(c, s, Stop(x, true), Stops(x, rest));
  }

  lemma LateCall(c: Config, s: State, t: State, x: CallId, steps: seq<Step>)
    requires Inv(c, t) && c.hasExporter && t.log == s.log + [ShutdownCall(true, x)] && CallsAhead(t.worker)
    requires Runs(c, t, steps) && Unattended(steps) && After(c, t, steps).stop.workerStopped
    ensures CallAfterShutdown(After(c, t, steps).log)
  {
    InvRun(c, t, steps);
    UnattendedRun(c, t, steps);
    var log := After(c, t, steps).log;
    assert log[|s.log|] == log[..|t.log|][|s.log|] == ShutdownCall(true, x) && !log[|t.log|].ShutdownCall?;
  }

  // ---- a poll in time, or a worker without exporter calls ahead

  lemma StopsStep(c: Config, s: State, x: CallId, answer: bool)
    requires Enabled(c, s, Stop(x, answer))
    ensures var t := Do(c, s, Stop(x, answer));
      Extends(s.log, t.log, true) && t.worker == s.worker
  {
  }

  lemma {:induction false} StopsRun(c: Config, s: State, x: CallId, answers: seq<bool>)
    requires Runs(c, s, Stops(x, answers))
    ensures var t := After(c, s, Stops(x, answers)); Extends(s.log, t.log, true) && t.worker == s.worker
    decreases |answers|
  {
    if answers != [] {
      assert Stops(x, answers)[1..] == Stops(x, answers[1..]);
      StopsStep(c, s, x, answers[0]);
      StopsRun(c, Do(c, s, Stop(x, answers[0])), x, answers[1..]);
    }
  }

  /** The call goes round its polling loop. */
  predicate Polling(s: State, x: CallId) {
    && x in s.stop.callers && !s.stop.workerStopped && s.now <= s.stop.callers[x].deadline
    && (s.stop.callers[x].pc.StopPoll? || s.stop.callers[x].pc.StopPollClock?)
  }

  lemma PollStep(c: Config, s: State, x: CallId, answer: bool)
    requires Polling(s, x) && Enabled(c, s, Stop(x, answer))
    ensures Polling(Do(c, s, Stop(x, answer)), x) && Do(c, s, Stop(x, answer)).log == s.log
  {
  }

  lemma {:induction false} PollRun(c: Config, s: State, x: CallId, answers: seq<bool>)
    requires Polling(s, x) && Runs(c, s, Stops(x, answers))
    ensures After(c, s, Stops(x, answers)).log == s.log
    decreases |answers|
  {
    if answers != [] {
      assert Stops(x, answers)[1..] == Stops(x, answers[1..]);
      PollStep(c, s, x, answers[0]);
      PollRun(c, Do(c, s, Stop(x, answers[0])), x, answers[1..]);
    }
  }

  lemma NotLate(c: Config, s: State, x: CallId, answers: seq<bool>, steps: seq<Step>)
    requires ControlInv(c, s) && ExporterInv(s) && c.hasExporter && !s.stop.exporterShutdown
    requires x in s.stop.callers && s.stop.callers[x].pc == StopPollClock
    requires s.now <= s.stop.callers[x].deadline || !CallsAhead(s.worker)
    requires Runs(c, s, Stops(x, answers)) && Unattended(steps) && Runs(c, After(c, s, Stops(x, answers)), steps)
    ensures !CallAfterShutdown(After(c, After(c, s, Stops(x, answers)), steps).log)
  {
    var t := After(c, s, Stops(x, answers));
    StopsRun(c, s, x, answers);
    UnattendedRun(c, t, steps);
    if CallsAhead(s.worker) {
      PollRun(c, s, x, answers);
    }
    NoCallAfter(s.log, t.log, After(c, t, steps).log);
  }

  lemma NoCallAfter(log: seq<ExporterCall>, middle: seq<ExporterCall>, last: seq<ExporterCall>)
    requires forall i :: 0 <= i < |log| ==> !log[i].ShutdownCall?
    requires Extends(log, middle, true) && Extends(middle, last, false) && (middle == log || last == middle)
    ensures !CallAfterShutdown(last)
  {
    forall i | 0 <= i < |last|
      ensures last[i].ShutdownCall? <==> |log| <= i < |middle|
    {
      if i < |middle| {
        assert last[i] == last[..|middle|][i];
        if i < |log| {
          assert middle[i] == middle[..|log|][i];
        }
      }
    }
  }

  /**
   * At the clock test of a polling shutdown call, with an exporter nobody has shut down: this call alone, and then the
   * worker and the calls in progress, can put an exporter call after exporter.shutdown if and only if the deadline
   * has passed and the worker has an exporter call ahead.
   */
  lemma LateExportIff(c: Config, s: State, x: CallId)
    requires Inv(c, s) && c.hasExporter && !s.stop.exporterShutdown
    requires x in s.stop.callers && s.stop.callers[x].pc == StopPollClock
    ensures CanExportLate(c, s, x) <==> s.now > s.stop.callers[x].deadline && CallsAhead(s.worker)
  {
    if s.now > s.stop.callers[x].deadline && CallsAhead(s.worker) {
      var answers := ReachesShutdown(c, s, x);
      var t := After(c, s, Stops(x, answers));
      var steps := StopStaysPossible(c, t);
      LateCall(c, s, t, x, steps);
    } else {
      forall answers: seq<bool>, steps: seq<Step> |
        Runs(c, s, Stops(x, answers)) && Unattended(steps) && Runs(c, After(c, s, Stops(x, answers)), steps)
        ensures !CallAfterShutdown(After(c, After(c, s, Stops(x, answers)), steps).log)
      {
        NotLate(c, s, x, answers, steps);
      }
    }
  }
}
