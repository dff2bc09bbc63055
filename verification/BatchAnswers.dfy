/** What forceFlush and shutdown answer, in terms of the exporter calls made for them and the clock. */
module BatchAnswers {
  import opened Wrappers
  import opened BatchProtocol
  import opened BatchControl
  import opened BatchFlush
  import opened BatchShutdown
  import opened BatchTheorems
  import BatchOutcomes

  // ---------------------------------------------------------------- the log

  /** An exportBatch or exporter.forceFlush on behalf of a request, or of the processor itself. */
  predicate MadeFor(e: ExporterCall, request: Option<CallId>) {
    (e.Batch? || e.FlushCall?) && e.forRequest == request
  }

  /** From position start on, every call made for the request has succeeded. */
  ghost predicate CallsOk(log: seq<ExporterCall>, start: nat, request: Option<CallId>) {
    forall i :: start <= i < |log| && MadeFor(log[i], request) ==> log[i].success
  }

  ghost predicate NoCalls(log: seq<ExporterCall>, request: Option<CallId>) {
    forall i :: 0 <= i < |log| ==> !MadeFor(log[i], request)
  }

  /** From position start on, the exporter was flushed for the request. */
  ghost predicate FlushMade(log: seq<ExporterCall>, start: nat, request: Option<CallId>) {
    exists i :: start <= i < |log| && log[i].FlushCall? && log[i].forRequest == request
  }

  lemma LogGrows(log: seq<ExporterCall>, e: ExporterCall, start: nat, request: Option<CallId>)
    requires start <= |log|
    ensures CallsOk(log + [e], start, request) <==> CallsOk(log, start, request) && (MadeFor(e, request) ==> e.success)
    ensures NoCalls(log + [e], request) <==> NoCalls(log, request) && !MadeFor(e, request)
    ensures FlushMade(log, start, request) || (e.FlushCall? && e.forRequest == request) ==> FlushMade(log + [e], start, request)
  {
    var later := log + [e];
    assert later[|log|] == e && forall i :: 0 <= i < |log| ==> later[i] == log[i];
    if FlushMade(log, start, request) {
      var i :| start <= i < |log| && log[i].FlushCall? && log[i].forRequest == request;
      assert later[i] == log[i];
    }
  }

  // ---------------------------------------------------------------- forceFlush

  /** The drain for the request ended before its deadline. */
  predicate InTime(r: Request) {
    r.drainedAt.Some? && r.drainedAt.value <= r.deadline
  }

  /** What the stored ok means, and what the worker knows on the way there. */
  ghost predicate Judged(c: Config, s: State, f: CallId)
    requires f in s.flush.requests
  {
    var r, w := s.flush.requests[f], s.worker;
    if f in s.flush.queue then NoCalls(s.log, Some(f))
    else if w.request == Some(f) && w.pc != Req(ReleaseDone) then
      && (w.ok <==> CallsOk(s.log, 0, Some(f)) && (w.pc.Req? ==> InTime(r)))
      && (w.pc == Req(StoreOk) && c.hasExporter ==> FlushMade(s.log, 0, Some(f)))
    else
      && (r.ok <==> CallsOk(s.log, 0, Some(f)) && InTime(r))
      && (c.hasExporter ==> FlushMade(s.log, 0, Some(f)))
  }

  /** The request as its caller sees it: given up, still awaited, or answered with the stored ok. */
  predicate Heard(s: State, f: CallId)
    requires f in s.flush.requests && f in s.flush.callers
  {
    var g, r := s.flush.callers[f], s.flush.requests[f];
    if g.FlushReturned? then (g.viaRequest ==> g.result == (!r.gaveUp && r.ok) && (!r.gaveUp ==> r.releases == 1))
    else !r.gaveUp && (g.FlushReadOk? ==> r.releases == 1)
  }

  /** Every tag in the log names a request. */
  ghost predicate TagsKnown(log: seq<ExporterCall>, requests: map<CallId, Request>) {
    forall i :: 0 <= i < |log| && (log[i].Batch? || log[i].FlushCall?) && log[i].forRequest.Some? ==>
      log[i].forRequest.value in requests
  }

  ghost predicate FlushAnswers(c: Config, s: State) {
    && (forall f :: f in s.flush.requests ==> Judged(c, s, f))
    && (forall f :: f in s.flush.requests && f in s.flush.callers ==> Heard(s, f))
    && TagsKnown(s.log, s.flush.requests)
  }

  // ---------------------------------------------------------------- shutdown

  /** Every exporter.shutdown made by the call has succeeded. */
  ghost predicate OwnShutdownOk(log: seq<ExporterCall>, x: CallId) {
    forall i :: 0 <= i < |log| && log[i].ShutdownCall? && log[i].caller == x ==> log[i].success
  }

  ghost predicate NoOwnShutdown(log: seq<ExporterCall>, x: CallId) {
    forall i :: 0 <= i < |log| && log[i].ShutdownCall? ==> log[i].caller != x
  }

  /** The call joined the worker or, after its wait, read workerStopped as true. */
  predicate Waited(t: Stopper) {
    t.joiner || t.sawStopped
  }

  /** The call has not yet read shutdownDrainOk or, without joining, workerStopped. */
  predicate Undecided(pc: StopPc) {
    !PastWait(pc) || pc.StopReadStopped?
  }

  ghost predicate StopJudged(c: Config, s: State, x: CallId)
    requires x in s.stop.callers
  {
    var t := s.stop.callers[x];
    && (t.sawStopped || (t.joiner && PastWait(t.pc)) ==> s.stop.workerStopped)
    && (t.joiner ==> t.pc.StopJoin? || !Undecided(t.pc))
    && (Undecided(t.pc) ==> t.ok && !t.sawStopped)
    && (!t.pc.StopFinalClock? && !t.pc.StopReturned? ==> NoOwnShutdown(s.log, x))
    && (t.pc.StopReadDrainOk? ==> (t.ok <==> Waited(t)))
    && (t.pc.StopClaimExporter? || t.pc.StopCallExporter? || t.pc.StopFinalClock? ==>
          (t.ok <==> Waited(t) && s.stop.shutdownDrainOk && OwnShutdownOk(s.log, x)))
    && (t.pc.StopReturned? ==>
          && t.endedAt.Some?
          && (t.ok <==> Waited(t) && s.stop.shutdownDrainOk && OwnShutdownOk(s.log, x) && t.endedAt.value <= t.deadline))
    && (c.hasExporter && (t.pc.StopCallExporter? || t.pc.StopFinalClock? || t.pc.StopReturned?) ==> s.stop.exporterShutdown)
  }

  /** The exporter was shut down, or some call is about to do it. */
  ghost predicate ShutdownMade(s: State) {
    (exists i :: 0 <= i < |s.log| && s.log[i].ShutdownCall?) || exists x :: CallsExporter(s, x)
  }

  /** The worker's verdict on its last shutdown drain: its batches, and the flush after it. */
  ghost predicate DrainJudged(c: Config, s: State) {
    var w := s.worker;
    var good := CallsOk(s.log, s.drainStart, None);
    && s.drainStart <= |s.log|
    && (w.round == ShutdownDrain && !w.pc.Head? ==> (w.ok <==> good))
    && ((w.round == Second || w.round == Third) && !w.pc.Head? && w.pc != Close(StoreStopped) && w.pc != Exited ==>
          (w.shutdownOk <==> good))
    && (w.pc == Close(StoreStopped) || w.pc == Exited ==> (s.stop.shutdownDrainOk <==> good))
    && (c.hasExporter && (w.pc == Close(StoreDrainOk) || w.pc == Close(StoreStopped) || w.pc == Exited) ==>
          FlushMade(s.log, s.drainStart, None))
  }

  /** Every exporter.shutdown in the log names its caller. */
  ghost predicate CallersKnown(log: seq<ExporterCall>, callers: map<CallId, Stopper>) {
    forall i :: 0 <= i < |log| && log[i].ShutdownCall? ==> log[i].caller in callers
  }

  ghost predicate StopAnswers(c: Config, s: State) {
    && CallersKnown(s.log, s.stop.callers)
    && (forall x :: x in s.stop.callers ==> StopJudged(c, s, x))
    && (s.stop.exporterShutdown ==> ShutdownMade(s))
    && DrainJudged(c, s)
  }

  ghost predicate AnswerInv(c: Config, s: State) {
    FlushAnswers(c, s) && StopAnswers(c, s)
  }

  // ---------------------------------------------------------------- preservation: requests

  /** The log entry of a worker step, if there is one. */
  function Logged(w: Worker, choice: Choice): Option<ExporterCall> {
    if w.pc == Pop(Export) then Some(Batch(w.batch, choice.flag, w.request))
    else if w.pc == Req(FlushExporter) || w.pc == Close(FinalFlush) then Some(FlushCall(choice.flag, w.request))
    else None
  }

  lemma WorkerLog(c: Config, s: State, choice: Choice)
    requires WorkEnabled(c, s, choice)
    ensures var e := Logged(s.worker, choice);
      WorkerStep(c, s, choice).log == if e.Some? then s.log + [e.value] else s.log
  {
  }

  /** The worker's own variables over a step with a request in hand. */
  lemma HandStep(c: Config, s: State, choice: Choice)
    requires WellPlaced(s.worker) && WorkEnabled(c, s, choice) && s.worker.request.Some?
    requires s.worker.request.value in s.flush.requests
    ensures var w, w' := s.worker, NextWorker(c, s, choice);
      && (w.pc != Req(ReleaseDone) ==> w'.request == w.request)
      && (w.pc == Req(ReleaseDone) ==> w'.request == None)
      && (w.pc == Pop(Export) || w.pc == Req(FlushExporter) ==> w'.ok == (choice.flag && w.ok))
      && (w.pc == Idle(IdleDone) ==> w'.ok == (w.ok && s.now <= s.flush.requests[w.request.value].deadline))
      && (w.pc != Pop(Export) && w.pc != Req(FlushExporter) && w.pc != Idle(IdleDone) && !w.pc.Req? ==> w'.ok == w.ok)
      && (w'.pc.Req? <==> w.pc.Req? || w.pc == Idle(IdleDone))
      && (w'.pc == Req(StoreOk) <==> w.pc == Req(FlushExporter) || (w.pc == Idle(IdleDone) && !c.hasExporter))
      && (w'.pc == Req(ReleaseDone) <==> w.pc == Req(StoreOk))
  {
  }

  lemma RequestsStep(c: Config, s: State, choice: Choice, f: CallId)
    requires WorkEnabled(c, s, choice) && f in s.flush.requests
    ensures var r, r', w := s.flush.requests[f], WorkerStep(c, s, choice).flush.requests[f], s.worker;
      && (w.request != Some(f) ==> r' == r)
      && (w.request == Some(f) && w.pc == Idle(IdleDone) ==> r' == r.(drainedAt := Some(s.now)))
      && (w.request == Some(f) && w.pc == Req(StoreOk) ==> r' == r.(ok := w.ok, stores := r.stores + 1))
      && (w.request == Some(f) && w.pc != Idle(IdleDone) && !w.pc.Req? ==> r' == r)
      && (w.request == Some(f) && w.pc == Req(FlushExporter) ==> r' == r)
      && r'.ok == (if w.request == Some(f) && w.pc == Req(StoreOk) then w.ok else r.ok)
      && r'.deadline == r.deadline && r'.gaveUp == r.gaveUp
      && r'.drainedAt == (if w.request == Some(f) && w.pc == Idle(IdleDone) then Some(s.now) else r.drainedAt)
  {
  }

  lemma JudgedWorker(c: Config, s: State, choice: Choice, f: CallId)
    requires ControlInv(c, s) && RequestInv(s) && WorkEnabled(c, s, choice) && f in s.flush.requests && Judged(c, s, f)
    ensures f in WorkerStep(c, s, choice).flush.requests && Judged(c, WorkerStep(c, s, choice), f)
  {
    var t, w := WorkerStep(c, s, choice), s.worker;
    RequestsStep(c, s, choice, f);
    WorkerLog(c, s, choice);
    var e := Logged(w, choice);
    if e.Some? {
      LogGrows(s.log, e.value, 0, Some(f));
    }
    assert RequestState(s, f);
    if w.request.Some? {
      HandStep(c, s, choice);
    }
  }

  lemma JudgedFlusher(c: Config, s: State, g: CallId, accept: bool, f: CallId)
    requires RequestInv(s) && g in s.flush.callers && FlushEnabled(s, g, accept)
    requires FlushAnswers(c, s) && f in FlusherStep(s, g, accept).flush.requests
    ensures Judged(c, FlusherStep(s, g, accept), f)
  {
    var t := FlusherStep(s, g, accept);
    assert t.log == s.log && t.worker == s.worker;
    if f in s.flush.requests {
      assert Judged(c, s, f) && RequestState(s, f);
      assert f in t.flush.queue <==> f in s.flush.queue;
      assert t.flush.requests[f] ==
             s.flush.requests[f].(donePermits := t.flush.requests[f].donePermits, gaveUp := t.flush.requests[f].gaveUp);
    } else {
      assert f in t.flush.queue;
    }
  }

  lemma JudgedElse(c: Config, s: State, a: Step, f: CallId)
    requires Enabled(c, s, a) && !a.Work? && !a.Flush? && f in s.flush.requests && Judged(c, s, f)
    ensures f in Do(c, s, a).flush.requests && Judged(c, Do(c, s, a), f)
  {
    var t := Do(c, s, a);
    if a.Stop? && s.stop.callers[a.stop].pc.StopCallExporter? {
      LogGrows(s.log, ShutdownCall(a.ok, a.stop), 0, Some(f));
    } else {
      assert t.log == s.log;
    }
  }

  lemma HeardFlusher(c: Config, s: State, g: CallId, accept: bool)
    requires RequestInv(s) && FlushAnswers(c, s) && g in s.flush.callers && FlushEnabled(s, g, accept)
    requires g in FlusherStep(s, g, accept).flush.requests
    ensures Heard(FlusherStep(s, g, accept), g)
  {
    if g in s.flush.requests {
      assert RequestState(s, g) && Answered(s, g) && Heard(s, g);
    }
  }

  lemma HeardWorker(c: Config, s: State, choice: Choice, f: CallId)
    requires ControlInv(c, s) && RequestInv(s) && WorkEnabled(c, s, choice)
    requires f in s.flush.requests && f in s.flush.callers && Heard(s, f)
    ensures Heard(WorkerStep(c, s, choice), f)
  {
    RequestsStep(c, s, choice, f);
    assert RequestState(s, f) && Answered(s, f);
  }

  lemma TagsStep(c: Config, s: State, a: Step)
    requires ControlInv(c, s) && RequestInv(s) && Enabled(c, s, a) && TagsKnown(s.log, s.flush.requests)
    ensures TagsKnown(Do(c, s, a).log, Do(c, s, a).flush.requests)
  {
    match a
    case Work(choice) => WorkerLog(c, s, choice);
    case _ =>
  }

  lemma FlushAnswersStep(c: Config, s: State, a: Step)
    requires ControlInv(c, s) && RequestInv(s) && Enabled(c, s, a) && FlushAnswers(c, s)
    ensures FlushAnswers(c, Do(c, s, a))
  {
    var t := Do(c, s, a);
    TagsStep(c, s, a);
    forall f | f in t.flush.requests
      ensures Judged(c, t, f)
    {
      match a
      case Work(choice) => JudgedWorker(c, s, choice, f);
      case Flush(g, accept) => JudgedFlusher(c, s, g, accept, f);
      case _ => JudgedElse(c, s, a, f);
    }
    forall f | f in t.flush.requests && f in t.flush.callers
      ensures Heard(t, f)
    {
      match a
      case Work(choice) => HeardWorker(c, s, choice, f);
      case Flush(g, accept) =>
        if f == g {
          HeardFlusher(c, s, g, accept);
        } else {
          assert Heard(s, f);
        }
      case _ => assert f in s.flush.callers && Heard(s, f);
    }
  }

  // ---------------------------------------------------------------- preservation: shutdown calls

  lemma ShutdownLogGrows(log: seq<ExporterCall>, e: ExporterCall, x: CallId)
    ensures OwnShutdownOk(log + [e], x) <==>
      OwnShutdownOk(log, x) && (e.ShutdownCall? && e.caller == x ==> e.success)
    ensures NoOwnShutdown(log + [e], x) <==> NoOwnShutdown(log, x) && (e.ShutdownCall? ==> e.caller != x)
    ensures NoOwnShutdown(log, x) ==> OwnShutdownOk(log, x)
  {
    var later := log + [e];
    assert later[|log|] == e && forall i :: 0 <= i < |log| ==> later[i] == log[i];
  }

  lemma StopJudgedOwn(c: Config, s: State, x: CallId, ok: bool)
    requires Enabled(c, s, Stop(x, ok)) && ControlInv(c, s) && JoinInv(s) && StopJudged(c, s, x)
    ensures StopJudged(c, StopperStep(c, s, x, ok), x)
  {
    ShutdownLogGrows(s.log, ShutdownCall(ok, x), x);
  }

  lemma StopJudgedOther(c: Config, s: State, y: CallId, ok: bool, x: CallId)
    requires Enabled(c, s, Stop(y, ok)) && x in s.stop.callers && x != y && StopJudged(c, s, x)
    ensures StopJudged(c, StopperStep(c, s, y, ok), x)
  {
    ShutdownLogGrows(s.log, ShutdownCall(ok, y), x);
  }

  lemma StopJudgedWorker(c: Config, s: State, choice: Choice, x: CallId)
    requires WorkEnabled(c, s, choice) && ControlInv(c, s) && x in s.stop.callers && StopJudged(c, s, x)
    ensures StopJudged(c, WorkerStep(c, s, choice), x)
  {
    WorkerLog(c, s, choice);
    var e := Logged(s.worker, choice);
    if e.Some? {
      ShutdownLogGrows(s.log, e.value, x);
    }
  }

  lemma StopJudgedStep(c: Config, s: State, a: Step, x: CallId)
    requires Enabled(c, s, a) && ControlInv(c, s) && JoinInv(s) && StopAnswers(c, s)
    requires x in Do(c, s, a).stop.callers
    ensures StopJudged(c, Do(c, s, a), x)
  {
    match a
    case Work(choice) => StopJudgedWorker(c, s, choice, x);
    case Stop(y, ok) => if x == y { StopJudgedOwn(c, s, x, ok); } else { StopJudgedOther(c, s, y, ok, x); }
    case CallShutdown(y, _) =>
      if x != y {
        assert StopJudged(c, s, x);
      }
    case _ => assert StopJudged(c, s, x);
  }

  lemma ShutdownMadeStop(c: Config, s: State, y: CallId, ok: bool)
    requires Enabled(c, s, Stop(y, ok)) && (s.stop.exporterShutdown ==> ShutdownMade(s))
    ensures StopperStep(c, s, y, ok).stop.exporterShutdown ==> ShutdownMade(StopperStep(c, s, y, ok))
  {
    var t := StopperStep(c, s, y, ok);
    if s.stop.callers[y].pc.StopCallExporter? {
      assert t.log[|s.log|].ShutdownCall?;
    } else if s.stop.exporterShutdown {
      if x :| CallsExporter(s, x) {
        assert CallsExporter(t, x);
      }
    } else if t.stop.exporterShutdown {
      assert CallsExporter(t, y);
    }
  }

  lemma ShutdownMadeStep(c: Config, s: State, a: Step)
    requires Enabled(c, s, a) && (s.stop.exporterShutdown ==> ShutdownMade(s))
    ensures Do(c, s, a).stop.exporterShutdown ==> ShutdownMade(Do(c, s, a))
  {
    match a
    case Stop(y, ok) => ShutdownMadeStop(c, s, y, ok);
    case Work(choice) =>
      WorkerLog(c, s, choice);
      assert forall x :: CallsExporter(s, x) ==> CallsExporter(Do(c, s, a), x);
      assert forall i :: 0 <= i < |s.log| ==> Do(c, s, a).log[i] == s.log[i];
    case _ =>
      assert forall x :: CallsExporter(s, x) ==> CallsExporter(Do(c, s, a), x);
  }

  lemma CallersKnownStep(c: Config, s: State, a: Step)
    requires Enabled(c, s, a) && CallersKnown(s.log, s.stop.callers)
    ensures CallersKnown(Do(c, s, a).log, Do(c, s, a).stop.callers)
  {
    match a
    case Work(choice) => WorkerLog(c, s, choice);
    case _ =>
  }

  // ---------------------------------------------------------------- preservation: the verdict of the shutdown drain

  /** What the worker's variables do to its verdict. */
  lemma VerdictVariables(c: Config, s: State, choice: Choice)
    requires ControlInv(c, s) && WorkEnabled(c, s, choice)
    ensures var w, w' := s.worker, NextWorker(c, s, choice);
      && (StartsShutdownDrain(s) ==> w'.ok && w'.round == ShutdownDrain && w'.pc == Idle(IdleClock))
      && (w'.round == ShutdownDrain && !w'.pc.Head? && !StartsShutdownDrain(s) ==>
            w.round == ShutdownDrain && !w.pc.Head?
            && w'.ok == (if w.pc == Pop(Export) then choice.flag && w.ok else w.ok))
      && ((w'.round == Second || w'.round == Third) && !w'.pc.Head? ==>
            && !w.pc.Head?
            && (w.round == ShutdownDrain ==> w.pc == Idle(IdleDone) && w'.shutdownOk == w.ok)
            && (w.round != ShutdownDrain ==>
                  && (w.round == Second || w.round == Third)
                  && w'.shutdownOk == (if w.pc == Close(FinalFlush) then choice.flag && w.shutdownOk else w.shutdownOk)))
  {
  }

  /** Which calls of the worker count for its own verdict. */
  lemma VerdictCalls(c: Config, s: State, choice: Choice)
    requires ControlInv(c, s) && WorkEnabled(c, s, choice)
    ensures var w, e := s.worker, Logged(s.worker, choice);
      && (w.round == ShutdownDrain && !w.pc.Head? && e.Some? ==> w.pc == Pop(Export) && MadeFor(e.value, None))
      && ((w.round == Second || w.round == Third) && !w.pc.Head? && e.Some? ==>
            (MadeFor(e.value, None) <==> w.pc == Close(FinalFlush)))
      && (StartsShutdownDrain(s) || w.pc == Close(StoreDrainOk) || w.pc == Close(StoreStopped) || w.pc == Exited ==> e.None?)
  {
  }

  lemma DrainJudgedWorker(c: Config, s: State, choice: Choice)
    requires ControlInv(c, s) && WorkEnabled(c, s, choice) && DrainJudged(c, s)
    ensures DrainJudged(c, WorkerStep(c, s, choice))
  {
    VerdictVariables(c, s, choice);
    VerdictCalls(c, s, choice);
    WorkerLog(c, s, choice);
    var e := Logged(s.worker, choice);
    if e.Some? {
      LogGrows(s.log, e.value, s.drainStart, None);
    }
  }

  lemma DrainJudgedStep(c: Config, s: State, a: Step)
    requires ControlInv(c, s) && Enabled(c, s, a) && DrainJudged(c, s)
    ensures DrainJudged(c, Do(c, s, a))
  {
    match a
    case Work(choice) => DrainJudgedWorker(c, s, choice);
    case Stop(x, ok) => LogGrows(s.log, ShutdownCall(ok, x), s.drainStart, None);
    case _ =>
  }

  lemma StopAnswersStep(c: Config, s: State, a: Step)
    requires Enabled(c, s, a) && ControlInv(c, s) && JoinInv(s) && StopAnswers(c, s)
    ensures StopAnswers(c, Do(c, s, a))
  {
    CallersKnownStep(c, s, a);
    ShutdownMadeStep(c, s, a);
    DrainJudgedStep(c, s, a);
    forall x | x in Do(c, s, a).stop.callers
      ensures StopJudged(c, Do(c, s, a), x)
    {
      StopJudgedStep(c, s, a, x);
    }
  }

  // ---------------------------------------------------------------- over runs

  lemma AnswerStep(c: Config, s: State, a: Step)
    requires Inv(c, s) && Enabled(c, s, a) && AnswerInv(c, s)
    ensures AnswerInv(c, Do(c, s, a))
  {
    FlushAnswersStep(c, s, a);
    StopAnswersStep(c, s, a);
  }

  lemma {:induction false} AnswerRun(c: Config, s: State, steps: seq<Step>)
    requires Inv(c, s) && AnswerInv(c, s) && Runs(c, s, steps)
    ensures AnswerInv(c, After(c, s, steps))
    decreases |steps|
  {
    if steps != [] {
      InvStep(c, s, steps[0]);
      AnswerStep(c, s, steps[0]);
      AnswerRun(c, Do(c, s, steps[0]), steps[1..]);
    }
  }

  lemma ReachableAnswers(c: Config, s: State)
    requires Reachable(c, s)
    ensures AnswerInv(Normalize(c), s)
  {
    var start, steps :| Runs(Normalize(c), Init(start), steps) && After(Normalize(c), Init(start), steps) == s;
    InitInv(Normalize(c), start);
    AnswerRun(Normalize(c), Init(start), steps);
  }

  // ---------------------------------------------------------------- forceFlush

  /**
   The answer of a forceFlush that went through its request: true if and only if its wait did not time out, every batch
   and the exporter flush made for it succeeded, and its drain ended before its deadline.
   */
  lemma FlushAnswer(c: Config, s: State, f: CallId)
    requires Reachable(c, s)
    requires f in s.flush.callers && s.flush.callers[f].FlushReturned? && s.flush.callers[f].viaRequest
    ensures f in s.flush.requests
    ensures var r := s.flush.requests[f];
      && (s.flush.callers[f].result <==> !r.gaveUp && CallsOk(s.log, 0, Some(f)) && InTime(r))
      && (!r.gaveUp ==> r.releases == 1 && (c.hasExporter ==> FlushMade(s.log, 0, Some(f))))
  {
    ReachableInv(c, s);
    ReachableAnswers(c, s);
    assert Heard(s, f) && Judged(Normalize(c), s, f) && RequestState(s, f);
  }

  /** An answer once stored stays. */
  lemma StoredKept(c: Config, s: State, a: Step, f: CallId)
    requires RequestInv(s) && Enabled(c, s, a) && f in s.flush.requests && s.flush.requests[f].releases == 1
    ensures f in Do(c, s, a).flush.requests && Do(c, s, a).flush.requests[f].ok == s.flush.requests[f].ok
    ensures Do(c, s, a).flush.requests[f].releases == 1
  {
    assert RequestState(s, f);
    if a.Work? {
      RequestsStep(c, s, a.choice, f);
    }
  }

  lemma ReadOkStep(c: Config, s: State, a: Step, f: CallId)
    requires RequestInv(s) && Enabled(c, s, a) && f in s.flush.callers && s.flush.callers[f].FlushReadOk?
    ensures f in s.flush.requests && f in Do(c, s, a).flush.callers
    ensures Do(c, s, a).flush.callers[f]
         == if a.Flush? && a.flush == f then FlushReturned(s.flush.requests[f].ok, true) else FlushReadOk
  {
    assert Answered(s, f);
    match a
    case Flush(_, _) =>
    case _ =>
  }

  /** A caller that has acquired done returns the value stored for it, whatever happens in between. */
  lemma {:induction false} StoredAnswerReturned(c: Config, s: State, f: CallId, steps: seq<Step>)
    requires Inv(c, s) && Runs(c, s, steps) && f in s.flush.callers && s.flush.callers[f].FlushReadOk?
    ensures f in s.flush.requests
    ensures var t := After(c, s, steps);
      f in t.flush.callers
      && (t.flush.callers[f].FlushReadOk? || t.flush.callers[f] == FlushReturned(s.flush.requests[f].ok, true))
    decreases |steps|
  {
    assert Answered(s, f);
    if steps != [] {
      var a := steps[0];
      InvStep(c, s, a);
      StoredKept(c, s, a, f);
      ReadOkStep(c, s, a, f);
      if a.Flush? && a.flush == f {
        BatchOutcomes.ReturnedKept(c, Do(c, s, a), f, steps[1..]);
      } else {
        StoredAnswerReturned(c, Do(c, s, a), f, steps[1..]);
      }
    }
  }

  // ---------------------------------------------------------------- shutdown

  lemma StopDeadlineStep(c: Config, s: State, x: CallId, a: Step)
    requires Enabled(c, s, a) && x in s.stop.callers
    ensures x in Do(c, s, a).stop.callers && Do(c, s, a).stop.callers[x].deadline == s.stop.callers[x].deadline
  {
    match a
    case Stop(y, _) => assert x != y ==> Do(c, s, a).stop.callers[x] == s.stop.callers[x];
    case _ =>
  }

  lemma {:induction false} StopDeadlineKept(c: Config, s: State, x: CallId, steps: seq<Step>)
    requires Runs(c, s, steps) && x in s.stop.callers
    ensures x in After(c, s, steps).stop.callers
    ensures After(c, s, steps).stop.callers[x].deadline == s.stop.callers[x].deadline
    decreases |steps|
  {
    if steps != [] {
      StopDeadlineStep(c, s, x, steps[0]);
      StopDeadlineKept(c, Do(c, s, steps[0]), x, steps[1..]);
    }
  }

  /**
   The answer of a shutdown call: true if and only if it joined the worker or saw it stopped, every batch of the
   worker's last shutdown drain and the flush after it succeeded, so did the exporter.shutdown it made itself, and the
   clock it read last was at most its timeout after the call.
   */
  lemma ShutdownAnswer(c: Config, s: State, x: CallId, timeout: int, steps: seq<Step>)
    requires Reachable(c, s) && x !in s.stop.callers
    requires Runs(Normalize(c), Do(Normalize(c), s, CallShutdown(x, timeout)), steps)
    ensures var t := After(Normalize(c), Do(Normalize(c), s, CallShutdown(x, timeout)), steps);
      && x in t.stop.callers
      && (t.stop.callers[x].pc.StopReturned? ==>
            && t.stop.callers[x].endedAt.Some?
            && (t.stop.callers[x].ok <==>
                  && Waited(t.stop.callers[x])
                  && CallsOk(t.log, t.drainStart, None)
                  && OwnShutdownOk(t.log, x)
                  && t.stop.callers[x].endedAt.value <= s.now + timeout)
            && (Waited(t.stop.callers[x]) ==> t.stop.workerStopped)
            && (Waited(t.stop.callers[x]) && c.hasExporter ==> FlushMade(t.log, t.drainStart, None))
            && (c.hasExporter ==> ShutdownMade(t)))
  {
    var d := Normalize(c);
    var u := Do(d, s, CallShutdown(x, timeout));
    ReachableInv(c, s);
    ReachableAnswers(c, s);
    InvStep(d, s, CallShutdown(x, timeout));
    AnswerStep(d, s, CallShutdown(x, timeout));
    StopDeadlineKept(d, u, x, steps);
    InvRun(d, u, steps);
    AnswerRun(d, u, steps);
    assert StopJudged(d, After(d, u, steps), x);
  }
}
