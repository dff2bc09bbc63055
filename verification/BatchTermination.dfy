/** Shutdown terminates: once callers are out of the way, the worker stops within a computable number of its steps. */
module BatchTermination {
  import opened MapCount
  import opened BatchProtocol
  import opened BatchControl
  import opened BatchTheorems

  /** Shutdown was requested, no onEnd call holds a slot and no forceFlush call is inside the gate. */
  ghost predicate Quiet(s: State) {
    && s.stop.shutdownRequested
    && (forall p :: p in s.spans.callers ==> !HoldsSlot(s.spans.callers[p]))
    && (forall f :: f in s.flush.callers ==> !Inside(s.flush.callers[f]))
  }

  /** Steps left in a drain, counted from its end; a non-empty span queue sends it round once more. */
  function DrainRank(pc: WorkerPc, nonEmpty: bool): nat {
    match pc
    case Idle(IdleDone) => 0
    case Idle(IdleEmpty) => if nonEmpty then 6 else 1
    case Pop(PopDequeue) => if nonEmpty then 1 else 2
    case Pop(PopLoad) => 2
    case Idle(IdleClock) => 3
    case Pop(Export) => 3
    case Idle(IdleClear) => 4
    case Pop(PopCount) => 4
    case Idle(IdleWait) => 5
    case _ => 0
  }

  function ReadyRank(pc: WorkerPc): nat {
    match pc
    case Pop(PopDequeue) => 1
    case Pop(PopLoad) => 2
    case Drain(ReadyPartial) => 3
    case Drain(ReadyFull) => 4
    case Drain(CheckReady) => 5
    case Pop(Export) => 5
    case Pop(PopCount) => 6
    case _ => 0
  }

  /** Where the TakeRequest of a round stands on the way from the loop head (48) to Exited (0). */
  function RoundRank(r: Round): nat {
    match r
    case Third => 4
    case Second => 17
    case _ => 35
  }

  function Rank(w: Worker, nonEmpty: bool): nat {
    match w.pc
    case Exited => 0
    case Close(StoreStopped) => 1
    case Close(StoreDrainOk) => 2
    case Close(FinalFlush) => 3
    case Close(LoadEmpty) => 15
    case Close(LoadActive) => 16
    case Head(HeadWait) => 48
    case Head(HeadClear) => 47
    case Head(LoadShutdown) => 46
    case Req(TakeRequest) => RoundRank(w.round)
    case Req(ReleaseDone) => RoundRank(w.round) + 1
    case Req(StoreOk) => RoundRank(w.round) + 2
    case Req(FlushExporter) => RoundRank(w.round) + 3
    case Drain(_) => ReadyRank(w.pc)
    case _ =>
      if w.round == Ready then ReadyRank(w.pc)
      else if w.round == ShutdownDrain then 28 + DrainRank(w.pc, nonEmpty)
      else RoundRank(w.round) + 4 + DrainRank(w.pc, nonEmpty)
  }

  /** The worker may have to come back to the loop head once more. */
  predicate Returns(w: Worker, nonEmpty: bool) {
    && !w.pc.Head? && !w.pc.Exited?
    && match w.round
       case Ready => true
       case First => w.completedAny || w.request.Some? || !w.sawShutdown
       case ShutdownDrain => w.pc == Idle(IdleDone) && nonEmpty
       case Second => nonEmpty
       case Third => w.completedAny || w.request.Some?
  }

  /** Falls with every worker step; a completed request and an exported span pay for the way back. */
  function StepsLeft(s: State): nat {
    var nonEmpty := s.spans.queue != {};
    200 * |s.flush.queue| + 10 * |s.spans.queue| + (if Returns(s.worker, nonEmpty) then 100 else 0)
    + Rank(s.worker, nonEmpty)
  }

  /** What the measure needs to know about a state. */
  ghost predicate Measured(c: Config, s: State) {
    && s.stop.shutdownRequested && s.flush.active == 0
    && s.spans.size == |s.spans.queue| + |Uncounted(s.worker)|
    && WellPlaced(s.worker) && (s.worker.round == Second && !s.worker.pc.Head? ==> s.worker.sawShutdown)
    && (s.worker.round == Third && !s.worker.pc.Head? ==> s.spans.queue == {})
    && Normal(c)
  }

  lemma QuietMeasured(c: Config, s: State)
    requires Inv(c, s) && Quiet(s)
    ensures Measured(c, s)
  {
    WhereNone(s.spans.callers, HoldsSlot);
    WhereNone(s.flush.callers, Inside);
    assert forall p :: p in s.spans.callers ==> !HoldsSlot(s.spans.callers[p]);
    assert forall f :: f in s.flush.callers ==> !Inside(s.flush.callers[f]);
  }

  lemma Shrinks(c: Config, s: State, choice: Choice)
    requires WorkEnabled(c, s, choice)
    ensures var t := WorkerStep(c, s, choice);
      && |t.flush.queue| == |s.flush.queue| - (if s.worker.pc == Req(TakeRequest) && s.flush.queue != {} then 1 else 0)
      && |t.spans.queue| == |s.spans.queue| - (if s.worker.pc == Pop(PopDequeue) then |choice.spans| else 0)
  {
    if s.worker.pc == Pop(PopDequeue) {
      assert s.spans.queue == (s.spans.queue - choice.spans) + choice.spans;
      assert |s.spans.queue| == |s.spans.queue - choice.spans| + |choice.spans|;
    }
  }

  lemma HeadDecreases(c: Config, s: State, choice: Choice)
    requires Measured(c, s) && WorkEnabled(c, s, choice) && s.worker.pc.Head?
    ensures StepsLeft(WorkerStep(c, s, choice)) < StepsLeft(s)
  {
    Shrinks(c, s, choice);
  }

  lemma RequestDecreases(c: Config, s: State, choice: Choice)
    requires Measured(c, s) && WorkEnabled(c, s, choice) && s.worker.pc.Req?
    ensures StepsLeft(WorkerStep(c, s, choice)) < StepsLeft(s)
  {
    Shrinks(c, s, choice);
    if s.worker.pc == Req(TakeRequest) {
      TakeDecreases(c, s, choice);
    }
  }

  lemma TakeDecreases(c: Config, s: State, choice: Choice)
    requires Measured(c, s) && WorkEnabled(c, s, choice) && s.worker.pc == Req(TakeRequest)
    ensures StepsLeft(WorkerStep(c, s, choice)) < StepsLeft(s)
  {
    Shrinks(c, s, choice);
  }

  lemma IdleDecreases(c: Config, s: State, choice: Choice)
    requires Measured(c, s) && WorkEnabled(c, s, choice) && s.worker.pc.Idle?
    ensures StepsLeft(WorkerStep(c, s, choice)) < StepsLeft(s)
  {
    Shrinks(c, s, choice);
  }

  lemma PopDecreases(c: Config, s: State, choice: Choice)
    requires Measured(c, s) && WorkEnabled(c, s, choice) && s.worker.pc.Pop?
    ensures StepsLeft(WorkerStep(c, s, choice)) < StepsLeft(s)
  {
    Shrinks(c, s, choice);
  }

  lemma CloseDecreases(c: Config, s: State, choice: Choice)
    requires Measured(c, s) && WorkEnabled(c, s, choice) && s.worker.pc.Close?
    ensures StepsLeft(WorkerStep(c, s, choice)) < StepsLeft(s)
  {
    Shrinks(c, s, choice);
  }

  lemma ReadyDecreases(c: Config, s: State, choice: Choice)
    requires Measured(c, s) && WorkEnabled(c, s, choice) && s.worker.pc.Drain?
    ensures StepsLeft(WorkerStep(c, s, choice)) < StepsLeft(s)
  {
    Shrinks(c, s, choice);
  }

  lemma StepDecreases(c: Config, s: State, choice: Choice)
    requires Inv(c, s) && Quiet(s) && WorkEnabled(c, s, choice)
    ensures StepsLeft(WorkerStep(c, s, choice)) < StepsLeft(s) && Quiet(WorkerStep(c, s, choice))
  {
    QuietMeasured(c, s);
    match s.worker.pc
    case Head(_) => HeadDecreases(c, s, choice);
    case Req(_) => RequestDecreases(c, s, choice);
    case Idle(_) => IdleDecreases(c, s, choice);
    case Pop(_) => PopDecreases(c, s, choice);
    case Close(_) => CloseDecreases(c, s, choice);
    case Drain(_) => ReadyDecreases(c, s, choice);
  }

  /** The steps of a run of the worker alone. */
  function Works(choices: seq<Choice>): seq<Step> {
    seq(|choices|, i requires 0 <= i < |choices| => Work(choices[i]))
  }

  lemma WorksCons(choice: Choice, rest: seq<Choice>)
    ensures Works([choice] + rest) == [Work(choice)] + Works(rest)
  {
  }

  lemma RunsCons(c: Config, s: State, a: Step, steps: seq<Step>)
    requires Enabled(c, s, a) && Runs(c, Do(c, s, a), steps)
    ensures Runs(c, s, [a] + steps) && After(c, s, [a] + steps) == After(c, Do(c, s, a), steps)
  {
    assert ([a] + steps)[1..] == steps;
  }

  /** Callers that are past their slot or the gate leave the worker, both queues and the quiet alone. */
  lemma OthersKeepQuiet(c: Config, s: State, a: Step)
    requires Quiet(s) && Enabled(c, s, a) && !a.Work? && !a.CallOnEnd? && !a.CallForceFlush?
    ensures Quiet(Do(c, s, a)) && StepsLeft(Do(c, s, a)) == StepsLeft(s)
  {
    match a
    case Produce(p, _) => assert !HoldsSlot(s.spans.callers[p]);
    case Flush(f, _) => assert !Inside(s.flush.callers[f]);
    case _ =>
  }

  predicate NoNewCalls(steps: seq<Step>) {
    forall i :: 0 <= i < |steps| ==> !steps[i].CallOnEnd? && !steps[i].CallForceFlush?
  }

  function WorkSteps(steps: seq<Step>): nat {
    if steps == [] then 0 else (if steps[0].Work? then 1 else 0) + WorkSteps(steps[1..])
  }

  /**
   * In every run from a quiet state without new onEnd and forceFlush calls, however the clock, notifies, waiting
   * flush callers and shutdown callers interleave, the worker takes at most StepsLeft steps.
   */
  lemma {:induction false} WorkerRunsAreBounded(c: Config, s: State, steps: seq<Step>)
    requires Inv(c, s) && Quiet(s) && Runs(c, s, steps) && NoNewCalls(steps)
    ensures WorkSteps(steps) + StepsLeft(After(c, s, steps)) <= StepsLeft(s)
    ensures Inv(c, After(c, s, steps)) && Quiet(After(c, s, steps))
    decreases |steps|
  {
    if steps != [] {
      var a := steps[0];
      InvStep(c, s, a);
      if a.Work? {
        StepDecreases(c, s, a.choice);
      } else {
        OthersKeepQuiet(c, s, a);
      }
      assert NoNewCalls(steps[1..]);
      WorkerRunsAreBounded(c, Do(c, s, a), steps[1..]);
    }
  }

  /** Until it has stopped the worker can always take a step, without help from any caller. */
  lemma WorkerNeverBlocks(c: Config, s: State) returns (choice: Choice)
    requires Inv(c, s) && s.worker.pc != Exited
    ensures WorkEnabled(c, s, choice)
  {
    var span := AnyOr(s.spans.queue, 0);
    choice := Choice(s.worker.pc == Pop(Export), if s.spans.queue == {} then {} else {span}, AnyOr(s.flush.queue, 0));
  }

  /** Shutdown terminates: from a quiet state the worker alone reaches Exited. */
  lemma {:induction false} ShutdownTerminates(c: Config, s: State) returns (choices: seq<Choice>)
    requires Inv(c, s) && Quiet(s)
    ensures Runs(c, s, Works(choices)) && After(c, s, Works(choices)).stop.workerStopped
    ensures |choices| <= StepsLeft(s)
    decreases StepsLeft(s)
  {
    if s.worker.pc == Exited {
      choices := [];
    } else {
      var choice := WorkerNeverBlocks(c, s);
      InvStep(c, s, Work(choice));
      StepDecreases(c, s, choice);
      var rest := ShutdownTerminates(c, WorkerStep(c, s, choice));
      choices := [choice] + rest;
      WorksCons(choice, rest);
      RunsCons(c, s, Work(choice), Works(rest));
    }
  }

  // ---------------------------------------------------------------- calls in progress settle

  predicate ChecksClosed(p: Producer) {
    p.CheckClosed?
  }

  predicate NotLeaving(f: Flusher) {
    Inside(f) && !f.FlushLeave?
  }

  predicate NotEnqueuing(f: Flusher) {
    f.FlushCheckStopped? || f.FlushCreate?
  }

  predicate ChecksStopped(f: Flusher) {
    f.FlushCheckStopped?
  }

  /** Steps until no onEnd call holds a slot. */
  function SlotSteps(m: map<SpanId, Producer>): nat {
    |Where(m, HoldsSlot)| + |Where(m, ChecksClosed)|
  }

  /** Steps until no forceFlush call is inside the gate. */
  function GateSteps(m: map<CallId, Flusher>): nat {
    |Where(m, Inside)| + |Where(m, NotLeaving)| + |Where(m, NotEnqueuing)| + |Where(m, ChecksStopped)|
  }

  lemma SlotStep(c: Config, s: State, p: SpanId)
    requires s.stop.shutdownRequested && p in s.spans.callers && HoldsSlot(s.spans.callers[p])
    ensures SlotSteps(ProducerStep(c, s, p, true).spans.callers) < SlotSteps(s.spans.callers)
  {
    var q := NextProducer(c, s, s.spans.callers[p], true);
    WhereUpdate(s.spans.callers, HoldsSlot, p, q);
    WhereUpdate(s.spans.callers, ChecksClosed, p, q);
  }

  function GateRank(f: Flusher): nat {
    match f
    case FlushCheckShutdown(_) => 2
    case FlushCheckStopped(_) => 4
    case FlushCreate(_) => 3
    case FlushEnqueue(_) => 2
    case FlushLeave(_) => 1
    case _ => 0
  }

  lemma GateUpdate(m: map<CallId, Flusher>, f: CallId, g: Flusher)
    requires f in m
    ensures GateSteps(m[f := g]) == GateSteps(m) - GateRank(m[f]) + GateRank(g)
  {
    WhereUpdate(m, Inside, f, g);
    WhereUpdate(m, NotLeaving, f, g);
    WhereUpdate(m, NotEnqueuing, f, g);
    WhereUpdate(m, ChecksStopped, f, g);
  }

  lemma GateStepsFall(s: State, f: CallId)
    requires s.stop.shutdownRequested && f in s.flush.callers && Inside(s.flush.callers[f])
    ensures FlushEnabled(s, f, true)
    ensures GateSteps(FlusherStep(s, f, true).flush.callers) < GateSteps(s.flush.callers)
  {
    GateUpdate(s.flush.callers, f, NextFlusher(s, f, true));
  }

  /** Steps until the state is quiet. */
  function Unsettled(s: State): nat {
    SlotSteps(s.spans.callers) + GateSteps(s.flush.callers)
  }

  /** Steps of the worker and of onEnd and forceFlush calls in progress. */
  predicate Unattended(steps: seq<Step>) {
    forall i :: 0 <= i < |steps| ==> steps[i].Produce? || steps[i].Flush? || steps[i].Work?
  }

  /** After a shutdown request, the calls in progress can always get out of the way. */
  lemma {:induction false} CallsSettle(c: Config, s: State) returns (steps: seq<Step>)
    requires Inv(c, s) && s.stop.shutdownRequested
    ensures Runs(c, s, steps) && Unattended(steps)
    ensures Inv(c, After(c, s, steps)) && Quiet(After(c, s, steps))
    decreases Unsettled(s), 1
  {
    if p :| p in s.spans.callers && HoldsSlot(s.spans.callers[p]) {
      SlotStep(c, s, p);
      steps := SettleFrom(c, s, Produce(p, true));
    } else if f :| f in s.flush.callers && Inside(s.flush.callers[f]) {
      GateStepsFall(s, f);
      steps := SettleFrom(c, s, Flush(f, true));
    } else {
      steps := [];
    }
  }

  lemma CallersLeaveStop(c: Config, s: State, a: Step)
    requires Enabled(c, s, a) && (a.Produce? || a.Flush?)
    ensures Do(c, s, a).stop == s.stop
  {
    match a
    case Produce(_, _) =>
    case Flush(_, _) =>
  }

  lemma UnattendedCons(a: Step, rest: seq<Step>)
    requires (a.Produce? || a.Flush? || a.Work?) && Unattended(rest)
    ensures Unattended([a] + rest)
  {
  }

  lemma {:induction false} SettleFrom(c: Config, s: State, a: Step) returns (steps: seq<Step>)
    requires Inv(c, s) && s.stop.shutdownRequested && Enabled(c, s, a) && (a.Produce? || a.Flush?)
    requires Unsettled(Do(c, s, a)) < Unsettled(s)
    ensures Runs(c, s, steps) && Unattended(steps)
    ensures Inv(c, After(c, s, steps)) && Quiet(After(c, s, steps))
    decreases Unsettled(s), 0
  {
    InvStep(c, s, a);
    CallersLeaveStop(c, s, a);
    var rest := CallsSettle(c, Do(c, s, a));
    steps := [a] + rest;
    RunsCons(c, s, a, rest);
    UnattendedCons(a, rest);
  }

  lemma {:induction false} RunsAppend(c: Config, s: State, first: seq<Step>, second: seq<Step>)
    requires Runs(c, s, first) && Runs(c, After(c, s, first), second)
    ensures Runs(c, s, first + second) && After(c, s, first + second) == After(c, After(c, s, first), second)
    decreases |first|
  {
    if first == [] {
      assert first + second == second;
    } else {
      RunsAppend(c, Do(c, s, first[0]), first[1..], second);
      assert (first + second)[1..] == first[1..] + second;
    }
  }

  /** From every state with shutdown requested, the calls in progress and the worker can bring the worker to its stop. */
  lemma StopStaysPossible(c: Config, s: State) returns (steps: seq<Step>)
    requires Inv(c, s) && s.stop.shutdownRequested
    ensures Runs(c, s, steps) && Unattended(steps) && After(c, s, steps).stop.workerStopped
  {
    var settle := CallsSettle(c, s);
    var choices := ShutdownTerminates(c, After(c, s, settle));
    RunsAppend(c, s, settle, Works(choices));
    steps := settle + Works(choices);
  }
}
