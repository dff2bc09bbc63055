/** Two runs that show where the promises of the batch span processor end. */
module BatchLimits {
  import opened Wrappers
  import opened BatchProtocol
  import opened BatchWakeup
  import opened BatchTermination

  /** t can be reached from s. */
  ghost predicate Leads(c: Config, s: State, t: State) {
    exists steps: seq<Step> :: Runs(c, s, steps) && After(c, s, steps) == t
  }

  /** One more step. */
  lemma Then(c: Config, s: State, t: State, a: Step, u: State)
    requires Leads(c, s, t) && Enabled(c, t, a) && Do(c, t, a) == u
    ensures Leads(c, s, u)
  {
    var steps: seq<Step> :| Runs(c, s, steps) && After(c, s, steps) == t;
    assert Runs(c, t, [a]) && After(c, t, [a]) == u by {
      RunsCons(c, t, a, []);
      assert [a] + [] == [a];
    }
    RunsAppend(c, s, steps, [a]);
  }

  lemma Begin(c: Config, s: State)
    ensures Leads(c, s, s)
  {
    assert Runs(c, s, []) && After(c, s, []) == s;
  }

  // ---------------------------------------------------------------- a lost kOnEnd wakeup

  /** No exporter, batches of one, room for one span. */
  function OnEndConfig(): Config {
    Config(1, 1, 1, OnEnd, false)
  }

  /** A forceFlush call with timeout 0 before its request is queued. */
  function Flushing(caller: Flusher): State {
    Init(0).(flush := FlushSide(1, {}, map[], map[0 := caller]))
  }

  function Fresh(): Request {
    Request(0, false, 0, 0, 0, {}, false, None)
  }

  /** Its request, with deadline 0, is queued. */
  function Asked(caller: Flusher, active: int, signal: Signal): State {
    Init(0).(flush := FlushSide(active, {0}, map[0 := Fresh()], map[0 := caller]), signal := signal)
  }

  lemma FlushEnters()
    ensures Leads(OnEndConfig(), Init(0), Flushing(FlushCreate(0)))
  {
    var c, s := OnEndConfig(), Init(0);
    Begin(c, s);
    Then(c, s, s, CallForceFlush(0, 0), Flushing(FlushCheckShutdown(0)));
    Then(c, s, Flushing(FlushCheckShutdown(0)), Flush(0, true), Flushing(FlushCheckStopped(0)));
    Then(c, s, Flushing(FlushCheckStopped(0)), Flush(0, true), Flushing(FlushCreate(0)));
  }

  lemma FlushAsks()
    ensures Leads(OnEndConfig(), Init(0), Asked(FlushRecheck(Queued), 0, Signal(false, 0)))
  {
    var c, s := OnEndConfig(), Init(0);
    FlushEnters();
    Then(c, s, Flushing(FlushCreate(0)), Flush(0, true), Flushing(FlushEnqueue(0)));
    assert AcceptedSpans(map[]) == {};
    Then(c, s, Flushing(FlushEnqueue(0)), Flush(0, true), Asked(FlushLeave(Queued), 1, Signal(false, 0)));
    Then(c, s, Asked(FlushLeave(Queued), 1, Signal(false, 0)), Flush(0, true),
         Asked(FlushRecheck(Queued), 0, Signal(false, 0)));
  }

  lemma FlushSignals()
    ensures Leads(OnEndConfig(), Init(0), Asked(FlushAwait, 0, Signal(true, 1)))
  {
    var c, s := OnEndConfig(), Init(0);
    FlushAsks();
    Then(c, s, Asked(FlushRecheck(Queued), 0, Signal(false, 0)), Flush(0, true), Asked(FlushSet, 0, Signal(false, 0)));
    Then(c, s, Asked(FlushSet, 0, Signal(false, 0)), Flush(0, true), Asked(FlushPost, 0, Signal(true, 0)));
    Then(c, s, Asked(FlushPost, 0, Signal(true, 0)), Flush(0, true), Asked(FlushAwait, 0, Signal(true, 1)));
  }

  /** The request is announced; span 1 is being pushed. */
  function Pushing(caller: Producer, queue: set<SpanId>): State {
    Asked(FlushAwait, 0, Signal(true, 1)).(spans := SpanSide(1, queue, map[1 := caller], 0))
  }

  lemma SpanPushed()
    ensures Leads(OnEndConfig(), Init(0), Pushing(Notify(Accepted), {1}))
  {
    var c, s := OnEndConfig(), Init(0);
    FlushSignals();
    Then(c, s, Asked(FlushAwait, 0, Signal(true, 1)), CallOnEnd(1, true), Pushing(CheckClosed(0), {}));
    Then(c, s, Pushing(CheckClosed(0), {}), Produce(1, true), Pushing(Enqueue(0), {}));
    Then(c, s, Pushing(Enqueue(0), {}), Produce(1, true), Pushing(Notify(Accepted), {1}));
  }

  /** The push has returned without a permit of its own, and the deadline has passed. */
  function Working(pc: WorkerPc, signal: Signal): State {
    var s := Pushing(Returned(Accepted), {1});
    s.(now := 1, signal := signal, worker := s.worker.(pc := pc))
  }

  lemma WorkerWakes()
    ensures Leads(OnEndConfig(), Init(0), Working(Head(HeadClear), Signal(true, 0)))
  {
    var c, s := OnEndConfig(), Init(0);
    SpanPushed();
    var returned := Pushing(Returned(Accepted), {1});
    Then(c, s, Pushing(Notify(Accepted), {1}), Produce(1, true), returned);
    Then(c, s, returned, Tick(1), Working(Head(HeadWait), Signal(true, 1)));
    Then(c, s, Working(Head(HeadWait), Signal(true, 1)), Work(Choice(true, {}, 0)),
         Working(Head(HeadClear), Signal(true, 0)));
  }

  lemma WorkerTakes()
    ensures Leads(OnEndConfig(), Init(0), Working(Req(TakeRequest), Signal(false, 0)))
  {
    var c, s := OnEndConfig(), Init(0);
    WorkerWakes();
    var go := Work(Choice(true, {}, 0));
    Then(c, s, Working(Head(HeadClear), Signal(true, 0)), go, Working(Head(LoadShutdown), Signal(false, 0)));
    Then(c, s, Working(Head(LoadShutdown), Signal(false, 0)), go, Working(Req(TakeRequest), Signal(false, 0)));
  }

  /** The request after its drain, which ended at time 1. */
  function Answer(permits: int, stores: int, releases: int): Request {
    Request(0, false, permits, stores, releases, {}, false, Some(1))
  }

  /** The request is being answered; its drain ended before the first pop. */
  function Answering(pc: WorkerPc, ok: bool, request: Request, cut: bool): State {
    var s := Working(pc, Signal(false, 0));
    s.(flush := FlushSide(0, {}, map[0 := request], map[0 := FlushAwait]),
       worker := s.worker.(request := Some(0), partial := true, ok := ok), drainCutShort := cut)
  }

  lemma WorkerGivesUp()
    ensures Leads(OnEndConfig(), Init(0), Answering(Idle(IdleDone), true, Fresh(), true))
  {
    var c, s := OnEndConfig(), Init(0);
    WorkerTakes();
    var go, r := Work(Choice(true, {}, 0)), Fresh();
    Then(c, s, Working(Req(TakeRequest), Signal(false, 0)), go, Answering(Idle(IdleClock), true, r, false));
    Then(c, s, Answering(Idle(IdleClock), true, r, false), go, Answering(Idle(IdleDone), true, r, true));
  }

  lemma WorkerAnswers()
    ensures Leads(OnEndConfig(), Init(0), Answering(Req(ReleaseDone), false, Answer(0, 1, 0), true))
  {
    var c, s := OnEndConfig(), Init(0);
    WorkerGivesUp();
    var go, r := Work(Choice(true, {}, 0)), Fresh();
    Then(c, s, Answering(Idle(IdleDone), true, r, true), go, Answering(Req(StoreOk), false, Answer(0, 0, 0), true));
    Then(c, s, Answering(Req(StoreOk), false, Answer(0, 0, 0), true), go,
         Answering(Req(ReleaseDone), false, Answer(0, 1, 0), true));
  }

  /** The worker is back at its wait. */
  function Asleep(): State {
    var s := Answering(Head(HeadWait), true, Answer(1, 1, 1), true);
    s.(worker := s.worker.(request := None, completedAny := true))
  }

  function Released(): State {
    var s := Answering(Req(TakeRequest), false, Answer(1, 1, 1), true);
    s.(worker := s.worker.(request := None, completedAny := true))
  }

  lemma WorkerReleases()
    ensures Leads(OnEndConfig(), Init(0), Released())
  {
    var c, s := OnEndConfig(), Init(0);
    WorkerAnswers();
    var go := Work(Choice(true, {}, 0));
    Then(c, s, Answering(Req(ReleaseDone), false, Answer(0, 1, 0), true), go, Released());
  }

  lemma WorkerSleeps()
    ensures Leads(OnEndConfig(), Init(0), Asleep())
  {
    var c, s := OnEndConfig(), Init(0);
    WorkerReleases();
    Then(c, s, Released(), Work(Choice(true, {}, 0)), Asleep());
  }

  /**
   * In kOnEnd mode a flush whose deadline has passed can swallow the wakeup of a span: the span is accepted and
   * its notify has returned, the worker waits, and no permit is there or coming.
   */
  lemma ExpiredFlushLosesWakeup() returns (s: State, p: SpanId)
    ensures Reachable(OnEndConfig(), s) && s.drainCutShort
    ensures p in s.spans.queue && p in s.spans.callers && s.spans.callers[p] == Returned(Accepted)
    ensures s.worker.pc == Head(HeadWait) && s.signal.permits == 0 && !PermitComing(s)
  {
    WorkerSleeps();
    s, p := Asleep(), 1;
    assert Normalize(OnEndConfig()) == OnEndConfig();
    var steps: seq<Step> :| Runs(OnEndConfig(), Init(0), steps) && After(OnEndConfig(), Init(0), steps) == s;
  }

  // ---------------------------------------------------------------- an export after the exporter's shutdown

  /** An exporter, batches of one, room for one span, no wakeups. */
  function TimedConfig(): Config {
    Config(1, 1, 1, Timed, true)
  }

  /** Span 1 is being pushed, or queued, with nothing else going on. */
  function Lone(caller: Producer, queue: set<SpanId>): State {
    Init(0).(spans := SpanSide(1, queue, map[1 := caller], 0))
  }

  lemma SpanQueued()
    ensures Leads(TimedConfig(), Init(0), Lone(Returned(Accepted), {1}))
  {
    var c, s := TimedConfig(), Init(0);
    Begin(c, s);
    Then(c, s, s, CallOnEnd(1, true), Lone(CheckClosed(0), {}));
    Then(c, s, Lone(CheckClosed(0), {}), Produce(1, true), Lone(Enqueue(0), {}));
    Then(c, s, Lone(Enqueue(0), {}), Produce(1, true), Lone(Returned(Accepted), {1}));
  }

  /** Span 1 is queued and shutdown calls with timeout 0 are running. */
  function Closing(signal: Signal, stop: StopSide): State {
    Lone(Returned(Accepted), {1}).(signal := signal, stop := stop)
  }

  /** Call 0, on its way to joining. */
  function OneCall(pc: StopPc, requested: bool): StopSide {
    StopSide(requested, false, pc == StopJoin, false, true, map[0 := Stopper(pc, 0, true, pc == StopJoin, false, None)], false)
  }

  lemma FirstRequests()
    ensures Leads(TimedConfig(), Init(0), Closing(Signal(false, 0), OneCall(StopSet, true)))
  {
    var c, s := TimedConfig(), Init(0);
    SpanQueued();
    Then(c, s, Lone(Returned(Accepted), {1}), CallShutdown(0, 0), Closing(Signal(false, 0), OneCall(StopStoreFlag, false)));
    Then(c, s, Closing(Signal(false, 0), OneCall(StopStoreFlag, false)), Stop(0, true),
         Closing(Signal(false, 0), OneCall(StopSet, true)));
  }

  lemma FirstSignals()
    ensures Leads(TimedConfig(), Init(0), Closing(Signal(true, 0), OneCall(StopPost, true)))
  {
    var c, s := TimedConfig(), Init(0);
    FirstRequests();
    Then(c, s, Closing(Signal(false, 0), OneCall(StopSet, true)), Stop(0, true),
         Closing(Signal(true, 0), OneCall(StopPost, true)));
  }

  lemma FirstJoins()
    ensures Leads(TimedConfig(), Init(0), Closing(Signal(true, 1), OneCall(StopJoin, true)))
  {
    var c, s := TimedConfig(), Init(0);
    FirstSignals();
    Then(c, s, Closing(Signal(true, 0), OneCall(StopPost, true)), Stop(0, true),
         Closing(Signal(true, 1), OneCall(StopClaimJoin, true)));
    Then(c, s, Closing(Signal(true, 1), OneCall(StopClaimJoin, true)), Stop(0, true),
         Closing(Signal(true, 1), OneCall(StopJoin, true)));
  }

  /** Call 0 joins and call 2 has come after it. */
  function TwoCalls(pc: StopPc, ok: bool, exporter: bool, expired: bool): StopSide {
    StopSide(true, false, true, exporter, true,
             map[0 := Stopper(StopJoin, 0, true, true, false, None), 2 := Stopper(pc, 0, ok, false, false, None)], expired)
  }

  /** Call 2 before its deadline has passed. */
  function Early(pc: StopPc, permits: int): State {
    Closing(Signal(true, permits), TwoCalls(pc, true, false, false))
  }

  lemma SecondRequests()
    ensures Leads(TimedConfig(), Init(0), Early(StopSet, 1))
  {
    var c, s := TimedConfig(), Init(0);
    FirstJoins();
    Then(c, s, Closing(Signal(true, 1), OneCall(StopJoin, true)), CallShutdown(2, 0), Early(StopStoreFlag, 1));
    Then(c, s, Early(StopStoreFlag, 1), Stop(2, true), Early(StopSet, 1));
  }

  lemma SecondCalls()
    ensures Leads(TimedConfig(), Init(0), Early(StopClaimJoin, 2))
  {
    var c, s := TimedConfig(), Init(0);
    SecondRequests();
    Then(c, s, Early(StopSet, 1), Stop(2, true), Early(StopPost, 1));
    Then(c, s, Early(StopPost, 1), Stop(2, true), Early(StopClaimJoin, 2));
  }

  /** Call 2 after its deadline. */
  function Late(pc: StopPc, ok: bool, exporter: bool, expired: bool): State {
    Closing(Signal(true, 2), TwoCalls(pc, ok, exporter, expired)).(now := 1)
  }

  lemma SecondGivesUp()
    ensures Leads(TimedConfig(), Init(0), Late(StopReadStopped, true, false, true))
  {
    var c, s := TimedConfig(), Init(0);
    SecondCalls();
    Then(c, s, Early(StopClaimJoin, 2), Stop(2, true), Early(StopPoll, 2));
    Then(c, s, Early(StopPoll, 2), Stop(2, true), Early(StopPollClock, 2));
    Then(c, s, Early(StopPollClock, 2), Tick(1), Late(StopPollClock, true, false, false));
    Then(c, s, Late(StopPollClock, true, false, false), Stop(2, true), Late(StopReadStopped, true, false, true));
  }

  /** The exporter has been shut down; the worker has yet to look. */
  function Down(pc: WorkerPc, round: Round, saw: bool, elapsed: bool): State {
    var s := Late(StopFinalClock, false, true, true);
    s.(log := [ShutdownCall(true, 2)],
       worker := s.worker.(pc := pc, round := round, sawShutdown := saw, elapsed := elapsed))
  }

  lemma SecondShutsExporter()
    ensures Leads(TimedConfig(), Init(0), Down(Head(HeadWait), First, false, false))
  {
    var c, s := TimedConfig(), Init(0);
    SecondGivesUp();
    Then(c, s, Late(StopReadStopped, true, false, true), Stop(2, true), Late(StopReadDrainOk, false, false, true));
    Then(c, s, Late(StopReadDrainOk, false, false, true), Stop(2, true), Late(StopClaimExporter, false, false, true));
    Then(c, s, Late(StopClaimExporter, false, false, true), Stop(2, true), Late(StopCallExporter, false, true, true));
    Then(c, s, Late(StopCallExporter, false, true, true), Stop(2, true), Down(Head(HeadWait), First, false, false));
  }

  /** The worker drains for shutdown. */
  function Draining(pc: WorkerPc): State {
    var s := Down(pc, ShutdownDrain, true, true);
    s.(worker := s.worker.(partial := true), drainStart := 1)
  }

  lemma WorkerLooks()
    ensures Leads(TimedConfig(), Init(0), Draining(Idle(IdleClock)))
  {
    var c, s := TimedConfig(), Init(0);
    SecondShutsExporter();
    var go := Work(Choice(false, {}, 0));
    Then(c, s, Down(Head(HeadWait), First, false, false), go, Down(Head(LoadShutdown), First, false, true));
    Then(c, s, Down(Head(LoadShutdown), First, false, true), go, Down(Req(TakeRequest), First, true, true));
    Then(c, s, Down(Req(TakeRequest), First, true, true), go, Draining(Idle(IdleClock)));
  }

  function Popped(pc: WorkerPc, size: int): State {
    var s := Draining(pc);
    s.(spans := SpanSide(size, {}, map[1 := Returned(Accepted)], 0), worker := s.worker.(batch := {1}))
  }

  lemma WorkerDrains()
    ensures Leads(TimedConfig(), Init(0), Draining(Pop(PopDequeue)))
  {
    var c, s := TimedConfig(), Init(0);
    WorkerLooks();
    var go := Work(Choice(false, {1}, 0));
    Then(c, s, Draining(Idle(IdleClock)), go, Draining(Pop(PopLoad)));
    Then(c, s, Draining(Pop(PopLoad)), go, Draining(Pop(PopDequeue)));
  }

  lemma WorkerPops()
    ensures Leads(TimedConfig(), Init(0), Popped(Pop(PopCount), 1))
  {
    WorkerDrains();
    Then(TimedConfig(), Init(0), Draining(Pop(PopDequeue)), Work(Choice(false, {1}, 0)), Popped(Pop(PopCount), 1));
  }

  lemma WorkerCounts()
    ensures Leads(TimedConfig(), Init(0), Popped(Pop(Export), 0))
  {
    WorkerPops();
    Then(TimedConfig(), Init(0), Popped(Pop(PopCount), 1), Work(Choice(false, {}, 0)), Popped(Pop(Export), 0));
  }

  /**
   * A second shutdown call that gives up waiting shuts the exporter down under a worker that still exports: the
   * span's batch comes after exporter.shutdown.
   */
  lemma ExpiredPollExportsLate() returns (s: State)
    ensures Reachable(TimedConfig(), s) && s.stop.pollExpired
    ensures s.log == [ShutdownCall(true, 2), Batch({1}, true, None)]
  {
    var c := TimedConfig();
    WorkerCounts();
    s := Do(c, Popped(Pop(Export), 0), Work(Choice(true, {}, 0)));
    Then(c, Init(0), Popped(Pop(Export), 0), Work(Choice(true, {}, 0)), s);
    assert Normalize(c) == c;
    var steps: seq<Step> :| Runs(c, Init(0), steps) && After(c, Init(0), steps) == s;
  }
}
