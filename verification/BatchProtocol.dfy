/**
 The batch span processor of galay-tracing/kernel/batch_span_processor.cc as a step system.

 Any number of `onEnd`, `forceFlush` and `shutdown` calls run against one worker thread.
 Every call has its own identity and its own program counter; one `Step` is one atomic
 operation (or one clock read, one queue operation, one exporter call) of one of them, and
 steps interleave in any order.  Assumptions: atomics are sequentially consistent, the clock
 never goes backwards, a timed wait may time out at any moment, and a bulk pop of a non-empty
 queue returns between one and the requested number of elements, in no particular order.
 */
module BatchProtocol {
  import opened Wrappers
  import opened MapCount

  type SpanId = int  // identifies an onEnd call and the span it carries
  type CallId = int  // identifies a forceFlush or a shutdown call

  datatype ScheduleMode = Timed | OnEnd | BatchSize

  datatype Config = Config(
    queueCapacity: nat,
    maxBatchSize: nat,
    flushInterval: int,
    mode: ScheduleMode,
    hasExporter: bool)

  function Normalize(c: Config): (r: Config)
    ensures Normal(r)
    ensures r.mode == c.mode && r.hasExporter == c.hasExporter
    ensures Normal(c) ==> r == c
  {
    var capacity := if c.queueCapacity < 1 then 1 else c.queueCapacity;
    var batch := if c.maxBatchSize < 1 then 1 else if capacity < c.maxBatchSize then capacity else c.maxBatchSize;
    var interval := if c.flushInterval <= 0 then 1 else c.flushInterval;
    Config(capacity, batch, interval, c.mode, c.hasExporter)
  }

  function Distance(a: int, b: int): nat {
    if a < b then b - a else a - b
  }

  /** Normalising moves each number to the nearest one allowed: no normal configuration is closer in any of them. */
  lemma NormalizeNearest(c: Config, other: Config)
    requires Normal(other)
    ensures Distance(c.queueCapacity, Normalize(c).queueCapacity) <= Distance(c.queueCapacity, other.queueCapacity)
    ensures Distance(c.flushInterval, Normalize(c).flushInterval) <= Distance(c.flushInterval, other.flushInterval)
    ensures other.queueCapacity <= Normalize(c).queueCapacity ==>
      Distance(c.maxBatchSize, Normalize(c).maxBatchSize) <= Distance(c.maxBatchSize, other.maxBatchSize)
  {
  }

  predicate Normal(c: Config) {
    1 <= c.maxBatchSize <= c.queueCapacity && 1 <= c.flushInterval
  }

  // ---------------------------------------------------------------- onEnd callers

  datatype PushOutcome = Unsampled | Full | Closed | Accepted

  /** Next operation of an onEnd call. */
  datatype Producer =
    | CheckClosed(previous: int)       // slot reserved, load shutdownRequested
    | Enqueue(previous: int)           // spans.enqueue
    | UndoFull(admitted: bool)         // size.fetch_sub before kFull; admitted: the enqueue itself failed
    | UndoClosed                       // size.fetch_sub before kClosed
    | CountDrop                        // m_droppedSpans.fetch_add
    | Notify(outcome: PushOutcome)     // signalPending.exchange(true)
    | NotifyPost(outcome: PushOutcome) // signal.release
    | Returned(outcome: PushOutcome)

  /** The call still owns one unit of `size` of its own. */
  predicate HoldsSlot(p: Producer) {
    p.CheckClosed? || p.Enqueue? || p.UndoFull? || p.UndoClosed?
  }

  /** The call owns a unit of `size` that it obtained below capacity. */
  predicate Admitted(p: Producer) {
    p.CheckClosed? || p.Enqueue? || p.UndoClosed? || (p.UndoFull? && p.admitted)
  }

  predicate HasAccepted(p: Producer) {
    (p.Notify? || p.NotifyPost? || p.Returned?) && p.outcome == Accepted
  }

  predicate DroppedFull(p: Producer) {
    p == Returned(Full)
  }

  // ---------------------------------------------------------------- forceFlush callers

  datatype FlushExit = Early | Rejected | Queued

  /** Next operation of a forceFlush call. */
  datatype Flusher =
    | FlushCheckShutdown(timeout: nat)
    | FlushCheckStopped(timeout: nat)
    | FlushCreate(timeout: nat)          // construct the request, reading the clock
    | FlushEnqueue(deadline: int)        // flushRequests.enqueue
    | FlushLeave(exit: FlushExit)        // activeFlushCallers.fetch_sub
    | FlushRecheck(exit: FlushExit)      // was the last one out: load shutdownRequested
    | FlushLastSet(exit: FlushExit)      // forceNotify of the last one out, first half
    | FlushLastPost(exit: FlushExit)     // ... second half
    | FlushReadEmpty                     // return m_queue->empty()
    | FlushSet                           // forceNotify, first half
    | FlushPost                          // ... second half
    | FlushAwait                         // done.try_acquire_until(deadline)
    | FlushReadOk                        // request->ok.load
    | FlushReturned(result: bool, viaRequest: bool)

  /** Between the fetch_add and the fetch_sub of activeFlushCallers. */
  predicate Inside(f: Flusher) {
    f.FlushCheckShutdown? || f.FlushCheckStopped? || f.FlushCreate? || f.FlushEnqueue? || f.FlushLeave?
  }

  /** Past the shutdown check, so it may still enqueue a request. */
  predicate MayEnqueue(f: Flusher) {
    f.FlushCheckStopped? || f.FlushCreate? || f.FlushEnqueue?
  }

  /** The call has put a request into the request queue. */
  predicate HasRequest(f: Flusher) {
    || ((f.FlushLeave? || f.FlushRecheck? || f.FlushLastSet? || f.FlushLastPost?) && f.exit == Queued)
    || f.FlushSet? || f.FlushPost? || HasNotified(f)
  }

  /** The call has put a request into the request queue and has run forceNotify for it. */
  predicate HasNotified(f: Flusher) {
    f.FlushAwait? || f.FlushReadOk? || (f.FlushReturned? && f.viaRequest)
  }

  /**
   A FlushRequest.  History: writes of `ok`, releases of `done`, the spans accepted when it was enqueued, whether its
   caller's wait timed out, and the clock at the end of its drain.
   */
  datatype Request = Request(
    deadline: int, ok: bool, donePermits: int, stores: int, releases: int, before: set<SpanId>,
    gaveUp: bool, drainedAt: Option<int>)

  // ---------------------------------------------------------------- shutdown callers

  /** Next operation of a shutdown call. */
  datatype StopPc =
    | StopStoreFlag       // shutdownRequested.store(true)
    | StopSet             // forceNotify, first half
    | StopPost            // ... second half
    | StopClaimJoin       // joinClaimed.exchange(true)
    | StopJoin            // m_worker.join()
    | StopPoll            // load workerStopped
    | StopPollClock       // read the clock against the deadline
    | StopReadStopped     // load workerStopped after the loop
    | StopReadDrainOk     // load shutdownDrainOk
    | StopClaimExporter   // exporterShutdown.exchange(true)
    | StopCallExporter    // m_exporter->shutdown
    | StopFinalClock      // read the clock for the result
    | StopReturned

  /** History: whether the call claimed the join, what it read from workerStopped, and the clock it read last. */
  datatype Stopper = Stopper(
    pc: StopPc, deadline: int, ok: bool, joiner: bool, sawStopped: bool, endedAt: Option<int>)

  /** The call has stopped waiting for the worker. */
  predicate PastWait(x: StopPc) {
    || x.StopReadStopped? || x.StopReadDrainOk? || x.StopClaimExporter? || x.StopCallExporter?
    || x.StopFinalClock? || x.StopReturned?
  }

  // ---------------------------------------------------------------- the worker

  /** waitFor(flush_interval), which acquires and then clears signalPending; the shutdown load (lines 348-349). */
  datatype HeadOp = HeadWait | HeadClear | LoadShutdown

  /** completeFlushRequests and completeFlushRequest without the drain (lines 327-345). */
  datatype RequestOp = TakeRequest | FlushExporter | StoreOk | ReleaseDone

  /** drainUntilIdle without the pops (lines 305-325). */
  datatype IdleOp = IdleClock | IdleEmpty | IdleWait | IdleClear | IdleDone

  /** tryPopBulk followed by exportBatch (lines 89-99, 387-399). */
  datatype PopOp = PopLoad | PopDequeue | PopCount | Export

  /** The condition that ends the loop and what follows it (lines 359-368, 380). */
  datatype CloseOp = LoadActive | LoadEmpty | FinalFlush | StoreDrainOk | StoreStopped

  /** Line 373 and the guard of drainReadyBatches (lines 286-287). */
  datatype DrainOp = CheckReady | ReadyFull | ReadyPartial

  /** Next operation of workerLoop. */
  datatype WorkerPc =
    | Head(head: HeadOp)
    | Req(req: RequestOp)
    | Idle(idle: IdleOp)
    | Pop(pop: PopOp)
    | Close(close: CloseOp)
    | Drain(drain: DrainOp)
    | Exited

  /** Which part of the loop body is running: the call site of the lambda in progress. */
  datatype Round = First | ShutdownDrain | Second | Third | Ready

  datatype Worker = Worker(
    pc: WorkerPc,
    round: Round,
    request: Option<CallId>,  // the request being completed
    elapsed: bool,            // intervalElapsed
    sawShutdown: bool,        // local shutdownRequested
    partial: bool,            // drainPartial
    completedAny: bool,
    exportedAny: bool,
    ok: bool,
    shutdownOk: bool,
    batch: set<SpanId>)

  // ---------------------------------------------------------------- global state

  /** History of exporter calls; `Batch` is one exportBatch of a non-empty batch. */
  datatype ExporterCall =
    | Batch(spans: set<SpanId>, success: bool, forRequest: Option<CallId>)
    | FlushCall(success: bool, forRequest: Option<CallId>)
    | ShutdownCall(success: bool, caller: CallId)

  /** SpanQueue, the onEnd calls in progress and m_droppedSpans. */
  datatype SpanSide = SpanSide(size: int, queue: set<SpanId>, callers: map<SpanId, Producer>, dropped: int)

  /** signalPending and the counting semaphore. */
  datatype Signal = Signal(pending: bool, permits: int)

  /** activeFlushCallers, the request queue, every request made so far and the forceFlush calls. */
  datatype FlushSide = FlushSide(
    active: int, queue: set<CallId>, requests: map<CallId, Request>, callers: map<CallId, Flusher>)

  /** The one-shot flags and the shutdown calls; pollExpired is history. */
  datatype StopSide = StopSide(
    shutdownRequested: bool,
    workerStopped: bool,
    joinClaimed: bool,
    exporterShutdown: bool,
    shutdownDrainOk: bool,
    callers: map<CallId, Stopper>,
    pollExpired: bool)    // some shutdown call gave up polling before the worker stopped

  /** log, exported, drainCutShort and drainStart are history. */
  datatype State = State(
    spans: SpanSide,
    signal: Signal,
    flush: FlushSide,
    stop: StopSide,
    worker: Worker,
    now: int,
    log: seq<ExporterCall>,
    exported: set<SpanId>,  // every span passed to exportBatch so far
    drainCutShort: bool,  // a flush deadline ended a drain with spans left, and no read has found the queue empty since
    drainStart: nat)  // length of the log when the last shutdown drain began

  function Init(now: int): State {
    State(SpanSide(0, {}, map[], 0), Signal(false, 0), FlushSide(0, {}, map[], map[]),
          StopSide(false, false, false, false, true, map[], false),
          Worker(Head(HeadWait), First, None, false, false, false, false, false, true, true, {}), now, [], {}, false, 0)
  }

  /** Spans popped but not yet exported. */
  function Held(w: Worker): set<SpanId> {
    if w.pc == Pop(PopCount) || w.pc == Pop(Export) then w.batch else {}
  }

  /** Spans popped but not yet subtracted from `size`. */
  function Uncounted(w: Worker): set<SpanId> {
    if w.pc == Pop(PopCount) then w.batch else {}
  }

  // ---------------------------------------------------------------- steps

  /** What the environment decides for a worker step. */
  datatype Choice = Choice(flag: bool, spans: set<SpanId>, request: CallId)

  datatype Step =
    | Tick(delta: nat)
    | CallOnEnd(span: SpanId, sampled: bool)
    | Produce(span: SpanId, accept: bool)
    | CallForceFlush(flush: CallId, timeout: int)
    | Flush(flush: CallId, accept: bool)
    | CallShutdown(stop: CallId, timeout: int)
    | Stop(stop: CallId, ok: bool)
    | Work(choice: Choice)

  predicate Enabled(c: Config, s: State, a: Step) {
    match a
    case Tick(_) => true
    case CallOnEnd(p, _) => p !in s.spans.callers
    case Produce(p, _) => p in s.spans.callers && !s.spans.callers[p].Returned?
    case CallForceFlush(f, _) => f !in s.flush.callers
    case Flush(f, accept) => f in s.flush.callers && FlushEnabled(s, f, accept)
    case CallShutdown(x, _) => x !in s.stop.callers
    case Stop(x, _) =>
      && x in s.stop.callers && !s.stop.callers[x].pc.StopReturned?
      && (s.stop.callers[x].pc.StopJoin? ==> s.worker.pc == Exited)
    case Work(choice) => WorkEnabled(c, s, choice)
  }

  /** The semaphore wait of forceFlush succeeds only with a permit; everything else can always move. */
  predicate FlushEnabled(s: State, f: CallId, accept: bool)
    requires f in s.flush.callers
  {
    match s.flush.callers[f]
    case FlushReturned(_, _) => false
    case FlushAwait => f in s.flush.requests && (accept ==> s.flush.requests[f].donePermits > 0)
    case FlushReadOk => f in s.flush.requests
    case _ => true
  }

  predicate WorkEnabled(c: Config, s: State, choice: Choice) {
    match s.worker.pc
    case Head(HeadWait) => choice.flag ==> s.signal.permits > 0
    case Idle(IdleWait) => choice.flag ==> s.signal.permits > 0
    case Req(TakeRequest) => s.flush.queue != {} ==> choice.request in s.flush.queue
    case Req(FlushExporter) => true
    case Req(_) => s.worker.request.Some? && s.worker.request.value in s.flush.requests
    case Pop(PopDequeue) =>
      if s.spans.queue == {} then choice.spans == {}
      else choice.spans <= s.spans.queue && 1 <= |choice.spans| <= c.maxBatchSize
    case Pop(Export) => !c.hasExporter ==> choice.flag
    case Exited => false
    case _ => true
  }

  function Do(c: Config, s: State, a: Step): State
    requires Enabled(c, s, a)
  {
    match a
    case Tick(delta) => s.(now := s.now + delta)
    case CallOnEnd(p, sampled) => BeginOnEnd(c, s, p, sampled)
    case Produce(p, accept) => ProducerStep(c, s, p, accept)
    case CallForceFlush(f, timeout) => BeginForceFlush(s, f, timeout)
    case Flush(f, accept) => FlusherStep(s, f, accept)
    case CallShutdown(x, timeout) =>
      s.(stop := s.stop.(callers := s.stop.callers[x := Stopper(StopStoreFlag, s.now + timeout, true, false, false, None)]))
    case Stop(x, ok) => StopperStep(c, s, x, ok)
    case Work(choice) => WorkerStep(c, s, choice)
  }

  // For each kind of caller, a function gives the next operation and the step function lists,
  // variable by variable, which operations write it.

  // ---- onEnd (lines 66-87, 175-207)

  /** The sampled test, then size.fetch_add of tryPush. */
  function BeginOnEnd(c: Config, s: State, p: SpanId, sampled: bool): State {
    var first :=
      if !sampled then Returned(Unsampled)
      else if s.spans.size >= c.queueCapacity then UndoFull(false)
      else CheckClosed(s.spans.size);
    s.(spans := s.spans.(size := s.spans.size + (if sampled then 1 else 0), callers := s.spans.callers[p := first]))
  }

  /** Whether an accepted push wakes the worker. */
  predicate ShouldNotify(c: Config, queuedCount: int) {
    match c.mode
    case OnEnd => true
    case BatchSize => queuedCount >= c.maxBatchSize && queuedCount - 1 < c.maxBatchSize
    case Timed => false
  }

  function NextProducer(c: Config, s: State, q: Producer, accept: bool): Producer
    requires !q.Returned?
  {
    match q
    case CheckClosed(previous) => if s.stop.shutdownRequested then UndoClosed else Enqueue(previous)
    case Enqueue(previous) =>
      if !accept then UndoFull(true)
      else if ShouldNotify(c, previous + 1) then Notify(Accepted)
      else Returned(Accepted)
    case UndoFull(_) => CountDrop
    case UndoClosed => Notify(Closed)
    case CountDrop => Returned(Full)
    case Notify(outcome) => if s.signal.pending then Returned(outcome) else NotifyPost(outcome)
    case NotifyPost(outcome) => Returned(outcome)
  }

  function ProducerStep(c: Config, s: State, p: SpanId, accept: bool): State
    requires p in s.spans.callers && !s.spans.callers[p].Returned?
  {
    var q := s.spans.callers[p];
    s.(spans := SpanSide(
         s.spans.size - (if q.UndoFull? || q.UndoClosed? then 1 else 0),
         if q.Enqueue? && accept then s.spans.queue + {p} else s.spans.queue,
         s.spans.callers[p := NextProducer(c, s, q, accept)],
         s.spans.dropped + (if q.CountDrop? then 1 else 0)),
       signal := Signal(
         s.signal.pending || q.Notify?,
         s.signal.permits + (if q.NotifyPost? then 1 else 0)))
  }

  // ---- forceFlush (lines 209-245)

  function BeginForceFlush(s: State, f: CallId, timeout: int): State {
    var first := if timeout < 0 then FlushReturned(false, false) else FlushCheckShutdown(timeout);
    s.(flush := s.flush.(active := s.flush.active + (if timeout < 0 then 0 else 1),
                         callers := s.flush.callers[f := first]))
  }

  /** Where a caller goes once it has left the gate. */
  function AfterLeave(exit: FlushExit): Flusher {
    match exit
    case Early => FlushReadEmpty
    case Rejected => FlushReturned(false, false)
    case Queued => FlushSet
  }

  function NextFlusher(s: State, f: CallId, accept: bool): Flusher
    requires f in s.flush.callers && FlushEnabled(s, f, accept)
  {
    match s.flush.callers[f]
    case FlushCheckShutdown(timeout) =>
      if s.stop.shutdownRequested then FlushLeave(Early) else FlushCheckStopped(timeout)
    case FlushCheckStopped(timeout) => if s.stop.workerStopped then FlushLeave(Early) else FlushCreate(timeout)
    case FlushCreate(timeout) => FlushEnqueue(s.now + timeout)
    case FlushEnqueue(_) => FlushLeave(if accept then Queued else Rejected)
    case FlushLeave(exit) => if s.flush.active == 1 then FlushRecheck(exit) else AfterLeave(exit)
    case FlushRecheck(exit) => if s.stop.shutdownRequested then FlushLastSet(exit) else AfterLeave(exit)
    case FlushLastSet(exit) => FlushLastPost(exit)
    case FlushLastPost(exit) => AfterLeave(exit)
    case FlushReadEmpty => FlushReturned(s.spans.size == 0, false)
    case FlushSet => FlushPost
    case FlushPost => FlushAwait
    case FlushAwait => if accept then FlushReadOk else FlushReturned(false, true)
    case FlushReadOk => FlushReturned(s.flush.requests[f].ok, true)
  }

  /** The spans accepted so far. */
  function AcceptedSpans(m: map<SpanId, Producer>): set<SpanId> {
    Where(m, HasAccepted)
  }

  function FlusherStep(s: State, f: CallId, accept: bool): State
    requires f in s.flush.callers && FlushEnabled(s, f, accept)
  {
    var g := s.flush.callers[f];
    s.(flush := FlushSide(
         s.flush.active - (if g.FlushLeave? then 1 else 0),
         if g.FlushEnqueue? && accept then s.flush.queue + {f} else s.flush.queue,
         if g.FlushEnqueue? && accept then
           s.flush.requests[f := Request(g.deadline, false, 0, 0, 0, AcceptedSpans(s.spans.callers), false, None)]
         else if g.FlushAwait? && accept then
           s.flush.requests[f := s.flush.requests[f].(donePermits := s.flush.requests[f].donePermits - 1)]
         else if g.FlushAwait? then s.flush.requests[f := s.flush.requests[f].(gaveUp := true)]
         else s.flush.requests,
         s.flush.callers[f := NextFlusher(s, f, accept)]),
       signal := Signal(
         s.signal.pending || g.FlushLastSet? || g.FlushSet?,
         s.signal.permits + (if g.FlushLastPost? || g.FlushPost? then 1 else 0)))
  }

  // ---- shutdown (lines 247-275)

  function NextStopPc(c: Config, s: State, t: Stopper): StopPc
    requires !t.pc.StopReturned?
  {
    match t.pc
    case StopStoreFlag => StopSet
    case StopSet => StopPost
    case StopPost => StopClaimJoin
    case StopClaimJoin => if s.stop.joinClaimed then StopPoll else StopJoin
    case StopJoin => StopReadDrainOk
    case StopPoll => if s.stop.workerStopped then StopReadStopped else StopPollClock
    case StopPollClock => if s.now <= t.deadline then StopPoll else StopReadStopped
    case StopReadStopped => StopReadDrainOk
    case StopReadDrainOk => if c.hasExporter then StopClaimExporter else StopFinalClock
    case StopClaimExporter => if s.stop.exporterShutdown then StopFinalClock else StopCallExporter
    case StopCallExporter => StopFinalClock
    case StopFinalClock => StopReturned
  }

  function NextStopOk(s: State, t: Stopper, ok: bool): bool {
    match t.pc
    case StopReadStopped => t.ok && s.stop.workerStopped
    case StopReadDrainOk => s.stop.shutdownDrainOk && t.ok
    case StopCallExporter => ok && t.ok
    case StopFinalClock => t.ok && s.now <= t.deadline
    case _ => t.ok
  }

  function StopperStep(c: Config, s: State, x: CallId, ok: bool): State
    requires x in s.stop.callers && !s.stop.callers[x].pc.StopReturned?
  {
    var t := s.stop.callers[x];
    s.(stop := StopSide(
         s.stop.shutdownRequested || t.pc.StopStoreFlag?,
         s.stop.workerStopped,
         s.stop.joinClaimed || t.pc.StopClaimJoin?,
         s.stop.exporterShutdown || t.pc.StopClaimExporter?,
         s.stop.shutdownDrainOk,
         s.stop.callers[x := Stopper(NextStopPc(c, s, t), t.deadline, NextStopOk(s, t, ok),
                                     t.joiner || (t.pc.StopClaimJoin? && !s.stop.joinClaimed),
                                     t.sawStopped || (t.pc.StopReadStopped? && s.stop.workerStopped),
                                     if t.pc.StopFinalClock? then Some(s.now) else t.endedAt)],
         s.stop.pollExpired || (t.pc.StopPollClock? && s.now > t.deadline && !s.stop.workerStopped)),
       signal := Signal(
         s.signal.pending || t.pc.StopSet?,
         s.signal.permits + (if t.pc.StopPost? then 1 else 0)),
       log := if t.pc.StopCallExporter? then s.log + [ShutdownCall(ok, x)] else s.log)
  }

  // ---- workerLoop (lines 281-399)

  /** The clock has passed the deadline of the drain in progress; the shutdown drain has none. */
  predicate Expired(s: State) {
    && s.worker.request.Some? && s.worker.request.value in s.flush.requests
    && s.now > s.flush.requests[s.worker.request.value].deadline
  }

  /** The worker is about to read size as zero, or to pop from an empty queue. */
  predicate FindsEmpty(s: State) {
    match s.worker.pc
    case Idle(IdleEmpty) => s.spans.size == 0
    case Pop(PopLoad) => s.spans.size == 0
    case Pop(PopDequeue) => s.spans.queue == {}
    case Close(LoadEmpty) => s.spans.size == 0
    case Drain(_) => s.spans.size == 0
    case _ => false
  }

  /** line 372 */
  predicate DrainPartial(c: Config, w: Worker) {
    w.elapsed || c.mode == OnEnd
  }

  /** Continuation of completeFlushRequests once the request queue was found empty. */
  function AfterRequests(c: Config, w: Worker): WorkerPc {
    match w.round
    case First =>
      if w.completedAny then Head(HeadWait)
      else if w.sawShutdown then Idle(IdleClock)
      else if DrainPartial(c, w) then Drain(ReadyFull)
      else Drain(CheckReady)
    case Second => Close(LoadActive)
    case _ =>
      if w.completedAny then Head(HeadWait)
      else if c.hasExporter then Close(FinalFlush)
      else Close(StoreDrainOk)
  }

  /** Continuation of a drainQueue that returned 0. */
  function AfterEmptyPop(w: Worker): WorkerPc {
    if w.round == Ready then Head(HeadWait) else Idle(IdleEmpty)
  }

  function NextHead(op: HeadOp, choice: Choice): WorkerPc {
    match op
    case HeadWait => if choice.flag then Head(HeadClear) else Head(LoadShutdown)
    case HeadClear => Head(LoadShutdown)
    case LoadShutdown => Req(TakeRequest)
  }

  function NextReq(c: Config, s: State, op: RequestOp): WorkerPc {
    match op
    case TakeRequest => if s.flush.queue == {} then AfterRequests(c, s.worker) else Idle(IdleClock)
    case FlushExporter => Req(StoreOk)
    case StoreOk => Req(ReleaseDone)
    case ReleaseDone => Req(TakeRequest)
  }

  function NextIdle(c: Config, s: State, op: IdleOp, choice: Choice): WorkerPc {
    match op
    case IdleClock => if Expired(s) then Idle(IdleDone) else Pop(PopLoad)
    case IdleEmpty =>
      if s.spans.size == 0 then Idle(IdleDone)
      else if s.worker.exportedAny then Idle(IdleClock)
      else Idle(IdleWait)
    case IdleWait => if choice.flag then Idle(IdleClear) else Idle(IdleClock)
    case IdleClear => Idle(IdleClock)
    case IdleDone =>
      if s.worker.round == ShutdownDrain then Req(TakeRequest)
      else if c.hasExporter then Req(FlushExporter)
      else Req(StoreOk)
  }

  function NextPop(c: Config, s: State, op: PopOp, choice: Choice): WorkerPc {
    match op
    case PopLoad =>
      if c.maxBatchSize == 0 || s.spans.size == 0 then AfterEmptyPop(s.worker) else Pop(PopDequeue)
    case PopDequeue => if choice.spans == {} then AfterEmptyPop(s.worker) else Pop(PopCount)
    case PopCount => Pop(Export)
    case Export => if s.worker.round == Ready then Drain(ReadyFull) else Pop(PopLoad)
  }

  function NextClose(s: State, op: CloseOp): WorkerPc {
    match op
    case LoadActive => if s.flush.active == 0 then Close(LoadEmpty) else Head(HeadWait)
    case LoadEmpty => if s.spans.size == 0 then Req(TakeRequest) else Head(HeadWait)
    case FinalFlush => Close(StoreDrainOk)
    case StoreDrainOk => Close(StoreStopped)
    case StoreStopped => Exited
  }

  function NextDrain(c: Config, s: State, op: DrainOp): WorkerPc {
    match op
    case CheckReady => if s.spans.size < c.maxBatchSize then Head(HeadWait) else Drain(ReadyFull)
    case ReadyFull =>
      if s.spans.size >= c.maxBatchSize then Pop(PopLoad)
      else if s.worker.partial then Drain(ReadyPartial)
      else Head(HeadWait)
    case ReadyPartial => if s.spans.size != 0 then Pop(PopLoad) else Head(HeadWait)
  }

  function NextPc(c: Config, s: State, choice: Choice): WorkerPc {
    match s.worker.pc
    case Head(op) => NextHead(op, choice)
    case Req(op) => NextReq(c, s, op)
    case Idle(op) => NextIdle(c, s, op, choice)
    case Pop(op) => NextPop(c, s, op, choice)
    case Close(op) => NextClose(s, op)
    case Drain(op) => NextDrain(c, s, op)
    case Exited => Exited
  }

  function NextRound(s: State): Round {
    var w := s.worker;
    match w.pc
    case Head(LoadShutdown) => First
    case Req(TakeRequest) =>
      if s.flush.queue == {} && w.round == First && !w.completedAny then
        if w.sawShutdown then ShutdownDrain else Ready
      else w.round
    case Idle(IdleDone) => if w.round == ShutdownDrain then Second else w.round
    case Close(LoadEmpty) => if s.spans.size == 0 then Third else w.round
    case _ => w.round
  }

  /** The next step begins the drain of line 357. */
  predicate StartsShutdownDrain(s: State) {
    && s.worker.pc == Req(TakeRequest) && s.flush.queue == {}
    && s.worker.round == First && !s.worker.completedAny && s.worker.sawShutdown
  }

  /** The step leads to a new call of completeFlushRequests. */
  predicate StartsRound(w: Worker) {
    w.pc == Head(LoadShutdown) || w.pc == Close(LoadEmpty) || (w.pc == Idle(IdleDone) && w.round == ShutdownDrain)
  }

  /** The local variables of the worker after a step. */
  function NextWorker(c: Config, s: State, choice: Choice): Worker {
    var w := s.worker;
    var takes := w.pc == Req(TakeRequest) && s.flush.queue != {};
    Worker(
      NextPc(c, s, choice),
      NextRound(s),
      if takes then Some(choice.request) else if w.pc == Req(ReleaseDone) then None else w.request,
      if w.pc == Head(HeadWait) then !choice.flag else w.elapsed,
      if w.pc == Head(LoadShutdown) then s.stop.shutdownRequested else w.sawShutdown,
      if w.pc == Req(TakeRequest) then DrainPartial(c, w) else w.partial,
      if w.pc == Req(ReleaseDone) then true
      else w.completedAny && !StartsRound(w),
      if w.pc == Idle(IdleClock) then false else w.exportedAny || w.pc == Pop(Export),
      if w.pc == Req(TakeRequest) then true
      else if w.pc == Pop(Export) || w.pc == Req(FlushExporter) then choice.flag && w.ok
      else if w.pc == Idle(IdleDone) then w.ok && !Expired(s)
      else w.ok,
      if w.pc == Idle(IdleDone) && w.round == ShutdownDrain then w.ok && !Expired(s)
      else if w.pc == Close(FinalFlush) then choice.flag && w.shutdownOk
      else w.shutdownOk,
      if w.pc == Pop(PopDequeue) then choice.spans else w.batch)
  }

  /** The request map after a step: ok.store, done.release, and the end of a drain for the record. */
  function NextRequests(c: Config, s: State, choice: Choice): map<CallId, Request>
    requires WorkEnabled(c, s, choice)
  {
    var w, m := s.worker, s.flush.requests;
    if w.pc == Req(StoreOk) then
      var r := m[w.request.value];
      m[w.request.value := r.(ok := w.ok, stores := r.stores + 1)]
    else if w.pc == Req(ReleaseDone) then
      var r := m[w.request.value];
      m[w.request.value := r.(donePermits := r.donePermits + 1, releases := r.releases + 1)]
    else if w.pc == Idle(IdleDone) && w.request.Some? && w.request.value in m then
      m[w.request.value := m[w.request.value].(drainedAt := Some(s.now))]
    else m
  }

  function WorkerStep(c: Config, s: State, choice: Choice): State
    requires WorkEnabled(c, s, choice)
  {
    var w := s.worker;
    State(
      s.spans.(size := s.spans.size - |Uncounted(w)|,
               queue := if w.pc == Pop(PopDequeue) then s.spans.queue - choice.spans else s.spans.queue),
      Signal(
        s.signal.pending && w.pc != Head(HeadClear) && w.pc != Idle(IdleClear),
        s.signal.permits - (if (w.pc == Head(HeadWait) || w.pc == Idle(IdleWait)) && choice.flag then 1 else 0)),
      s.flush.(queue := if w.pc == Req(TakeRequest) then s.flush.queue - {choice.request} else s.flush.queue,
               requests := NextRequests(c, s, choice)),
      s.stop.(workerStopped := s.stop.workerStopped || w.pc == Close(StoreStopped),
              shutdownDrainOk := if w.pc == Close(StoreDrainOk) then w.shutdownOk else s.stop.shutdownDrainOk),
      NextWorker(c, s, choice),
      s.now,
      if w.pc == Pop(Export) then s.log + [Batch(w.batch, choice.flag, w.request)]
      else if w.pc == Req(FlushExporter) || w.pc == Close(FinalFlush) then s.log + [FlushCall(choice.flag, w.request)]
      else s.log,
      if w.pc == Pop(Export) then s.exported + w.batch else s.exported,
      (s.drainCutShort && !FindsEmpty(s)) || (w.pc == Idle(IdleClock) && Expired(s) && s.spans.queue != {}),
      if StartsShutdownDrain(s) then |s.log| else s.drainStart)
  }

  // ---------------------------------------------------------------- runs

  /** The steps can be taken one after the other from s. */
  ghost predicate Runs(c: Config, s: State, steps: seq<Step>)
    decreases |steps|
  {
    steps == [] || (Enabled(c, s, steps[0]) && Runs(c, Do(c, s, steps[0]), steps[1..]))
  }

  ghost function After(c: Config, s: State, steps: seq<Step>): State
    requires Runs(c, s, steps)
    decreases |steps|
  {
    if steps == [] then s else After(c, Do(c, s, steps[0]), steps[1..])
  }

  /** s can occur in some run of a processor constructed with the raw configuration c. */
  ghost predicate Reachable(c: Config, s: State) {
    exists start: int, steps: seq<Step> ::
      Runs(Normalize(c), Init(start), steps) && After(Normalize(c), Init(start), steps) == s
  }
}
