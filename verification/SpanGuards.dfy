/** Spans, guards and kernel scopes of galay-tracing/kernel/span_guard.cc and adapters/kernel_context.h. */
module SpanGuards {
  import opened Wrappers
  import opened Words
  import opened Contexts
  import opened ContextStorage
  import opened Sampling

  datatype SpanKind = Internal | Server | Client | Producer | Consumer

  /** serial stands for the identity of a started span: the number of the call that started it. */
  datatype Span = Span(
    serial: nat, name: string, context: SpanContext, tracestate: string, kind: SpanKind, ended: bool)

  datatype Guard = Guard(span: Span, previous: ContextState, active: bool)

  /** The identifiers a start call draws; the generator only returns valid ones. */
  datatype FreshIds = FreshIds(trace: TraceId, span: SpanId)
  {
    predicate Valid() {
      NonZero(trace) && NonZero(span)
    }
  }

  // ---------------------------------------------------------------- contexts of new spans

  function MakeRoot(ids: FreshIds): SpanContext {
    SpanContext(ids.trace, ids.span, None, 0)
  }

  function MakeChild(parent: SpanContext, ids: FreshIds): SpanContext {
    SpanContext(parent.traceId, ids.span, Some(parent.spanId), parent.traceFlags)
  }

  /** Sets or clears the lowest flag bit by the sampler's decision. */
  function ApplySampling(context: SpanContext, parent: Option<SpanContext>, sampler: Sampler): SpanContext {
    var upper: byte := context.traceFlags - context.traceFlags % 2;
    context.(traceFlags := if ShouldSample(sampler, parent, context.traceId) then upper + 1 else upper)
  }

  /** The valid context a new span becomes a child of. */
  function ValidParent(parent: Option<SpanContext>): Option<SpanContext> {
    if parent.Some? && parent.value.IsValid() then parent else None
  }

  function NextContext(parent: Option<SpanContext>, ids: FreshIds, sampler: Sampler): SpanContext {
    match ValidParent(parent)
    case Some(p) => ApplySampling(MakeChild(p, ids), parent, sampler)
    case None => ApplySampling(MakeRoot(ids), None, sampler)
  }

  /** The thread state startSpan leaves. */
  function Started(previous: ContextState, ids: FreshIds, sampler: Sampler): ContextState {
    ContextState(Some(NextContext(previous.spanContext, ids, sampler)),
                 if previous.spanContext.Some? then previous.tracestate else "")
  }

  /** The thread state startServerSpan leaves; it does not depend on the state before. */
  function ServerStarted(parent: TraceContext, ids: FreshIds, sampler: Sampler): ContextState {
    ContextState(Some(NextContext(Some(ToSpanContext(parent)), ids, sampler)),
                 if parent.IsValid() then parent.tracestate else "")
  }

  function NewSpan(serial: nat, name: string, state: ContextState, kind: SpanKind): Span
    requires state.spanContext.Some?
  {
    Span(serial, name, state.spanContext.value, state.tracestate, kind, false)
  }

  /** The thread state after the guard's restore, which is also its destructor. */
  function AfterRestore(guard: Guard, current: ContextState): ContextState {
    if guard.active then Stored(guard.previous) else current
  }

  /** The same with the handler: if the saved state cannot be written, an active guard clears the context. */
  function AfterRestoring(guard: Guard, current: ContextState, throws: bool): ContextState {
    if guard.active && throws then Loaded(None) else AfterRestore(guard, current)
  }

  /** A sampler repeats the decision recorded in the context for its children. */
  predicate Stable(sampler: Sampler, c: SpanContext) {
    ShouldSample(sampler, Some(c), c.traceId) == c.Sampled()
  }

  lemma FlagBits(context: SpanContext, parent: Option<SpanContext>, sampler: Sampler)
    ensures var c := ApplySampling(context, parent, sampler);
      && c.Sampled() == ShouldSample(sampler, parent, context.traceId)
      && c.traceFlags / 2 == context.traceFlags / 2
      && c == context.(traceFlags := c.traceFlags)
  {
  }

  /** Every new context is valid and its decision is one its sampler repeats for its children. */
  lemma NextContextStable(parent: Option<SpanContext>, ids: FreshIds, sampler: Sampler)
    requires ids.Valid()
    ensures var c := NextContext(parent, ids, sampler); c.IsValid() && Stable(sampler, c)
  {
    var c := NextContext(parent, ids, sampler);
    var p := ValidParent(parent);
    var base := if p.Some? then MakeChild(p.value, ids) else MakeRoot(ids);
    FlagBits(base, p, sampler);
    ChildFollows(sampler, p, c);
  }

  /** A child of a context its sampler is stable on shares trace id and all eight flag bits with it. */
  lemma ChildInherits(parent: SpanContext, ids: FreshIds, sampler: Sampler)
    requires parent.IsValid() && Stable(sampler, parent)
    ensures var c := NextContext(Some(parent), ids, sampler);
      c == SpanContext(parent.traceId, ids.span, Some(parent.spanId), parent.traceFlags)
  {
    FlagBits(MakeChild(parent, ids), Some(parent), sampler);
  }

  /**
   * The context of a new span: a child of a valid parent, in its trace and with its upper seven flag bits, or the root
   * of a new trace without parent and with these bits clear. The lowest bit is the sampler's decision.
   */
  lemma NewContext(parent: Option<SpanContext>, ids: FreshIds, sampler: Sampler)
    ensures var c := NextContext(parent, ids, sampler);
      && c.spanId == ids.span
      && if parent.Some? && NonZero(parent.value.traceId) && NonZero(parent.value.spanId) then
           && c.traceId == parent.value.traceId && c.parentSpanId == Some(parent.value.spanId)
           && c.traceFlags / 2 == parent.value.traceFlags / 2
           && (c.traceFlags % 2 == 1 <==> ShouldSample(sampler, parent, parent.value.traceId))
         else
           && c.traceId == ids.trace && c.parentSpanId == None && c.traceFlags / 2 == 0
           && (c.traceFlags % 2 == 1 <==> ShouldSample(sampler, None, ids.trace))
  {
    var p := ValidParent(parent);
    FlagBits(if p.Some? then MakeChild(p.value, ids) else MakeRoot(ids), p, sampler);
  }

  /**
   * Under a parent-based sampler over any root, the span started inside a valid context, or for a valid remote parent,
   * has all eight flag bits of its parent, whatever they are.
   */
  lemma ParentFlagsKept(previous: ContextState, remote: TraceContext, ids: FreshIds, root: Sampler)
    ensures previous.spanContext.Some? && previous.spanContext.value.IsValid() ==>
      Started(previous, ids, ParentBased(root)).spanContext.value.traceFlags == previous.spanContext.value.traceFlags
    ensures remote.IsValid() ==>
      ServerStarted(remote, ids, ParentBased(root)).spanContext.value.traceFlags == remote.traceFlags
  {
    NewContext(previous.spanContext, ids, ParentBased(root));
    NewContext(Some(ToSpanContext(remote)), ids, ParentBased(root));
    if previous.spanContext.Some? && previous.spanContext.value.IsValid() {
      ParentDecides(root, previous.spanContext.value, previous.spanContext.value.traceId);
    }
    if remote.IsValid() {
      ParentDecides(root, ToSpanContext(remote), remote.traceId);
    }
  }

  // ---------------------------------------------------------------- the code

  class SpanGuard {
    var span: Span
    var previousContext: Option<SpanContext>
    var previousTracestate: string
    var active: bool

    function Value(): Guard
      reads this
    {
      Guard(span, ContextState(previousContext, previousTracestate), active)
    }

    constructor Inactive(blank: Span)
      ensures !active && span == blank
    {
      span, previousContext, previousTracestate, active := blank, None, "", false;
    }

    constructor (s: Span, previous: ContextState)
      ensures Value() == Guard(s, previous, true)
    {
      span, previousContext, previousTracestate, active := s, previous.spanContext, previous.tracestate, true;
    }

    /** Move construction: the source's strings are left with unspecified contents. */
    constructor Move(other: SpanGuard)
      modifies other
      ensures Value() == old(other.Value()) && !other.active
    {
      span, previousContext, previousTracestate, active :=
        other.span, other.previousContext, other.previousTracestate, other.active;
      new;
      other.span, other.previousTracestate := *, *;
      other.active := false;
    }

    /** Move assignment; an active target restores first. */
    method MoveAssign(other: SpanGuard, thread: ThreadContext, throws: bool)
      modifies this, other, thread
      ensures this != other ==>
        && Value() == old(other.Value()) && !other.active
        && thread.state == AfterRestoring(old(Value()), old(thread.state), throws)
      ensures this == other ==> Value() == old(Value()) && thread.state == old(thread.state)
    {
      if this != other {
        Restore(thread, throws);
        span := other.span;
        previousContext := other.previousContext;
        previousTracestate := other.previousTracestate;
        active := other.active;
        other.span, other.previousTracestate := *, *;
        other.active := false;
      }
    }

    /** Ends the span and nothing else: the thread state and the guard's activity stay. */
    method End()
      modifies this
      ensures Value() == old(Value()).(span := if old(active) then old(span).(ended := true) else old(span))
    {
      if active {
        span := span.(ended := true);
      }
    }

    /** restore, and the destructor; throws tells whether writing the saved state back runs out of memory. */
    method Restore(thread: ThreadContext, throws: bool)
      modifies this, thread
      ensures !active && thread.state == AfterRestoring(old(Value()), old(thread.state), throws)
      ensures span == if old(active) then old(span).(ended := true) else old(span)
      ensures old(thread.Valid()) ==> thread.Valid()
    {
      if !active {
        return;
      }
      End();
      if throws {
        thread.ClearCurrentContext();
      } else {
        thread.SetCurrentContextState(ContextState(previousContext, previousTracestate));
      }
      previousTracestate := *;
      active := false;
    }
  }

  method StartSpan(thread: ThreadContext, sampler: Sampler, serial: nat, name: string, ids: FreshIds)
    returns (guard: SpanGuard)
    modifies thread
    ensures fresh(guard) && thread.Valid()
    ensures thread.state == Started(old(thread.state), ids, sampler)
    ensures guard.Value() == Guard(NewSpan(serial, name, thread.state, Internal), old(thread.state), true)
  {
    var previous := thread.CurrentContextState();
    var parent := ValidParent(previous.spanContext);
    var context := if parent.Some? then MakeChild(parent.value, ids) else MakeRoot(ids);
    context := ApplySampling(context, parent, sampler);
    var tracestate := if previous.spanContext.Some? then previous.tracestate else "";
    var span := Span(serial, name, context, tracestate, Internal, false);
    thread.SetCurrentContextState(ContextState(Some(context), tracestate));
    guard := new SpanGuard(span, previous);
  }

  method StartServerSpan(
    thread: ThreadContext, sampler: Sampler, serial: nat, name: string, parent: TraceContext, ids: FreshIds)
    returns (guard: SpanGuard)
    modifies thread
    ensures fresh(guard) && thread.Valid()
    ensures thread.state == ServerStarted(parent, ids, sampler)
    ensures guard.Value() == Guard(NewSpan(serial, name, thread.state, Server), old(thread.state), true)
  {
    var previous := thread.CurrentContextState();
    var context := if parent.IsValid() then MakeChild(ToSpanContext(parent), ids) else MakeRoot(ids);
    var samplingParent := if parent.IsValid() then Some(ToSpanContext(parent)) else None;
    context := ApplySampling(context, samplingParent, sampler);
    var tracestate := if parent.IsValid() then parent.tracestate else "";
    var span := Span(serial, name, context, tracestate, Internal, false);
    span := span.(kind := Server);
    thread.SetCurrentContextState(ContextState(Some(context), tracestate));
    guard := new SpanGuard(span, previous);
  }

  /** KernelTraceContextScope: its two methods are the constructor and the destructor. */
  class KernelScope {
    var previous: Option<TraceContext>

    constructor (thread: ThreadContext, context: Option<TraceContext>)
      modifies thread
      ensures thread.Valid() && thread.state == Loaded(context) && previous == Snapshot(old(thread.state))
    {
      var saved := thread.CurrentContext();
      previous := saved;
      new;
      thread.SetCurrentContext(context);
    }

    method Close(thread: ThreadContext, throws: bool)
      modifies thread
      ensures thread.Valid() && thread.state == if throws then Loaded(None) else Loaded(previous)
    {
      if throws {
        thread.ClearCurrentContext();
      } else {
        thread.SetCurrentContext(previous);
      }
    }
  }
}
