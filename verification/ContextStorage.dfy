/** The thread-local context of galay-tracing/context/context_storage.cc. */
module ContextStorage {
  import opened Wrappers
  import opened Contexts

  datatype ContextState = ContextState(spanContext: Option<SpanContext>, tracestate: string)

  /** What every stored state satisfies: without a span context there is no tracestate. */
  predicate Clean(s: ContextState) {
    s.spanContext == None ==> s.tracestate == ""
  }

  /** The state setCurrentContextState leaves behind. */
  function Stored(s: ContextState): ContextState {
    if s.spanContext == None then s.(tracestate := "") else s
  }

  function Snapshot(s: ContextState): Option<TraceContext> {
    if s.spanContext == None then None else Some(s.spanContext.value.ToTraceContext(s.tracestate))
  }

  function Loaded(c: Option<TraceContext>): ContextState {
    if c == None then ContextState(None, "") else ContextState(Some(ToSpanContext(c.value)), c.value.tracestate)
  }

  /** Saving and loading a context are inverse to each other, for clean states and for all snapshots. */
  lemma SaveThenLoad(s: ContextState, c: Option<TraceContext>)
    ensures Clean(s) <==> Loaded(Snapshot(s)) == s
    ensures Clean(s) <==> Stored(s) == s
    ensures Snapshot(Loaded(c)) == c && Clean(Loaded(c)) && Clean(Stored(s))
  {
    if c.Some? {
      assert c.value == ToSpanContext(c.value).ToTraceContext(c.value.tracestate);
    }
    if s.spanContext.Some? {
      assert s.spanContext.value == ToSpanContext(Snapshot(s).value);
    }
  }

  class ThreadContext {
    var state: ContextState

    ghost predicate Valid()
      reads this
    {
      Clean(state)
    }

    constructor ()
      ensures Valid() && state == ContextState(None, "")
    {
      state := ContextState(None, "");
    }

    method CurrentContextState() returns (s: ContextState)
      ensures s == state
    {
      return state;
    }

    method SetCurrentContextState(s: ContextState)
      modifies this
      ensures Valid() && state == Stored(s)
    {
      var next := s;
      if s.spanContext == None {
        next := next.(tracestate := "");
      }
      state := next;
    }

    method CurrentContext() returns (c: Option<TraceContext>)
      ensures c == Snapshot(state)
    {
      if state.spanContext == None {
        return None;
      }
      return Some(state.spanContext.value.ToTraceContext(state.tracestate));
    }

    method SetCurrentContext(c: Option<TraceContext>)
      modifies this
      ensures Valid() && state == Loaded(c) && Snapshot(state) == c
    {
      SaveThenLoad(state, c);
      if c == None {
        ClearCurrentContext();
        return;
      }
      state := ContextState(Some(ToSpanContext(c.value)), c.value.tracestate);
    }

    method ClearCurrentContext()
      modifies this
      ensures Valid() && state == Loaded(None)
    {
      state := state.(spanContext := None);
      state := state.(tracestate := "");
    }
  }
}
