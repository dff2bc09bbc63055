/**
 * Runs of one thread over guards and kernel scopes. An open level is a started span or a kernel scope; a run is
 * well nested when only the innermost level is ever closed. Guards may be moved freely, also onto inactive guards.
 */
module ScopeRuns {
  import opened Wrappers
  import opened Contexts
  import opened ContextStorage
  import opened Sampling
  import opened SpanGuards

  datatype Level = GuardLevel(serial: nat) | ScopeLevel(scope: nat)

  /** History of an open level: the thread state before it was opened and just after. */
  datatype Frame = Frame(level: Level, entry: ContextState, inside: ContextState)

  datatype World = World(
    current: ContextState,
    guards: map<nat, Guard>,
    scopes: map<nat, Option<TraceContext>>,
    frames: seq<Frame>,
    nextSerial: nat)

  datatype Op =
    | Start(guard: nat, name: string, ids: FreshIds, sampler: Sampler)
    | StartServer(guard: nat, name: string, parent: TraceContext, ids: FreshIds, sampler: Sampler)
    | NewInactive(guard: nat, blank: Span)
    | MoveConstruct(target: nat, source: nat, left: Guard)
    | MoveAssign(target: nat, source: nat, left: Guard)
    | End(guard: nat)
    | Destroy(guard: nat)
    | OpenScope(scope: nat, context: Option<TraceContext>)
    | CloseScope(scope: nat)
    | SetContext(context: Option<TraceContext>)

  function Top(w: World): Option<Level> {
    if w.frames == [] then None else Some(w.frames[|w.frames| - 1].level)
  }

  /** Objects are created once and used while alive; levels close innermost first. */
  predicate Allowed(w: World, op: Op) {
    match op
    case Start(g, _, ids, _) => g !in w.guards && ids.Valid()
    case StartServer(g, _, _, ids, _) => g !in w.guards && ids.Valid()
    case NewInactive(g, _) => g !in w.guards
    case MoveConstruct(t, s, _) => t !in w.guards && s in w.guards
    case MoveAssign(t, s, _) => t in w.guards && s in w.guards && (t != s ==> !w.guards[t].active)
    case End(g) => g in w.guards
    case Destroy(g) => g in w.guards && (w.guards[g].active ==> Top(w) == Some(GuardLevel(w.guards[g].span.serial)))
    case OpenScope(k, _) => k !in w.scopes
    case CloseScope(k) => k in w.scopes && Top(w) == Some(ScopeLevel(k))
    case SetContext(_) => true
  }

  predicate Opens(op: Op) {
    op.Start? || op.StartServer? || op.OpenScope?
  }

  predicate Closes(w: World, op: Op)
    requires Allowed(w, op)
  {
    op.CloseScope? || (op.Destroy? && w.guards[op.guard].active)
  }

  function NextState(w: World, op: Op): ContextState
    requires Allowed(w, op)
  {
    match op
    case Start(_, _, ids, sampler) => Started(w.current, ids, sampler)
    case StartServer(_, _, parent, ids, sampler) => ServerStarted(parent, ids, sampler)
    case MoveAssign(t, s, _) => if t == s then w.current else AfterRestore(w.guards[t], w.current)
    case Destroy(g) => AfterRestore(w.guards[g], w.current)
    case OpenScope(_, c) => Loaded(c)
    case CloseScope(k) => Loaded(w.scopes[k])
    case SetContext(c) => Loaded(c)
    case _ => w.current
  }

  /** The target takes over; the source is inactive and its other contents, given by left, are unspecified. */
  function Moved(guards: map<nat, Guard>, target: nat, source: nat, left: Guard): map<nat, Guard>
    requires source in guards
  {
    guards[target := guards[source]][source := left.(active := false)]
  }

  function NextGuards(w: World, op: Op): map<nat, Guard>
    requires Allowed(w, op)
  {
    match op
    case Start(g, name, _, _) =>
      w.guards[g := Guard(NewSpan(w.nextSerial, name, NextState(w, op), Internal), w.current, true)]
    case StartServer(g, name, _, _, _) =>
      w.guards[g := Guard(NewSpan(w.nextSerial, name, NextState(w, op), Server), w.current, true)]
    case NewInactive(g, blank) => w.guards[g := Guard(blank, ContextState(None, ""), false)]
    case MoveConstruct(t, s, left) => Moved(w.guards, t, s, left)
    case MoveAssign(t, s, left) => if t == s then w.guards else Moved(w.guards, t, s, left)
    case End(g) =>
      var guard := w.guards[g];
      if guard.active then w.guards[g := guard.(span := guard.span.(ended := true))] else w.guards
    case Destroy(g) => w.guards - {g}
    case _ => w.guards
  }

  function NextScopes(w: World, op: Op): map<nat, Option<TraceContext>>
    requires Allowed(w, op)
  {
    match op
    case OpenScope(k, _) => w.scopes[k := Snapshot(w.current)]
    case CloseScope(k) => w.scopes - {k}
    case _ => w.scopes
  }

  function NextFrames(w: World, op: Op): seq<Frame>
    requires Allowed(w, op)
  {
    if Opens(op) then
      var level := if op.OpenScope? then ScopeLevel(op.scope) else GuardLevel(w.nextSerial);
      w.frames + [Frame(level, w.current, NextState(w, op))]
    else if Closes(w, op) then w.frames[..|w.frames| - 1]
    else w.frames
  }

  function Do(w: World, op: Op): World
    requires Allowed(w, op)
  {
    World(NextState(w, op), NextGuards(w, op), NextScopes(w, op), NextFrames(w, op), w.nextSerial + 1)
  }

  // ---------------------------------------------------------------- runs

  predicate Runs(w: World, ops: seq<Op>)
    decreases |ops|
  {
    ops == [] || (Allowed(w, ops[0]) && Runs(Do(w, ops[0]), ops[1..]))
  }

  function After(w: World, ops: seq<Op>): World
    requires Runs(w, ops)
    decreases |ops|
  {
    if ops == [] then w else After(Do(w, ops[0]), ops[1..])
  }

  function Initial(): World {
    World(ContextState(None, ""), map[], map[], [], 0)
  }

  // ---------------------------------------------------------------- the invariant

  /** The guard is active for the level of the frame, holds its span and remembers the state before it. */
  predicate Holds(guard: Guard, frame: Frame) {
    && guard.active
    && frame.level == GuardLevel(guard.span.serial)
    && guard.previous == frame.entry
    && frame.inside == ContextState(Some(guard.span.context), guard.span.tracestate)
  }

  predicate Held(guards: map<nat, Guard>, frame: Frame) {
    exists g :: g in guards && Holds(guards[g], frame)
  }

  predicate HasFrame(guard: Guard, frames: seq<Frame>) {
    exists i :: 0 <= i < |frames| && Holds(guard, frames[i])
  }

  predicate SameSpan(a: Guard, b: Guard) {
    a.active && b.active && a.span.serial == b.span.serial
  }

  /** Active guards and open guard levels correspond one to one. */
  predicate GuardsInv(guards: map<nat, Guard>, frames: seq<Frame>) {
    && (forall i :: 0 <= i < |frames| && frames[i].level.GuardLevel? ==> Held(guards, frames[i]))
    && (forall g :: g in guards && guards[g].active ==> HasFrame(guards[g], frames))
    && (forall g, h :: g in guards && h in guards && SameSpan(guards[g], guards[h]) ==> g == h)
  }

  /** Levels are distinct, entry states are clean, and serials in use are below the next one. */
  predicate FramesInv(w: World) {
    && Clean(w.current)
    && (forall i :: 0 <= i < |w.frames| ==> Clean(w.frames[i].entry))
    && (forall i :: 0 <= i < |w.frames| && w.frames[i].level.GuardLevel? ==> w.frames[i].level.serial < w.nextSerial)
    && (forall i, j :: 0 <= i < j < |w.frames| ==> w.frames[i].level != w.frames[j].level)
  }

  predicate ScopesInv(w: World) {
    forall i :: 0 <= i < |w.frames| && w.frames[i].level.ScopeLevel? ==>
      var k := w.frames[i].level.scope;
      k in w.scopes && w.scopes[k] == Snapshot(w.frames[i].entry)
  }

  predicate Inv(w: World) {
    FramesInv(w) && GuardsInv(w.guards, w.frames) && ScopesInv(w)
  }

  /** Closing the innermost level returns the thread state to what it was before that level was opened. */
  lemma ClosingRestores(w: World, op: Op)
    requires Inv(w) && Allowed(w, op) && Closes(w, op)
    ensures w.frames != [] && NextState(w, op) == w.frames[|w.frames| - 1].entry
  {
    var top := w.frames[|w.frames| - 1];
    SaveThenLoad(top.entry, None);
    if op.Destroy? {
      var i :| 0 <= i < |w.frames| && Holds(w.guards[op.guard], w.frames[i]);
      assert w.frames[i].level == top.level;
    }
  }

  lemma CleanStep(w: World, op: Op)
    requires Inv(w) && Allowed(w, op)
    ensures Clean(NextState(w, op))
  {
    if op.OpenScope? || op.SetContext? {
      SaveThenLoad(w.current, op.context);
    } else if Closes(w, op) {
      ClosingRestores(w, op);
    }
  }

  lemma NewLevel(w: World, op: Op)
    requires Inv(w) && Allowed(w, op) && Opens(op)
    ensures var frames := NextFrames(w, op);
      && |frames| == |w.frames| + 1 && frames[..|w.frames|] == w.frames && frames[|w.frames|].entry == w.current
      && frames[|w.frames|].inside == NextState(w, op)
      && (frames[|w.frames|].level.GuardLevel? ==> frames[|w.frames|].level.serial == w.nextSerial)
    ensures forall i :: 0 <= i < |w.frames| ==> w.frames[i].level != NextFrames(w, op)[|w.frames|].level
  {
  }

  lemma FramesStep(w: World, op: Op)
    requires Inv(w) && Allowed(w, op)
    ensures FramesInv(Do(w, op))
  {
    CleanStep(w, op);
    if Opens(op) {
      NewLevel(w, op);
      FramesOpened(w, Do(w, op));
    } else {
      assert NextFrames(w, op) == w.frames[..|NextFrames(w, op)|];
      FramesClosed(w, Do(w, op));
    }
  }

  lemma FramesOpened(w: World, v: World)
    requires FramesInv(w) && Clean(v.current) && v.nextSerial > w.nextSerial
    requires |v.frames| == |w.frames| + 1 && v.frames[..|w.frames|] == w.frames
    requires var top := v.frames[|w.frames|];
      && Clean(top.entry) && (top.level.GuardLevel? ==> top.level.serial == w.nextSerial)
      && forall i :: 0 <= i < |w.frames| ==> w.frames[i].level != top.level
    ensures FramesInv(v)
  {
    assert forall i :: 0 <= i < |w.frames| ==> v.frames[i] == w.frames[i];
  }

  lemma FramesClosed(w: World, v: World)
    requires FramesInv(w) && Clean(v.current) && v.nextSerial > w.nextSerial
    requires |v.frames| <= |w.frames| && v.frames == w.frames[..|v.frames|]
    ensures FramesInv(v)
  {
  }

  lemma ScopesStep(w: World, op: Op)
    requires Inv(w) && Allowed(w, op)
    ensures ScopesInv(Do(w, op))
  {
  }

  lemma GuardsMove(guards: map<nat, Guard>, frames: seq<Frame>, target: nat, source: nat, left: Guard)
    requires GuardsInv(guards, frames) && source in guards && target != source
    requires target in guards ==> !guards[target].active
    ensures GuardsInv(Moved(guards, target, source, left), frames)
  {
    var after := Moved(guards, target, source, left);
    forall i | 0 <= i < |frames| && frames[i].level.GuardLevel?
      ensures Held(after, frames[i])
    {
      var g :| g in guards && Holds(guards[g], frames[i]);
      assert Holds(after[if g == source then target else g], frames[i]);
    }
  }

  lemma GuardsOpen(guards: map<nat, Guard>, frames: seq<Frame>, g: nat, guard: Guard, frame: Frame)
    requires GuardsInv(guards, frames) && g !in guards && Holds(guard, frame)
    requires forall i :: 0 <= i < |frames| ==> frames[i].level != frame.level
    ensures GuardsInv(guards[g := guard], frames + [frame])
  {
    var after, open := guards[g := guard], frames + [frame];
    forall i | 0 <= i < |open| && open[i].level.GuardLevel?
      ensures Held(after, open[i])
    {
      if i < |frames| {
        var h :| h in guards && Holds(guards[h], frames[i]);
        assert Holds(after[h], open[i]);
      } else {
        assert Holds(after[g], open[i]);
      }
    }
    forall h | h in after && after[h].active
      ensures HasFrame(after[h], open) && (h != g ==> after[h].span.serial != guard.span.serial)
    {
      if h == g {
        assert Holds(after[h], open[|frames|]);
      } else {
        var i :| 0 <= i < |frames| && Holds(guards[h], frames[i]);
        assert Holds(after[h], open[i]);
      }
    }
  }

  /** A level that is not a guard's comes or goes at the end. */
  lemma GuardsScope(guards: map<nat, Guard>, frames: seq<Frame>, frame: Frame)
    requires !frame.level.GuardLevel?
    ensures GuardsInv(guards, frames) <==> GuardsInv(guards, frames + [frame])
  {
    var open := frames + [frame];
    forall g | g in guards
      ensures HasFrame(guards[g], frames) <==> HasFrame(guards[g], open)
    {
      if HasFrame(guards[g], frames) {
        var i :| 0 <= i < |frames| && Holds(guards[g], frames[i]);
        assert Holds(guards[g], open[i]);
      }
    }
    if GuardsInv(guards, open) {
      forall i | 0 <= i < |frames| && frames[i].level.GuardLevel?
        ensures Held(guards, frames[i])
      {
        assert open[i] == frames[i];
      }
    }
  }

  lemma GuardsClose(guards: map<nat, Guard>, frames: seq<Frame>, g: nat)
    requires GuardsInv(guards, frames) && frames != [] && g in guards && guards[g].active
    requires frames[|frames| - 1].level == GuardLevel(guards[g].span.serial)
    requires forall i, j :: 0 <= i < j < |frames| ==> frames[i].level != frames[j].level
    ensures GuardsInv(guards - {g}, frames[..|frames| - 1])
  {
    var after, closed := guards - {g}, frames[..|frames| - 1];
    forall i | 0 <= i < |closed| && closed[i].level.GuardLevel?
      ensures Held(after, closed[i])
    {
      var h :| h in guards && Holds(guards[h], frames[i]);
      assert h != g;
      assert Holds(after[h], closed[i]);
    }
    forall h | h in after && after[h].active
      ensures HasFrame(after[h], closed)
    {
      var i :| 0 <= i < |frames| && Holds(guards[h], frames[i]);
      assert i < |closed|;
      assert Holds(after[h], closed[i]);
    }
  }

  /** A guard that is inactive before and after, or only ends its span, changes nothing the invariant reads. */
  lemma GuardsSame(guards: map<nat, Guard>, after: map<nat, Guard>, frames: seq<Frame>)
    requires GuardsInv(guards, frames)
    requires forall g :: g in guards && guards[g].active ==>
      g in after && after[g] == guards[g].(span := guards[g].span.(ended := after[g].span.ended))
    requires forall g :: g in after && after[g].active ==> g in guards && guards[g].active
    ensures GuardsInv(after, frames)
  {
    forall i | 0 <= i < |frames| && frames[i].level.GuardLevel?
      ensures Held(after, frames[i])
    {
      var g :| g in guards && Holds(guards[g], frames[i]);
      assert Holds(after[g], frames[i]);
    }
    forall g | g in after && after[g].active
      ensures HasFrame(after[g], frames)
    {
      var i :| 0 <= i < |frames| && Holds(guards[g], frames[i]);
      assert Holds(after[g], frames[i]);
    }
  }

  lemma GuardsStart(w: World, op: Op)
    requires Inv(w) && Allowed(w, op) && (op.Start? || op.StartServer?)
    ensures GuardsInv(NextGuards(w, op), NextFrames(w, op))
  {
    NewLevel(w, op);
    GuardsOpen(w.guards, w.frames, op.guard, NextGuards(w, op)[op.guard], NextFrames(w, op)[|w.frames|]);
  }

  lemma GuardsDestroy(w: World, g: nat)
    requires Inv(w) && Allowed(w, Destroy(g))
    ensures GuardsInv(NextGuards(w, Destroy(g)), NextFrames(w, Destroy(g)))
  {
    if w.guards[g].active {
      GuardsClose(w.guards, w.frames, g);
    } else {
      GuardsSame(w.guards, w.guards - {g}, w.frames);
    }
  }

  lemma GuardsScopeStep(w: World, op: Op)
    requires Inv(w) && Allowed(w, op) && (op.OpenScope? || op.CloseScope?)
    ensures GuardsInv(NextGuards(w, op), NextFrames(w, op))
  {
    if op.OpenScope? {
      GuardsScope(w.guards, w.frames, NextFrames(w, op)[|w.frames|]);
    } else {
      var closed := w.frames[..|w.frames| - 1];
      assert w.frames == closed + [w.frames[|w.frames| - 1]];
      GuardsScope(w.guards, closed, w.frames[|w.frames| - 1]);
    }
  }

  lemma GuardsStep(w: World, op: Op)
    requires Inv(w) && Allowed(w, op)
    ensures GuardsInv(NextGuards(w, op), NextFrames(w, op))
  {
    match op
    case Start(_, _, _, _) => GuardsStart(w, op);
    case StartServer(_, _, _, _, _) => GuardsStart(w, op);
    case NewInactive(_, _) => GuardsSame(w.guards, NextGuards(w, op), w.frames);
    case MoveConstruct(t, s, left) => GuardsMove(w.guards, w.frames, t, s, left);
    case MoveAssign(t, s, left) => if t != s { GuardsMove(w.guards, w.frames, t, s, left); }
    case End(_) => GuardsSame(w.guards, NextGuards(w, op), w.frames);
    case Destroy(g) => GuardsDestroy(w, g);
    case OpenScope(_, _) => GuardsScopeStep(w, op);
    case CloseScope(_) => GuardsScopeStep(w, op);
    case SetContext(_) =>
  }

  lemma InvStep(w: World, op: Op)
    requires Inv(w) && Allowed(w, op)
    ensures Inv(Do(w, op))
  {
    FramesStep(w, op);
    ScopesStep(w, op);
    GuardsStep(w, op);
  }

  lemma {:induction false} InvRun(w: World, ops: seq<Op>)
    requires Inv(w) && Runs(w, ops)
    ensures Inv(After(w, ops))
    decreases |ops|
  {
    if ops != [] {
      InvStep(w, ops[0]);
      InvRun(Do(w, ops[0]), ops[1..]);
    }
  }

  // ---------------------------------------------------------------- main theorems

  function ActiveGuards(w: World, serial: nat): set<nat> {
    set g | g in w.guards && w.guards[g].active && w.guards[g].span.serial == serial
  }

  predicate Open(w: World, level: Level) {
    exists i :: 0 <= i < |w.frames| && w.frames[i].level == level
  }

  lemma ActiveGuardsCount(w: World, serial: nat)
    requires GuardsInv(w.guards, w.frames)
    ensures |ActiveGuards(w, serial)| == if Open(w, GuardLevel(serial)) then 1 else 0
  {
    var holders := ActiveGuards(w, serial);
    if Open(w, GuardLevel(serial)) {
      var i :| 0 <= i < |w.frames| && w.frames[i].level == GuardLevel(serial);
      var g :| g in w.guards && Holds(w.guards[g], w.frames[i]);
      assert forall h :: h in holders ==> SameSpan(w.guards[g], w.guards[h]);
      assert holders == {g};
    } else {
      forall g | g in w.guards && w.guards[g].active
        ensures w.guards[g].span.serial != serial
      {
        var i :| 0 <= i < |w.frames| && Holds(w.guards[g], w.frames[i]);
      }
      assert holders == {};
    }
  }

  /** In every run, a started span has exactly one active guard while its level is open, and none afterwards. */
  lemma OneActiveGuard(ops: seq<Op>, serial: nat)
    requires Runs(Initial(), ops)
    ensures |ActiveGuards(After(Initial(), ops), serial)|
         == if Open(After(Initial(), ops), GuardLevel(serial)) then 1 else 0
  {
    InvRun(Initial(), ops);
    ActiveGuardsCount(After(Initial(), ops), serial);
  }

  /** The run stays at or above a depth, and writes the context directly only above it. */
  predicate Within(w: World, ops: seq<Op>, depth: nat)
    requires Runs(w, ops)
    decreases |ops|
  {
    && |w.frames| >= depth
    && (ops != [] ==>
          && (ops[0].SetContext? ==> |w.frames| > depth)
          && Within(Do(w, ops[0]), ops[1..], depth))
  }

  /** The thread state at a depth: the current one, or the one saved by the first level above. */
  function StateAt(w: World, depth: nat): ContextState
    requires depth <= |w.frames|
  {
    if depth == |w.frames| then w.current else w.frames[depth].entry
  }

  lemma StateAtStep(w: World, op: Op, depth: nat)
    requires Inv(w) && Allowed(w, op) && depth <= |w.frames| && depth <= |Do(w, op).frames|
    requires op.SetContext? ==> |w.frames| > depth
    ensures StateAt(Do(w, op), depth) == StateAt(w, depth) && Do(w, op).frames[..depth] == w.frames[..depth]
  {
    if Closes(w, op) {
      ClosingRestores(w, op);
    }
  }

  /**
   * Restoration: a run that never leaves a level and ends at its depth, whatever it opened, closed, moved or
   * overwrote further in, leaves the thread state and the open levels exactly as they were.
   */
  lemma {:induction false} LevelRestored(w: World, ops: seq<Op>, depth: nat)
    requires Inv(w) && Runs(w, ops) && Within(w, ops, depth)
    ensures depth <= |After(w, ops).frames|
    ensures StateAt(After(w, ops), depth) == StateAt(w, depth)
    ensures After(w, ops).frames[..depth] == w.frames[..depth]
    decreases |ops|
  {
    if ops != [] {
      StateAtStep(w, ops[0], depth);
      InvStep(w, ops[0]);
      LevelRestored(Do(w, ops[0]), ops[1..], depth);
    }
  }

  /** A whole run of a thread that closed all it opened ends with the empty context it began with. */
  lemma ClosedRunRestores(ops: seq<Op>)
    requires Runs(Initial(), ops) && Within(Initial(), ops, 0) && After(Initial(), ops).frames == []
    ensures After(Initial(), ops).current == ContextState(None, "")
  {
    LevelRestored(Initial(), ops, 0);
  }

  /** end() leaves the thread in the saved state only if it already was in it. */
  lemma EndRestoresIff(w: World, g: nat)
    requires Allowed(w, End(g))
    ensures var v := Do(w, End(g));
      && (v.current == v.guards[g].previous <==> w.current == w.guards[g].previous)
      && v.guards[g].active == w.guards[g].active && v.frames == w.frames
  {
  }

  /** So end() right after a start does not restore, whenever the drawn span id differs from the current one. */
  lemma EndDoesNotRestore(w: World, start: Op)
    requires Allowed(w, start) && start.Start?
    requires w.current.spanContext.Some? ==> w.current.spanContext.value.spanId != start.ids.span
    ensures var v := Do(w, start);
      Allowed(v, End(start.guard)) && v.guards[start.guard].previous == w.current
      && Do(v, End(start.guard)).current != w.current
  {
    EndRestoresIff(Do(w, start), start.guard);
  }

  // ---------------------------------------------------------------- the trace chain

  /** Only plain spans under one sampler are started; guards move, end and close as they like. */
  predicate Plain(ops: seq<Op>, sampler: Sampler) {
    forall i :: 0 <= i < |ops| ==> PlainOp(ops[i], sampler)
  }

  predicate PlainOp(op: Op, sampler: Sampler) {
    !op.StartServer? && !op.OpenScope? && !op.SetContext? && (op.Start? ==> op.sampler == sampler)
  }

  /** The inner state is the context of a child of the outer one's span: same trace, flags and tracestate. */
  predicate ChildState(outer: ContextState, inner: ContextState) {
    && outer.spanContext.Some? && inner.spanContext.Some?
    && inner.tracestate == outer.tracestate
    && inner.spanContext.value.traceId == outer.spanContext.value.traceId
    && inner.spanContext.value.traceFlags == outer.spanContext.value.traceFlags
    && inner.spanContext.value.parentSpanId == Some(outer.spanContext.value.spanId)
  }

  predicate Follows(sampler: Sampler, s: ContextState) {
    s.spanContext.Some? && s.spanContext.value.IsValid() && Stable(sampler, s.spanContext.value)
  }

  /** From the outermost level on, each level is a child of the one around it. */
  predicate ChainInv(current: ContextState, frames: seq<Frame>, outermost: nat, sampler: Sampler) {
    && outermost < |frames|
    && current == frames[|frames| - 1].inside
    && (forall i :: outermost <= i < |frames| ==> Follows(sampler, frames[i].inside))
    && (forall i :: outermost < i < |frames| ==>
          ChildState(frames[i - 1].inside, frames[i].inside) && frames[i].entry == frames[i - 1].inside)
  }

  /** Any start call under the sampler is a possible outermost level. */
  lemma ChainBegins(w: World, op: Op)
    requires Allowed(w, op) && (op.Start? || op.StartServer?)
    ensures ChainInv(NextState(w, op), NextFrames(w, op), |w.frames|, op.sampler)
  {
    if op.Start? {
      NextContextStable(w.current.spanContext, op.ids, op.sampler);
    } else {
      NextContextStable(Some(ToSpanContext(op.parent)), op.ids, op.sampler);
    }
  }

  lemma ChildStarted(state: ContextState, ids: FreshIds, sampler: Sampler)
    requires Follows(sampler, state) && ids.Valid()
    ensures ChildState(state, Started(state, ids, sampler)) && Follows(sampler, Started(state, ids, sampler))
  {
    NextContextStable(state.spanContext, ids, sampler);
    ChildInherits(state.spanContext.value, ids, sampler);
  }

  lemma ChainOpen(frames: seq<Frame>, frame: Frame, outermost: nat, sampler: Sampler)
    requires frames != [] && ChainInv(frame.entry, frames, outermost, sampler)
    requires ChildState(frame.entry, frame.inside) && Follows(sampler, frame.inside)
    ensures ChainInv(frame.inside, frames + [frame], outermost, sampler)
  {
  }

  lemma ChainStep(w: World, op: Op, outermost: nat, sampler: Sampler)
    requires Inv(w) && Allowed(w, op) && PlainOp(op, sampler) && ChainInv(w.current, w.frames, outermost, sampler)
    requires outermost < |NextFrames(w, op)|
    ensures ChainInv(NextState(w, op), NextFrames(w, op), outermost, sampler)
  {
    if op.Start? {
      ChildStarted(w.current, op.ids, sampler);
      ChainOpen(w.frames, NextFrames(w, op)[|w.frames|], outermost, sampler);
    } else if Closes(w, op) {
      ClosingRestores(w, op);
    } else {
      assert NextState(w, op) == w.current && NextFrames(w, op) == w.frames;
    }
  }

  lemma {:induction false} ChainRun(w: World, ops: seq<Op>, outermost: nat, sampler: Sampler)
    requires Inv(w) && Runs(w, ops) && Plain(ops, sampler) && ChainInv(w.current, w.frames, outermost, sampler)
    requires Within(w, ops, outermost + 1)
    ensures ChainInv(After(w, ops).current, After(w, ops).frames, outermost, sampler)
    decreases |ops|
  {
    if ops != [] {
      assert Plain(ops[1..], sampler);
      ChainStep(w, ops[0], outermost, sampler);
      InvStep(w, ops[0]);
      ChainRun(Do(w, ops[0]), ops[1..], outermost, sampler);
    }
  }

  /** Two levels of a chain, at any distance, agree on trace id, tracestate and all eight flag bits. */
  lemma {:induction false} ChainAgrees(w: World, outermost: nat, sampler: Sampler, i: nat)
    requires ChainInv(w.current, w.frames, outermost, sampler) && outermost <= i < |w.frames|
    ensures var outer, inner := w.frames[outermost].inside, w.frames[i].inside;
      && outer.spanContext.Some? && inner.spanContext.Some?
      && inner.tracestate == outer.tracestate
      && inner.spanContext.value.traceId == outer.spanContext.value.traceId
      && inner.spanContext.value.traceFlags == outer.spanContext.value.traceFlags
  {
    if i > outermost {
      ChainAgrees(w, outermost, sampler, i - 1);
    }
  }

  /**
   * Under any span started with a built-in sampler, after any well-nested run of plain starts with that sampler,
   * moves, ends and closes that has not closed that span, the guard of every level further in holds a span with
   * the outermost span's trace id, tracestate and flags, whose parent is the span of the level around it.
   */
  lemma TraceChain(w: World, first: Op, ops: seq<Op>, i: nat, outer: nat, inner: nat)
    requires Inv(w) && Allowed(w, first) && (first.Start? || first.StartServer?)
    requires Runs(Do(w, first), ops) && Plain(ops, first.sampler)
    requires Within(Do(w, first), ops, |w.frames| + 1)
    requires var v := After(Do(w, first), ops);
      && |w.frames| < i < |v.frames| && outer in v.guards && inner in v.guards
      && Holds(v.guards[outer], v.frames[i - 1]) && Holds(v.guards[inner], v.frames[i])
    ensures var v := After(Do(w, first), ops);
      var span := v.guards[inner].span;
      && v.frames[|w.frames|] == Do(w, first).frames[|w.frames|]
      && span.context.parentSpanId == Some(v.guards[outer].span.context.spanId)
      && Do(w, first).current.spanContext.Some?
      && span.context.traceId == Do(w, first).current.spanContext.value.traceId
      && span.context.traceFlags == Do(w, first).current.spanContext.value.traceFlags
      && span.tracestate == Do(w, first).current.tracestate
  {
    var u := Do(w, first);
    var v := After(u, ops);
    InvStep(w, first);
    ChainBegins(w, first);
    ChainRun(u, ops, |w.frames|, first.sampler);
    ChainAgrees(v, |w.frames|, first.sampler, i);
    LevelRestored(u, ops, |w.frames| + 1);
    assert v.frames[|w.frames|] == v.frames[..|w.frames| + 1][|w.frames|];
    assert u.frames[|w.frames|] == u.frames[..|w.frames| + 1][|w.frames|];
  }
}
