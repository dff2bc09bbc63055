/** The span queue: the size counter, the capacity bound and where every span is. */
module BatchQueue {
  import opened MapCount
  import opened BatchProtocol

  /** size counts the queued spans, the slots held by producers and the popped spans not yet subtracted. */
  ghost predicate SizeIdentity(q: SpanSide, w: Worker) {
    q.size == |q.queue| + |Where(q.callers, HoldsSlot)| + |Uncounted(w)|
  }

  /** Overflowing producers push size above the capacity, but never the queue. */
  ghost predicate WithinCapacity(c: Config, q: SpanSide, w: Worker) {
    |q.queue| + |Where(q.callers, Admitted)| + |Uncounted(w)| <= c.queueCapacity
  }

  ghost predicate DropsCounted(q: SpanSide) {
    q.dropped == |Where(q.callers, DroppedFull)|
  }

  ghost predicate Counted(c: Config, q: SpanSide, w: Worker) {
    SizeIdentity(q, w) && WithinCapacity(c, q, w) && DropsCounted(q)
  }

  /** A span is in the queue, in the worker's hands or exported, in one of them only, exactly when it was accepted. */
  ghost predicate Placed(queue: set<SpanId>, held: set<SpanId>, exported: set<SpanId>, accepted: set<SpanId>) {
    && queue + held + exported == accepted
    && queue !! held && queue !! exported && held !! exported
  }

  ghost predicate EachPlaced(s: State) {
    Placed(s.spans.queue, Held(s.worker), s.exported, AcceptedSpans(s.spans.callers))
  }

  ghost predicate QueueInv(c: Config, s: State) {
    Counted(c, s.spans, s.worker) && EachPlaced(s)
  }

  // ---------------------------------------------------------------- moves of spans

  lemma PlacedPush(queue: set<SpanId>, held: set<SpanId>, exported: set<SpanId>, accepted: set<SpanId>, p: SpanId)
    requires Placed(queue, held, exported, accepted) && p !in accepted
    ensures Placed(queue + {p}, held, exported, accepted + {p})
  {
  }

  lemma PlacedPop(queue: set<SpanId>, exported: set<SpanId>, accepted: set<SpanId>, b: set<SpanId>)
    requires Placed(queue, {}, exported, accepted) && b <= queue
    ensures Placed(queue - b, b, exported, accepted)
    ensures |queue| == |queue - b| + |b|
  {
    assert queue == (queue - b) + b;
  }

  lemma PlacedExport(queue: set<SpanId>, held: set<SpanId>, exported: set<SpanId>, accepted: set<SpanId>)
    requires Placed(queue, held, exported, accepted)
    ensures Placed(queue, {}, exported + held, accepted)
  {
  }

  // ---------------------------------------------------------------- producers

  /** How often callers are counted after one of them has moved. */
  lemma CountsAfter(m: map<SpanId, Producer>, p: SpanId, v: Producer)
    ensures |Where(m[p := v], HoldsSlot)|
         == |Where(m, HoldsSlot)| - (if p in m && HoldsSlot(m[p]) then 1 else 0) + (if HoldsSlot(v) then 1 else 0)
    ensures |Where(m[p := v], Admitted)|
         == |Where(m, Admitted)| - (if p in m && Admitted(m[p]) then 1 else 0) + (if Admitted(v) then 1 else 0)
    ensures |Where(m[p := v], DroppedFull)|
         == |Where(m, DroppedFull)| - (if p in m && DroppedFull(m[p]) then 1 else 0) + (if DroppedFull(v) then 1 else 0)
    ensures AcceptedSpans(m[p := v]) == if HasAccepted(v) then AcceptedSpans(m) + {p} else AcceptedSpans(m) - {p}
  {
    WhereUpdate(m, HoldsSlot, p, v);
    WhereUpdate(m, Admitted, p, v);
    WhereUpdate(m, DroppedFull, p, v);
    WhereUpdate(m, HasAccepted, p, v);
  }

  lemma SizeBegin(c: Config, s: State, p: SpanId, sampled: bool)
    requires Counted(c, s.spans, s.worker) && p !in s.spans.callers
    ensures Counted(c, BeginOnEnd(c, s, p, sampled).spans, s.worker)
  {
    CountsAfter(s.spans.callers, p, BeginOnEnd(c, s, p, sampled).spans.callers[p]);
    WhereSubset(s.spans.callers, Admitted, HoldsSlot);
  }

  lemma PlacedBegin(c: Config, s: State, p: SpanId, sampled: bool)
    requires EachPlaced(s) && p !in s.spans.callers
    ensures EachPlaced(BeginOnEnd(c, s, p, sampled))
  {
    var t := BeginOnEnd(c, s, p, sampled);
    WhereUpdate(s.spans.callers, HasAccepted, p, t.spans.callers[p]);
    assert p !in AcceptedSpans(s.spans.callers);
    PlacedBy(t, s.spans.queue, Held(s.worker), s.exported, AcceptedSpans(s.spans.callers));
  }

  lemma QueueBegin(c: Config, s: State, p: SpanId, sampled: bool)
    requires QueueInv(c, s) && p !in s.spans.callers
    ensures QueueInv(c, BeginOnEnd(c, s, p, sampled))
  {
    SizeBegin(c, s, p, sampled);
    PlacedBegin(c, s, p, sampled);
  }

  /** A notifying call has been accepted or turned away, never dropped. */
  ghost predicate NotifyOutcomes(m: map<SpanId, Producer>) {
    forall p :: p in m && (m[p].Notify? || m[p].NotifyPost?) ==> m[p].outcome == Accepted || m[p].outcome == Closed
  }

  /** What a producer step does to the counts. */
  lemma CountsNext(c: Config, s: State, q: Producer, accept: bool)
    requires !q.Returned? && (q.Notify? || q.NotifyPost? ==> q.outcome == Accepted || q.outcome == Closed)
    ensures var q' := NextProducer(c, s, q, accept);
      && (HoldsSlot(q') <==> q.CheckClosed? || (q.Enqueue? && !accept))
      && (HoldsSlot(q') ==> Admitted(q'))
      && (DroppedFull(q') <==> q.CountDrop?) && !DroppedFull(q)
  {
  }

  lemma SizeProducer(c: Config, s: State, p: SpanId, accept: bool)
    requires Counted(c, s.spans, s.worker) && p in s.spans.callers && !s.spans.callers[p].Returned?
    requires p in s.spans.queue ==> HasAccepted(s.spans.callers[p])
    requires NotifyOutcomes(s.spans.callers)
    ensures Counted(c, ProducerStep(c, s, p, accept).spans, s.worker)
  {
    var q := s.spans.callers[p];
    CountsNext(c, s, q, accept);
    CountsAfter(s.spans.callers, p, NextProducer(c, s, q, accept));
    var t := ProducerStep(c, s, p, accept).spans;
    assert t.callers == s.spans.callers[p := NextProducer(c, s, q, accept)];
    assert q.Enqueue? && accept ==> |t.queue| == |s.spans.queue| + 1;
    assert !(q.Enqueue? && accept) ==> t.queue == s.spans.queue;
  }

  lemma PlacedProducer(c: Config, s: State, p: SpanId, accept: bool)
    requires EachPlaced(s) && p in s.spans.callers && !s.spans.callers[p].Returned?
    ensures EachPlaced(ProducerStep(c, s, p, accept))
  {
    var q, accepted := s.spans.callers[p], AcceptedSpans(s.spans.callers);
    var q' := NextProducer(c, s, q, accept);
    CountsAfter(s.spans.callers, p, q');
    assert p in accepted <==> HasAccepted(q);
    var t := ProducerStep(c, s, p, accept);
    assert t.spans.callers == s.spans.callers[p := q'];
    if q.Enqueue? && accept {
      PlacedPush(s.spans.queue, Held(s.worker), s.exported, accepted, p);
      PlacedBy(t, s.spans.queue + {p}, Held(s.worker), s.exported, accepted + {p});
    } else {
      assert HasAccepted(q') == HasAccepted(q);
      PlacedBy(t, s.spans.queue, Held(s.worker), s.exported, accepted);
    }
  }

  /** Placement only looks at four sets. */
  lemma PlacedBy(t: State, queue: set<SpanId>, held: set<SpanId>, exported: set<SpanId>, accepted: set<SpanId>)
    requires Placed(queue, held, exported, accepted)
    requires t.spans.queue == queue && Held(t.worker) == held && t.exported == exported
    requires AcceptedSpans(t.spans.callers) == accepted
    ensures EachPlaced(t)
  {
  }

  /** When the worker holds spans after a step, and which. */
  lemma HeldAfter(c: Config, s: State, choice: Choice)
    requires WorkEnabled(c, s, choice)
    ensures var w, w' := s.worker, NextWorker(c, s, choice);
      && (w'.pc == Pop(PopCount) <==> w.pc == Pop(PopDequeue) && choice.spans != {})
      && (w'.pc == Pop(Export) <==> w.pc == Pop(PopCount))
      && w'.batch == if w.pc == Pop(PopDequeue) then choice.spans else w.batch
  {
  }

  lemma WorkerSets(c: Config, s: State, choice: Choice)
    requires WorkEnabled(c, s, choice)
    ensures var t := WorkerStep(c, s, choice);
      && t.spans.callers == s.spans.callers && t.spans.dropped == s.spans.dropped
      && Held(t.worker) == (if s.worker.pc == Pop(PopDequeue) then choice.spans
                            else if s.worker.pc == Pop(PopCount) then s.worker.batch else {})
      && Uncounted(t.worker) == (if s.worker.pc == Pop(PopDequeue) then choice.spans else {})
      && t.spans.queue == (if s.worker.pc == Pop(PopDequeue) then s.spans.queue - choice.spans else s.spans.queue)
      && t.spans.size == s.spans.size - |Uncounted(s.worker)|
      && t.exported == (if s.worker.pc == Pop(Export) then s.exported + s.worker.batch else s.exported)
  {
    HeldAfter(c, s, choice);
  }

  /** The same, for a worker step seen through its effect only. */
  lemma QueueAfter(c: Config, s: State, t: State, spans: set<SpanId>)
    requires QueueInv(c, s)
    requires t.spans.callers == s.spans.callers && t.spans.dropped == s.spans.dropped
    requires t.spans.size == s.spans.size - |Uncounted(s.worker)|
    requires s.worker.pc == Pop(PopDequeue) ==>
      && spans <= s.spans.queue && t.spans.queue == s.spans.queue - spans && t.exported == s.exported
      && Held(t.worker) == Uncounted(t.worker) == spans
    requires s.worker.pc == Pop(Export) ==>
      && t.spans.queue == s.spans.queue && t.exported == s.exported + s.worker.batch
      && Held(t.worker) == Uncounted(t.worker) == {}
    requires s.worker.pc != Pop(PopDequeue) && s.worker.pc != Pop(Export) ==>
      && t.spans.queue == s.spans.queue && t.exported == s.exported
      && Held(t.worker) == Held(s.worker) && Uncounted(t.worker) == {}
    ensures QueueInv(c, t)
  {
    var accepted := AcceptedSpans(s.spans.callers);
    if s.worker.pc == Pop(PopDequeue) {
      PlacedPop(s.spans.queue, s.exported, accepted, spans);
    } else if s.worker.pc == Pop(Export) {
      PlacedExport(s.spans.queue, s.worker.batch, s.exported, accepted);
    }
  }

  lemma QueueWorker(c: Config, s: State, choice: Choice)
    requires QueueInv(c, s) && WorkEnabled(c, s, choice)
    ensures QueueInv(c, WorkerStep(c, s, choice))
  {
    WorkerSets(c, s, choice);
    QueueAfter(c, s, WorkerStep(c, s, choice), choice.spans);
  }

  lemma QueueProducer(c: Config, s: State, p: SpanId, accept: bool)
    requires QueueInv(c, s) && NotifyOutcomes(s.spans.callers) && p in s.spans.callers && !s.spans.callers[p].Returned?
    ensures QueueInv(c, ProducerStep(c, s, p, accept))
  {
    assert p in s.spans.queue ==> p in AcceptedSpans(s.spans.callers);
    SizeProducer(c, s, p, accept);
    PlacedProducer(c, s, p, accept);
  }

  lemma NotifyOutcomesStep(c: Config, s: State, a: Step)
    requires NotifyOutcomes(s.spans.callers) && Enabled(c, s, a)
    ensures NotifyOutcomes(Do(c, s, a).spans.callers)
  {
  }

  lemma QueueStep(c: Config, s: State, a: Step)
    requires QueueInv(c, s) && NotifyOutcomes(s.spans.callers) && Enabled(c, s, a)
    ensures QueueInv(c, Do(c, s, a))
  {
    match a
    case CallOnEnd(p, sampled) => QueueBegin(c, s, p, sampled);
    case Produce(p, accept) => QueueProducer(c, s, p, accept);
    case Work(choice) => QueueWorker(c, s, choice);
    case _ => QueueOther(c, s, Do(c, s, a));
  }

  lemma QueueOther(c: Config, s: State, t: State)
    requires QueueInv(c, s) && t.spans == s.spans && t.exported == s.exported && t.worker == s.worker
    ensures QueueInv(c, t)
  {
  }
}
