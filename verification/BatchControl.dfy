/** Where the worker can be: the call sites of its lambdas and what it has observed there. */
module BatchControl {
  import opened BatchProtocol

  /** The worker is completing flush requests. */
  predicate Completing(r: Round) {
    r.First? || r.Second? || r.Third?
  }

  /** Between the end of the shutdown drain and the end of the loop. */
  predicate Closing(r: Round) {
    r.ShutdownDrain? || r.Second? || r.Third?
  }

  predicate WellPlaced(w: Worker) {
    match w.pc
    case Head(_) => w.request.None?
    case Req(TakeRequest) => Completing(w.round) && w.request.None?
    case Req(_) => Completing(w.round) && w.request.Some?
    case Idle(_) => if w.request.Some? then Completing(w.round) else w.round == ShutdownDrain
    case Pop(_) => if w.request.Some? then Completing(w.round) else w.round == ShutdownDrain || w.round == Ready
    case Close(LoadActive) => w.round == Second && w.request.None?
    case Close(LoadEmpty) => w.round == Second && w.request.None?
    case Close(_) => w.round == Third && w.request.None? && !w.completedAny
    case Drain(_) => w.round == Ready && w.request.None?
    case Exited => w.round == Third && w.request.None? && !w.completedAny
  }

  ghost predicate ControlInv(c: Config, s: State) {
    && WellPlaced(s.worker)
    && (Closing(s.worker.round) && !s.worker.pc.Head? ==> s.worker.sawShutdown)
    && (s.worker.sawShutdown ==> s.stop.shutdownRequested)
    && (s.stop.workerStopped <==> s.worker.pc == Exited)
    && (c.mode == OnEnd && s.worker.round == Ready && !s.worker.pc.Head? ==> s.worker.partial)
    && (s.worker.pc == Drain(CheckReady) ==> !s.worker.partial)
  }

  lemma PlacedNext(c: Config, s: State, choice: Choice)
    requires WellPlaced(s.worker) && WorkEnabled(c, s, choice)
    ensures WellPlaced(NextWorker(c, s, choice))
  {
  }

  /** The shutdown rounds are entered only from a First round that saw shutdown. */
  lemma RoundNext(c: Config, s: State, choice: Choice)
    requires ControlInv(c, s) && WorkEnabled(c, s, choice)
    ensures var w, w' := s.worker, NextWorker(c, s, choice);
      && (Closing(w'.round) && !w'.pc.Head? ==> w'.sawShutdown)
      && (c.mode == OnEnd && w'.round == Ready && !w'.pc.Head? ==> w'.partial)
      && (w'.pc == Drain(CheckReady) ==> !w'.partial)
      && (w'.pc == Exited <==> w.pc == Close(StoreStopped))
  {
  }

  lemma ControlWorker(c: Config, s: State, choice: Choice)
    requires ControlInv(c, s) && WorkEnabled(c, s, choice)
    ensures ControlInv(c, WorkerStep(c, s, choice))
  {
    PlacedNext(c, s, choice);
    RoundNext(c, s, choice);
  }

  lemma ControlStep(c: Config, s: State, a: Step)
    requires ControlInv(c, s) && Enabled(c, s, a)
    ensures ControlInv(c, Do(c, s, a))
  {
    if a.Work? {
      ControlWorker(c, s, a.choice);
    }
  }
}
