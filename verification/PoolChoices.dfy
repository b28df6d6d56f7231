/** What each call and each goroutine may do next, and so when it has to wait, written out
    from the state alone; and that nothing a run has done is undone later. */
module PoolChoices {
  import opened PoolState
  import opened PoolSafety
  import opened PoolBounds
  import opened PoolShutdown

  // ----- the calls -----

  /** One step of call `c` can take it here. */
  ghost predicate CallCan(s: State, c: Ticket, next: Call) {
    exists a :: StepOf(a, c) && Enabled(s, a) && CallIs(Apply(s, a), c, next)
  }

  predicate CallIs(s: State, c: Ticket, call: Call) { c in s.calls && s.calls[c] == call }

  lemma CallTakes(s: State, c: Ticket, a: Action)
    requires StepOf(a, c) && Enabled(s, a) && c in Apply(s, a).calls
    ensures CallCan(s, c, Apply(s, a).calls[c])
  {
    assert CallIs(Apply(s, a), c, Apply(s, a).calls[c]);
  }

  ghost predicate SubmitCan(s: State, c: Ticket, next: SubmitPc) {
    exists step :: SubmitEnabled(s, c, step) && SubmitNext(s, c, step) == next
  }

  lemma SubmitSteps(s: State, c: Ticket, next: SubmitPc)
    requires c in s.calls && s.calls[c].SubmitCall?
    ensures CallCan(s, c, SubmitCall(s.calls[c].ctx, s.calls[c].nilJob, next)) <==> SubmitCan(s, c, next)
  {
    var call := SubmitCall(s.calls[c].ctx, s.calls[c].nilJob, next);
    if CallCan(s, c, call) {
      var a :| StepOf(a, c) && Enabled(s, a) && CallIs(Apply(s, a), c, call);
      assert SubmitEnabled(s, c, a.submit);
    }
    if step :| SubmitEnabled(s, c, step) && SubmitNext(s, c, step) == next {
      CallTakes(s, c, SubmitOf(c, step));
    }
  }

  lemma SubmitOffers(s: State, c: Ticket, next: SubmitPc)
    ensures SubmitCan(s, c, next)
       <==> || (SubmitEnabled(s, c, TestStarted) && SubmitNext(s, c, TestStarted) == next)
            || (SubmitEnabled(s, c, CheckStop) && SubmitNext(s, c, CheckStop) == next)
            || (SubmitEnabled(s, c, SelectStop) && SubmitNext(s, c, SelectStop) == next)
            || (SubmitEnabled(s, c, SelectCtx) && SubmitNext(s, c, SelectCtx) == next)
            || (SubmitEnabled(s, c, SelectSend) && SubmitNext(s, c, SelectSend) == next)
  {
    if SubmitCan(s, c, next) {
      var step :| SubmitEnabled(s, c, step) && SubmitNext(s, c, step) == next;
      assert step == TestStarted || step == CheckStop || step == SelectStop || step == SelectCtx || step == SelectSend;
    }
  }

  /** The next result or stop of a Submit.  At its second select each of the three outcomes
      is possible exactly when its case is ready, whatever else is ready; it waits when
      none is. */
  lemma SubmitChoices(s: State, c: Ticket, next: SubmitPc)
    requires c in s.calls && s.calls[c].SubmitCall?
    ensures var SubmitCall(ctx, nilJob, pc) := s.calls[c];
            CallCan(s, c, SubmitCall(ctx, nilJob, next))
            <==> (match pc
                  case SubmitLoad =>
                    if !s.started then next == SubmitReturned(SubmitNotStarted)
                    else if nilJob then next == SubmitReturned(NilJob)
                    else next == StopCheck
                  case StopCheck => if s.stop then next == SubmitReturned(Stopped) else next == SendSelect
                  case SendSelect =>
                    || (next == SubmitReturned(Stopped) && s.stop)
                    || (next == SubmitReturned(SubmitContextDone) && ctx in s.cancelled)
                    || (next == SubmitReturned(Accepted) && |s.jobs| < s.capacity)
                  case SubmitReturned(_) => false)
  {
    SubmitSteps(s, c, next);
    SubmitOffers(s, c, next);
  }

  ghost predicate ShutdownCan(s: State, c: Ticket, next: ShutdownPc) {
    exists step :: ShutdownEnabled(s, c, step) && ShutdownNext(s, c, step) == next
  }

  lemma ShutdownSteps(s: State, c: Ticket, next: ShutdownPc)
    requires c in s.calls && s.calls[c].ShutdownCall?
    ensures CallCan(s, c, ShutdownCall(s.calls[c].ctx, next)) <==> ShutdownCan(s, c, next)
  {
    var call := ShutdownCall(s.calls[c].ctx, next);
    if CallCan(s, c, call) {
      var a :| StepOf(a, c) && Enabled(s, a) && CallIs(Apply(s, a), c, call);
      assert ShutdownEnabled(s, c, a.shutdown);
    }
    if step :| ShutdownEnabled(s, c, step) && ShutdownNext(s, c, step) == next {
      CallTakes(s, c, ShutdownOf(c, step));
    }
  }

  lemma ShutdownOffers(s: State, c: Ticket, next: ShutdownPc)
    ensures ShutdownCan(s, c, next)
       <==> || (ShutdownEnabled(s, c, TestFlag) && ShutdownNext(s, c, TestFlag) == next)
            || (ShutdownEnabled(s, c, StopEnter) && ShutdownNext(s, c, StopEnter) == next)
            || (ShutdownEnabled(s, c, StopPass) && ShutdownNext(s, c, StopPass) == next)
            || (ShutdownEnabled(s, c, StopClose) && ShutdownNext(s, c, StopClose) == next)
            || (ShutdownEnabled(s, c, StopLeave) && ShutdownNext(s, c, StopLeave) == next)
            || (ShutdownEnabled(s, c, SelectDone) && ShutdownNext(s, c, SelectDone) == next)
            || (ShutdownEnabled(s, c, SelectCancel) && ShutdownNext(s, c, SelectCancel) == next)
  {
    if ShutdownCan(s, c, next) {
      var step :| ShutdownEnabled(s, c, step) && ShutdownNext(s, c, step) == next;
      assert step == TestFlag || step == StopEnter || step == StopPass || step == StopClose || step == StopLeave || step == SelectDone || step == SelectCancel;
    }
  }

  /** The next result or stop of a Shutdown.  It waits for whoever is in the body of
      stopOnce and then, at its select, until `done` is closed or its own context is
      cancelled: either is enough to return at once. */
  lemma ShutdownChoices(s: State, c: Ticket, next: ShutdownPc)
    requires c in s.calls && s.calls[c].ShutdownCall?
    ensures var ShutdownCall(ctx, pc) := s.calls[c];
            CallCan(s, c, ShutdownCall(ctx, next))
            <==> (match pc
                  case ShutdownLoad => if s.started then next == StopDo else next == ShutdownReturned(ShutdownNotStarted)
                  case StopDo =>
                    || (next == ShutdownPc.CloseStop && s.stopOnce.Fresh?)
                    || (next == DoneSelect && s.stopOnce.Finished?)
                  case CloseStop => next == LeaveStopOnce
                  case LeaveStopOnce => next == DoneSelect
                  case DoneSelect =>
                    || (next == ShutdownReturned(AllExited) && s.done)
                    || (next == ShutdownReturned(ShutdownContextDone) && ctx in s.cancelled)
                  case ShutdownReturned(_) => false)
  {
    ShutdownSteps(s, c, next);
    ShutdownOffers(s, c, next);
  }

  ghost predicate StartCan(s: State, c: Ticket, next: StartPc) {
    exists step :: StartEnabled(s, c, step) && StartNext(s, c, step) == next
  }

  lemma StartSteps(s: State, c: Ticket, next: StartPc)
    requires c in s.calls && s.calls[c].StartCall?
    ensures CallCan(s, c, StartCall(s.calls[c].ctx, next)) <==> StartCan(s, c, next)
  {
    var call := StartCall(s.calls[c].ctx, next);
    if CallCan(s, c, call) {
      var a :| StepOf(a, c) && Enabled(s, a) && CallIs(Apply(s, a), c, call);
      assert StartEnabled(s, c, a.start);
    }
    if step :| StartEnabled(s, c, step) && StartNext(s, c, step) == next {
      CallTakes(s, c, StartOf(c, step));
    }
  }

  lemma StartOffers(s: State, c: Ticket, next: StartPc)
    ensures StartCan(s, c, next)
       <==> || (StartEnabled(s, c, StartEnter) && StartNext(s, c, StartEnter) == next)
            || (StartEnabled(s, c, StartPass) && StartNext(s, c, StartPass) == next)
            || (StartEnabled(s, c, StoreFlag) && StartNext(s, c, StoreFlag) == next)
            || (StartEnabled(s, c, AddWorkers) && StartNext(s, c, AddWorkers) == next)
            || (StartEnabled(s, c, GoWorker) && StartNext(s, c, GoWorker) == next)
            || (StartEnabled(s, c, GoWatcher) && StartNext(s, c, GoWatcher) == next)
            || (StartEnabled(s, c, GoCloser) && StartNext(s, c, GoCloser) == next)
            || (StartEnabled(s, c, StartLeave) && StartNext(s, c, StartLeave) == next)
  {
    if StartCan(s, c, next) {
      var step :| StartEnabled(s, c, step) && StartNext(s, c, step) == next;
      assert step == StartEnter || step == StartPass || step == StoreFlag || step == AddWorkers || step == GoWorker || step == GoWatcher || step == GoCloser || step == StartLeave;
    }
  }

  /** The next stop of a Start: the first to get to startOnce runs its body to the end,
      without waiting, and the others wait for it. */
  lemma StartChoices(s: State, c: Ticket, next: StartPc)
    requires c in s.calls && s.calls[c].StartCall?
    ensures var StartCall(ctx, pc) := s.calls[c];
            CallCan(s, c, StartCall(ctx, next))
            <==> (match pc
                  case StartDo =>
                    || (next == StoreStarted && s.startOnce.Fresh?)
                    || (next == StartReturned && s.startOnce.Finished?)
                  case StoreStarted => next == AddGroup
                  case AddGroup => next == if s.concurrency == 0 then SpawnWatcher else SpawnWorker(0)
                  case SpawnWorker(i) => next == if i + 1 < s.concurrency then SpawnWorker(i + 1) else SpawnWatcher
                  case SpawnWatcher => next == SpawnCloser
                  case SpawnCloser => next == LeaveStartOnce
                  case LeaveStartOnce => next == StartReturned
                  case StartReturned => false)
  {
    StartSteps(s, c, next);
    StartOffers(s, c, next);
  }

  /** A call that waits at its select and whose context is cancelled can return the error
      at once, whoever else is still running, and changes nothing else. */
  lemma PromptReturn(s: State, c: Ticket) returns (a: Action)
    requires c in s.calls && s.calls[c].ctx in s.cancelled
    requires match s.calls[c]
             case SubmitCall(_, _, pc) => pc == SendSelect
             case ShutdownCall(_, pc) => pc == DoneSelect
             case StartCall(_, _) => false
    ensures StepOf(a, c) && Legal(s, [a])
    ensures After(s, [a])
         == s.(calls := s.calls[c :=
                 match s.calls[c]
                 case SubmitCall(ctx, nilJob, _) => SubmitCall(ctx, nilJob, SubmitReturned(SubmitContextDone))
                 case ShutdownCall(ctx, _) => ShutdownCall(ctx, ShutdownReturned(ShutdownContextDone))
                 case StartCall(_, _) => s.calls[c]])
  {
    a := if s.calls[c].SubmitCall? then SubmitOf(c, SelectCtx) else ShutdownOf(c, SelectCancel);
    assert [a][1..] == [];
    assert Legal(Apply(s, a), []);
  }

  // ----- the goroutines -----

  ghost predicate WorkerCan(s: State, w: nat, next: WorkerPc) {
    exists step :: WorkerEnabled(s, w, step) && WorkerIs(Apply(s, WorkerOf(w, step)), w, next)
  }

  predicate WorkerIs(s: State, w: nat, pc: WorkerPc) { w < |s.workers| && s.workers[w].pc == pc }

  lemma WorkerSteps(s: State, w: nat, next: WorkerPc)
    ensures WorkerCan(s, w, next) <==> exists step :: WorkerEnabled(s, w, step) && WorkerNext(s, w, step) == next
  {
    if step :| WorkerEnabled(s, w, step) && WorkerNext(s, w, step) == next {
      assert WorkerIs(Apply(s, WorkerOf(w, step)), w, next);
    }
  }

  lemma WorkerOffers(s: State, w: nat, next: WorkerPc)
    ensures (exists step :: WorkerEnabled(s, w, step) && WorkerNext(s, w, step) == next)
       <==> || (WorkerEnabled(s, w, TakeStop) && WorkerNext(s, w, TakeStop) == next)
            || (WorkerEnabled(s, w, TakeJob) && WorkerNext(s, w, TakeJob) == next)
            || (WorkerEnabled(s, w, CheckCtx) && WorkerNext(s, w, CheckCtx) == next)
            || (WorkerEnabled(s, w, BeginJob) && WorkerNext(s, w, BeginJob) == next)
            || (WorkerEnabled(s, w, FinishJob) && WorkerNext(s, w, FinishJob) == next)
            || (WorkerEnabled(s, w, WorkerStep.GroupDone) && WorkerNext(s, w, WorkerStep.GroupDone) == next)
  {
    if step :| WorkerEnabled(s, w, step) && WorkerNext(s, w, step) == next {
      assert step == TakeStop || step == TakeJob || step == CheckCtx || step == BeginJob || step == FinishJob || step == WorkerStep.GroupDone;
    }
  }

  /** A worker waits for a job or for `stop`, and picks freely if both are there; it looks
      at its context once for each job, and never waits otherwise. */
  lemma WorkerChoices(s: State, w: nat, next: WorkerPc)
    requires w < |s.workers|
    ensures var Worker(ctx, pc) := s.workers[w];
            WorkerCan(s, w, next)
            <==> (match pc
                  case JobSelect => (next == Leaving && s.stop) || (s.jobs != [] && next == Holding(s.jobs[0]))
                  case Holding(job) => if ctx in s.cancelled then next == Leaving else next == Cleared(job)
                  case Cleared(job) => next == Running(job)
                  case Running(_) => next == JobSelect
                  case Leaving => next == Exited
                  case Exited => false)
  {
    WorkerSteps(s, w, next);
    WorkerOffers(s, w, next);
  }

  ghost predicate WatcherCan(s: State, k: nat, next: WatcherPc) {
    exists step :: WatcherEnabled(s, k, step) && WatcherIs(Apply(s, WatcherOf(k, step)), k, next)
  }

  predicate WatcherIs(s: State, k: nat, pc: WatcherPc) { k < |s.watchers| && s.watchers[k].pc == pc }

  lemma WatcherSteps(s: State, k: nat, next: WatcherPc)
    ensures WatcherCan(s, k, next) <==> exists step :: WatcherEnabled(s, k, step) && WatcherNext(s, k, step) == next
  {
    if step :| WatcherEnabled(s, k, step) && WatcherNext(s, k, step) == next {
      assert WatcherIs(Apply(s, WatcherOf(k, step)), k, next);
    }
  }

  lemma WatcherOffers(s: State, k: nat, next: WatcherPc)
    ensures (exists step :: WatcherEnabled(s, k, step) && WatcherNext(s, k, step) == next)
       <==> || (WatcherEnabled(s, k, WatchCtx) && WatcherNext(s, k, WatchCtx) == next)
            || (WatcherEnabled(s, k, WatchDone) && WatcherNext(s, k, WatchDone) == next)
            || (WatcherEnabled(s, k, WatchEnter) && WatcherNext(s, k, WatchEnter) == next)
            || (WatcherEnabled(s, k, WatchPass) && WatcherNext(s, k, WatchPass) == next)
            || (WatcherEnabled(s, k, WatchCloseStop) && WatcherNext(s, k, WatchCloseStop) == next)
            || (WatcherEnabled(s, k, WatchLeaveOnce) && WatcherNext(s, k, WatchLeaveOnce) == next)
  {
    if step :| WatcherEnabled(s, k, step) && WatcherNext(s, k, step) == next {
      assert step == WatchCtx || step == WatchDone || step == WatchEnter || step == WatchPass || step == WatchCloseStop || step == WatchLeaveOnce;
    }
  }

  /** The watcher waits for the cancellation of its context or for `done`, not for `stop`;
      on the first it sees to it that `stop` is closed, on the second it leaves. */
  lemma WatcherChoices(s: State, k: nat, next: WatcherPc)
    requires k < |s.watchers|
    ensures var Watcher(ctx, pc) := s.watchers[k];
            WatcherCan(s, k, next)
            <==> (match pc
                  case WatchSelect => (next == WatchDo && ctx in s.cancelled) || (next == WatchExited && s.done)
                  case WatchDo =>
                    || (next == WatchClose && s.stopOnce.Fresh?)
                    || (next == WatchExited && s.stopOnce.Finished?)
                  case WatchClose => next == WatchLeave
                  case WatchLeave => next == WatchExited
                  case WatchExited => false)
  {
    WatcherSteps(s, k, next);
    WatcherOffers(s, k, next);
  }

  ghost predicate CloserCan(s: State, k: nat, next: CloserPc) {
    exists step :: CloserEnabled(s, k, step) && CloserIs(Apply(s, CloserOf(k, step)), k, next)
  }

  predicate CloserIs(s: State, k: nat, pc: CloserPc) { k < |s.closers| && s.closers[k] == pc }

  /** The closer waits for the WaitGroup to be at zero and for nothing else. */
  lemma CloserChoices(s: State, k: nat, next: CloserPc)
    requires k < |s.closers|
    ensures CloserCan(s, k, next)
            <==> (match s.closers[k]
                  case AwaitGroup => next == CloseDone && s.wg == 0
                  case CloseDone => next == CloserExited
                  case CloserExited => false)
  {
    match s.closers[k]
    case AwaitGroup =>
      if s.wg == 0 {
        assert CloserIs(Apply(s, CloserOf(k, GroupWaited)), k, CloseDone);
      }
    case CloseDone =>
      assert CloserIs(Apply(s, CloserOf(k, CloseDoneChannel)), k, CloserExited);
    case CloserExited =>
  }

  // ----- nothing is undone -----

  predicate Extends(s: Logs, t: Logs) {
    s.accepted <= t.accepted && s.dequeued <= t.dequeued && s.begun <= t.begun
    && s.completed <= t.completed && s.discarded <= t.discarded
  }

  /** Flags stay set, contexts stay cancelled, what happened to jobs stays happened,
      results of calls stay as they are, and who has exited stays away. */
  ghost predicate NotUndone(s: State, t: State) {
    && (s.started ==> t.started) && (s.stop ==> t.stop) && (s.done ==> t.done)
    && s.cancelled <= t.cancelled && Extends(s.log, t.log)
    && (forall c :: c in s.calls ==> c in t.calls && (Returned(s.calls[c]) ==> t.calls[c] == s.calls[c]))
    && |s.workers| <= |t.workers|
    && (forall w :: 0 <= w < |s.workers| ==> t.workers[w].ctx == s.workers[w].ctx)
    && (forall w :: 0 <= w < |s.workers| && s.workers[w].pc.Exited? ==> t.workers[w].pc.Exited?)
  }

  lemma StepUndoesNothing(s: State, a: Action)
    requires Enabled(s, a)
    ensures NotUndone(s, Apply(s, a))
  {
    if a.WorkerOf? {
      WorkerUndoesNothing(s, a.w, a.worker);
    } else {
      WorkLogsKept(s, a);
      AcceptedStep(s, a);
      OthersUndoNothing(s, a);
    }
  }

  lemma WorkerUndoesNothing(s: State, w: nat, step: WorkerStep)
    requires WorkerEnabled(s, w, step)
    ensures NotUndone(s, WorkerMove(s, w, step))
  {
  }

  lemma OthersUndoNothing(s: State, a: Action)
    requires Enabled(s, a) && !a.WorkerOf?
    ensures var t := Apply(s, a);
            && (s.started ==> t.started) && (s.stop ==> t.stop) && (s.done ==> t.done)
            && s.cancelled <= t.cancelled && t.log.completed == s.log.completed
            && (forall c :: c in s.calls ==> c in t.calls && (Returned(s.calls[c]) ==> t.calls[c] == s.calls[c]))
  {
  }

  lemma {:induction false} NothingUndone(s: State, run: seq<Action>)
    requires Legal(s, run)
    ensures NotUndone(s, After(s, run))
    decreases run
  {
    if run == [] {
    } else {
      StepUndoesNothing(s, run[0]);
      NothingUndone(Apply(s, run[0]), run[1..]);
    }
  }

  // ----- the start context -----

  ghost predicate FromStart(s: State) {
    s.root.Some? ==>
      exists c :: c in s.calls && s.calls[c].StartCall? && !s.calls[c].start.StartDo? && s.calls[c].ctx == s.root.value
  }

  lemma StepKeepsFromStart(s: State, a: Action)
    requires FromStart(s) && Enabled(s, a)
    ensures FromStart(Apply(s, a))
  {
    var t := Apply(s, a);
    if a.StartOf? && a.start.StartEnter? {
      assert t.calls[a.c].ctx == t.root.value && !t.calls[a.c].start.StartDo?;
    } else if s.root.Some? {
      var c :| c in s.calls && s.calls[c].StartCall? && !s.calls[c].start.StartDo? && s.calls[c].ctx == s.root.value;
      StartedStays(s, a, c);
    }
  }

  lemma StartedStays(s: State, a: Action, c: Ticket)
    requires Enabled(s, a) && !(a.StartOf? && a.start.StartEnter?)
    requires c in s.calls && s.calls[c].StartCall? && !s.calls[c].start.StartDo?
    ensures var t := Apply(s, a);
            && t.root == s.root && c in t.calls && t.calls[c].StartCall? && !t.calls[c].start.StartDo?
            && t.calls[c].ctx == s.calls[c].ctx
  {
  }

  lemma {:induction false} RunKeepsFromStart(s: State, run: seq<Action>)
    requires FromStart(s) && Legal(s, run)
    ensures FromStart(After(s, run))
    decreases run
  {
    if run == [] {
    } else {
      StepKeepsFromStart(s, run[0]);
      RunKeepsFromStart(Apply(s, run[0]), run[1..]);
    }
  }

  /** All workers and the watcher run with the context of one Start call, that of the call
      which entered startOnce. */
  lemma StartContext(concurrency: nat, capacity: nat, run: seq<Action>)
    requires PoolRun(concurrency, capacity, run)
    ensures var s := End(concurrency, capacity, run);
            s.workers != [] ==>
              exists c :: c in s.calls && s.calls[c].StartCall? && !s.calls[c].start.StartDo?
                && (forall w :: 0 <= w < |s.workers| ==> s.workers[w].ctx == s.calls[c].ctx)
                && (forall k :: 0 <= k < |s.watchers| ==> s.watchers[k].ctx == s.calls[c].ctx)
  {
    PoolRunInv(concurrency, capacity, run);
    RunKeepsFromStart(Init(concurrency, capacity), run);
  }
}
