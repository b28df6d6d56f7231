/** The pool comes to rest: without new calls every run ends, once `stop` is closed even
    with them its goroutines take boundedly many steps, it never gets stuck on the way, and
    this is what it looks like at rest. */
module PoolShutdown {
  import opened PoolState
  import opened Sums
  import opened PoolInvariant
  import opened PoolSafety
  import opened PoolBounds

  // ----- a bound on the steps still to come -----

  function WorkerRank(w: Worker): nat {
    match w.pc
    case Holding(_) => 5
    case Cleared(_) => 4
    case Running(_) => 3
    case JobSelect => 2
    case Leaving => 1
    case Exited => 0
  }

  function WatcherRank(w: Watcher): nat {
    match w.pc
    case WatchSelect => 4
    case WatchDo => 3
    case WatchClose => 2
    case WatchLeave => 1
    case WatchExited => 0
  }

  function CloserRank(c: CloserPc): nat {
    match c
    case AwaitGroup => 2
    case CloseDone => 1
    case CloserExited => 0
  }

  /** The work left in the body of startOnce, counting what the goroutines it has still to
      spawn will do. */
  function StageRank(s: State, stage: StartPc): nat {
    match stage
    case StartDo => 12 + 3 * s.concurrency
    case StoreStarted => 11 + 3 * s.concurrency
    case AddGroup => 10 + 3 * s.concurrency
    case SpawnWorker(i) => if i < s.concurrency then 9 + 3 * (s.concurrency - i) else 9
    case SpawnWatcher => 9
    case SpawnCloser => 4
    case LeaveStartOnce => 1
    case StartReturned => 0
  }

  /** A step of the pool itself: of its workers, watcher or closer, or of the body of
      startOnce. */
  predicate ByPool(a: Action) {
    a.WorkerOf? || a.WatcherOf? || a.CloserOf? || (a.StartOf? && !a.start.StartPass?)
  }

  /** The same, or a Submit deciding its second select.  What is left are new calls,
      cancellations, and calls finding out that they have nothing to do. */
  predicate PoolStep(a: Action) {
    ByPool(a) || (a.SubmitOf? && (a.submit.SelectStop? || a.submit.SelectCtx? || a.submit.SelectSend?))
  }

  /** What the goroutines and the body of startOnce have still to do. */
  function PoolWork(s: State): nat {
    4 * |s.jobs|
    + Total(s.workers, WorkerRank) + Total(s.watchers, WatcherRank) + Total(s.closers, CloserRank)
    + StageRank(s, Stage(s))
  }

  lemma StartSpends(s: State, c: Ticket, step: StartStep)
    requires StartInv(s) && StartEnabled(s, c, step)
    ensures PoolWork(StartMove(s, c, step)) + (if step.StartPass? then 0 else 1) <= PoolWork(s)
  {
    if step.GoWorker? {
      TotalAppend(s.workers, Worker(s.calls[c].ctx, JobSelect), WorkerRank);
    } else if step.GoWatcher? {
      TotalAppend(s.watchers, Watcher(s.calls[c].ctx, WatchSelect), WatcherRank);
    } else if step.GoCloser? {
      TotalAppend(s.closers, AwaitGroup, CloserRank);
    }
    StageSpends(s, c, step);
  }

  lemma StageSpends(s: State, c: Ticket, step: StartStep)
    requires StartInv(s) && StartEnabled(s, c, step)
    ensures var t := StartMove(s, c, step);
            var created := if step.GoWorker? then 2 else if step.GoWatcher? then 4 else if step.GoCloser? then 2 else 0;
            StageRank(t, Stage(t)) + created + (if step.StartPass? then 0 else 1) <= StageRank(s, Stage(s))
  {
  }

  lemma WorkerSpends(s: State, w: nat, step: WorkerStep)
    requires WorkerEnabled(s, w, step)
    ensures PoolWork(WorkerMove(s, w, step)) < PoolWork(s)
  {
    assert Stage(WorkerMove(s, w, step)) == Stage(s);
    TotalUpdate(s.workers, w, Worker(s.workers[w].ctx, WorkerNext(s, w, step)), WorkerRank);
  }

  lemma WatcherSpends(s: State, k: nat, step: WatcherStep)
    requires WatcherEnabled(s, k, step)
    ensures PoolWork(WatcherMove(s, k, step)) < PoolWork(s)
  {
    assert Stage(WatcherMove(s, k, step)) == Stage(s);
    TotalUpdate(s.watchers, k, Watcher(s.watchers[k].ctx, WatcherNext(s, k, step)), WatcherRank);
  }

  lemma CloserSpends(s: State, k: nat, step: CloserStep)
    requires CloserEnabled(s, k, step)
    ensures PoolWork(CloserMove(s, k, step)) < PoolWork(s)
  {
    assert Stage(CloserMove(s, k, step)) == Stage(s);
    TotalUpdate(s.closers, k, if step.GroupWaited? then CloseDone else CloserExited, CloserRank);
  }

  lemma OthersSpend(s: State, a: Action)
    requires StartInv(s) && Enabled(s, a) && (a.Invoke? || a.Cancel? || a.SubmitOf? || a.ShutdownOf?)
    ensures PoolWork(Apply(s, a)) == PoolWork(s) + (if Sends(a) then 4 else 0)
  {
    assert Stage(Apply(s, a)) == Stage(s);
  }

  /** Only an accepted job adds to the work, and every step of the pool reduces it. */
  lemma PoolWorkStep(s: State, a: Action)
    requires StartInv(s) && Enabled(s, a)
    ensures PoolWork(Apply(s, a)) + (if ByPool(a) then 1 else 0) <= PoolWork(s) + (if Sends(a) then 4 else 0)
  {
    match a
    case StartOf(c, step) => StartSpends(s, c, step);
    case WorkerOf(w, step) => WorkerSpends(s, w, step);
    case WatcherOf(k, step) => WatcherSpends(s, k, step);
    case CloserOf(k, step) => CloserSpends(s, k, step);
    case _ => OthersSpend(s, a);
  }

  /** The work the pool can still be given once `stop` is closed included. */
  function Work(s: State): nat { PoolWork(s) + 5 * SendersLeft(s) }

  lemma WorkStep(s: State, a: Action)
    requires StoppedInv(s) && Enabled(s, a)
    ensures Work(Apply(s, a)) + (if PoolStep(a) then 1 else 0) <= Work(s)
  {
    PoolWorkStep(s, a);
    SendersStep(s, a);
  }

  /** Once `stop` is closed the pool takes at most `Work(s)` further steps, however many
      new calls arrive meanwhile. */
  lemma {:induction false} BoundedAfterStop(s: State, run: seq<Action>)
    requires Inv(s) && s.stop && Legal(s, run)
    ensures Count(run, PoolStep) <= Work(s)
  {
    forall t, a | StoppedInv(t) && Enabled(t, a)
      ensures StoppedInv(Apply(t, a)) && Work(Apply(t, a)) + (if PoolStep(a) then 1 else 0) <= Work(t)
    {
      LateSendStep(t, a);
      WorkStep(t, a);
    }
    Spend(s, run, t => StoppedInv(t), PoolStep, Work);
  }

  // ----- the calls themselves -----

  /** The steps a call can still take. */
  function Rank(concurrency: nat, call: Call): nat {
    match call
    case StartCall(_, StartDo) => concurrency + 6
    case StartCall(_, StoreStarted) => concurrency + 5
    case StartCall(_, AddGroup) => concurrency + 4
    case StartCall(_, SpawnWorker(i)) => if i < concurrency then concurrency - i + 3 else 3
    case StartCall(_, SpawnWatcher) => 3
    case StartCall(_, SpawnCloser) => 2
    case StartCall(_, LeaveStartOnce) => 1
    case StartCall(_, StartReturned) => 0
    case SubmitCall(_, _, SubmitLoad) => 3
    case SubmitCall(_, _, StopCheck) => 2
    case SubmitCall(_, _, SendSelect) => 1
    case SubmitCall(_, _, SubmitReturned(_)) => 0
    case ShutdownCall(_, ShutdownLoad) => 5
    case ShutdownCall(_, StopDo) => 4
    case ShutdownCall(_, CloseStop) => 3
    case ShutdownCall(_, LeaveStopOnce) => 2
    case ShutdownCall(_, DoneSelect) => 1
    case ShutdownCall(_, ShutdownReturned(_)) => 0
  }

  function CallRank(s: State, c: Ticket): nat {
    if c in s.calls then Rank(s.concurrency, s.calls[c]) else s.concurrency + 7
  }

  /** A step taken by call `c`. */
  predicate StepOf(a: Action, c: Ticket) {
    (a.StartOf? || a.SubmitOf? || a.ShutdownOf?) && a.c == c
  }

  lemma CallStep(s: State, a: Action, c: Ticket)
    requires Inv(s) && Enabled(s, a)
    ensures CallRank(Apply(s, a), c) + (if StepOf(a, c) then 1 else 0) <= CallRank(s, c)
  {
    if a.StartOf? {
      StartCallStep(s, a.c, a.start, c);
    } else if a.SubmitOf? {
      SubmitCallStep(s, a.c, a.submit, c);
    } else if a.ShutdownOf? {
      ShutdownCallStep(s, a.c, a.shutdown, c);
    } else {
      OtherCallStep(s, a, c);
    }
  }

  lemma OtherCallStep(s: State, a: Action, c: Ticket)
    requires Inv(s) && Enabled(s, a) && !a.StartOf? && !a.SubmitOf? && !a.ShutdownOf?
    ensures CallRank(Apply(s, a), c) <= CallRank(s, c)
  {
  }

  lemma SubmitCallStep(s: State, d: Ticket, step: SubmitStep, c: Ticket)
    requires SubmitEnabled(s, d, step)
    ensures CallRank(SubmitMove(s, d, step), c) + (if c == d then 1 else 0) <= CallRank(s, c)
  {
  }

  lemma ShutdownCallStep(s: State, d: Ticket, step: ShutdownStep, c: Ticket)
    requires ShutdownEnabled(s, d, step)
    ensures CallRank(ShutdownMove(s, d, step), c) + (if c == d then 1 else 0) <= CallRank(s, c)
  {
  }

  lemma StartCallStep(s: State, d: Ticket, step: StartStep, c: Ticket)
    requires StartInv(s) && StartEnabled(s, d, step)
    ensures CallRank(StartMove(s, d, step), c) + (if c == d then 1 else 0) <= CallRank(s, c)
  {
  }

  /** A call never loops: in any run a Submit takes at most 3 steps, a Shutdown at most 5
      and a Start at most `concurrency` + 6, so a call that has not returned is blocked. */
  lemma {:induction false} CallsAreFinite(s: State, run: seq<Action>, c: Ticket)
    requires Inv(s) && Legal(s, run) && c in s.calls && AtEntry(s.calls[c])
    ensures Count(run, a => StepOf(a, c))
         <= (if s.calls[c].StartCall? then s.concurrency + 6 else if s.calls[c].SubmitCall? then 3 else 5)
  {
    var k := (a: Action) => StepOf(a, c);
    var phi := (t: State) => CallRank(t, c);
    forall t, a | Inv(t) && Enabled(t, a)
      ensures Inv(Apply(t, a)) && phi(Apply(t, a)) + (if k(a) then 1 else 0) <= phi(t)
    {
      StepKeepsInv(t, a);
      CallStep(t, a, c);
    }
    Spend(s, run, t => Inv(t), k, phi);
  }

  /** What a call can still do or cause: its own steps, and the 4 steps its job may take. */
  function Weight(concurrency: nat, call: Call): nat {
    Rank(concurrency, call) + (if call.SubmitCall? && !call.submit.SubmitReturned? then 4 else 0)
  }

  ghost function Weights(concurrency: nat, calls: map<Ticket, Call>): nat
    decreases |calls|
  {
    if calls == map[] then 0
    else var c :| c in calls; Weight(concurrency, calls[c]) + Weights(concurrency, calls - {c})
  }

  lemma {:induction false} WeightsRemove(concurrency: nat, calls: map<Ticket, Call>, c: Ticket)
    requires c in calls
    ensures Weights(concurrency, calls) == Weight(concurrency, calls[c]) + Weights(concurrency, calls - {c})
    decreases |calls|
  {
    var d :| d in calls && Weights(concurrency, calls) == Weight(concurrency, calls[d]) + Weights(concurrency, calls - {d});
    if d == c {
    } else {
      WeightsRemove(concurrency, calls - {d}, c);
      WeightsRemove(concurrency, calls - {c}, d);
      assert calls - {d} - {c} == calls - {c} - {d};
    }
  }

  lemma WeightsUpdate(concurrency: nat, calls: map<Ticket, Call>, c: Ticket, call: Call)
    requires c in calls
    ensures Weights(concurrency, calls[c := call]) + Weight(concurrency, calls[c])
         == Weights(concurrency, calls) + Weight(concurrency, call)
  {
    WeightsRemove(concurrency, calls, c);
    WeightsRemove(concurrency, calls[c := call], c);
    assert calls[c := call] - {c} == calls - {c};
  }

  /** Not a choice of the environment. */
  predicate Internal(a: Action) { !a.Invoke? && !a.Cancel? }

  predicate ByCaller(a: Action) { a.StartOf? || a.SubmitOf? || a.ShutdownOf? }

  lemma WeightStep(s: State, a: Action)
    requires Inv(s) && Enabled(s, a) && ByCaller(a)
    ensures var t := Apply(s, a);
            && t.concurrency == s.concurrency && a.c in s.calls && a.c in t.calls && t.calls == s.calls[a.c := t.calls[a.c]]
            && Weight(t.concurrency, t.calls[a.c]) + 1 + (if Sends(a) then 4 else 0) <= Weight(s.concurrency, s.calls[a.c])
  {
    CallStep(s, a, a.c);
  }

  lemma WeightsStep(s: State, a: Action)
    requires Inv(s) && Enabled(s, a) && Internal(a)
    ensures var t := Apply(s, a);
            Weights(t.concurrency, t.calls) + (if ByCaller(a) then 1 else 0) + (if Sends(a) then 4 else 0)
            <= Weights(s.concurrency, s.calls)
  {
    var t := Apply(s, a);
    if ByCaller(a) {
      WeightStep(s, a);
      WeightsUpdate(s.concurrency, s.calls, a.c, t.calls[a.c]);
    } else {
      assert t.calls == s.calls && t.concurrency == s.concurrency;
    }
  }

  /** A bound on all steps still to come if nobody makes a new call. */
  ghost function Measure(s: State): nat { PoolWork(s) + Weights(s.concurrency, s.calls) }

  ghost predicate NoNewCall(run: seq<Action>) {
    forall i :: 0 <= i < |run| ==> !run[i].Invoke?
  }

  lemma MeasureStep(s: State, a: Action)
    requires Inv(s) && Enabled(s, a) && !a.Invoke?
    ensures Measure(Apply(s, a)) + (if Internal(a) then 1 else 0) <= Measure(s)
  {
    PoolWorkStep(s, a);
    if Internal(a) {
      WeightsStep(s, a);
    }
  }

  /** If jobs return, everything ends: without new calls every step but a cancellation
      lowers the measure, and a cancellation does not raise it, in every state a run
      reaches, so no such run has more other steps than the measure. */
  lemma {:induction false} Terminates(s: State, run: seq<Action>)
    requires Inv(s) && Legal(s, run) && NoNewCall(run)
    ensures Count(run, Internal) + Measure(After(s, run)) <= Measure(s)
    decreases run
  {
    if run == [] {
    } else {
      StepKeepsInv(s, run[0]);
      MeasureStep(s, run[0]);
      Terminates(Apply(s, run[0]), run[1..]);
    }
  }

  ghost predicate AllInternal(run: seq<Action>) {
    forall i :: 0 <= i < |run| ==> Internal(run[i])
  }

  lemma {:induction false} InternalCount(run: seq<Action>)
    requires AllInternal(run)
    ensures Count(run, Internal) == |run|
  {
    if run == [] {
    } else {
      InternalCount(run[1..]);
    }
  }

  /** Without cancellations either, no run is longer than the measure. */
  lemma RunsEnd(s: State, run: seq<Action>)
    requires Inv(s) && Legal(s, run) && AllInternal(run)
    ensures |run| + Measure(After(s, run)) <= Measure(s)
  {
    Terminates(s, run);
    InternalCount(run);
  }

  // ----- progress -----

  ghost predicate NothingMoves(s: State) {
    forall a :: Internal(a) ==> !Enabled(s, a)
  }

  predicate Returned(call: Call) {
    match call
    case StartCall(_, pc) => pc.StartReturned?
    case SubmitCall(_, _, pc) => pc.SubmitReturned?
    case ShutdownCall(_, pc) => pc.ShutdownReturned?
  }

  /** Everything is over: the full set of goroutines has exited, `done` is closed and every
      call has returned. */
  ghost predicate ShutDown(s: State) {
    && s.stop && s.done
    && |s.workers| == s.concurrency && |s.watchers| == 1 && |s.closers| == 1
    && (forall i :: 0 <= i < |s.workers| ==> s.workers[i].pc.Exited?)
    && s.watchers[0].pc.WatchExited? && s.closers[0].CloserExited?
    && (forall c :: c in s.calls ==> Returned(s.calls[c]))
  }

  /** A worker takes a job from the queue. */
  predicate TakesJob(a: Action) { a.WorkerOf? && a.worker.TakeJob? }

  lemma StartBodyStep(s: State, c: Ticket) returns (a: Action)
    requires Inv(s) && c in s.calls && InStartBody(s.calls[c])
    ensures Enabled(s, a) && a.StartOf? && !a.start.StartPass?
  {
    var step := match s.calls[c].start
      case StoreStarted => StoreFlag
      case AddGroup => AddWorkers
      case SpawnWorker(_) => GoWorker
      case SpawnWatcher => GoWatcher
      case SpawnCloser => GoCloser
      case _ => StartLeave;
    a := StartOf(c, step);
  }

  /** Whoever is in the body of stopOnce can go on. */
  lemma StopBodyStep(s: State) returns (a: Action)
    requires Inv(s) && s.stopOnce.Busy?
    ensures Internal(a) && Enabled(s, a)
  {
    match s.stopOnce.owner {
      case ByCall(c) =>
        a := ShutdownOf(c, if s.calls[c].shutdown.CloseStop? then StopClose else StopLeave);
      case ByWatcher(k) =>
        a := WatcherOf(k, if s.watchers[k].pc.WatchClose? then WatchCloseStop else WatchLeaveOnce);
    }
  }

  lemma WorkerProgress(s: State, w: nat) returns (a: Action)
    requires Inv(s) && s.stop && w < |s.workers| && !s.workers[w].pc.Exited?
    ensures Enabled(s, a) && a.WorkerOf? && !TakesJob(a)
  {
    var step := match s.workers[w].pc
      case JobSelect => TakeStop
      case Holding(_) => CheckCtx
      case Cleared(_) => BeginJob
      case Running(_) => FinishJob
      case _ => GroupDone;
    a := WorkerOf(w, step);
  }

  /** While `stop` is closed and `done` is not, some goroutine of the pool can move, and
      without taking another job. */
  lemma PoolProgress(s: State) returns (a: Action)
    requires Inv(s) && s.stop && !s.done
    ensures Enabled(s, a) && ByPool(a) && !TakesJob(a)
  {
    if s.startOnce.Busy? {
      a := StartBodyStep(s, s.startOnce.owner.c);
    } else if w: nat :| w < |s.workers| && !s.workers[w].pc.Exited? {
      a := WorkerProgress(s, w);
    } else {
      AllExitedCount(s.workers);
      assert CloserInv(s, s.closers[0]);
      a := CloserOf(0, if s.closers[0].AwaitGroup? then GroupWaited else CloseDoneChannel);
    }
  }

  lemma {:induction false} AllExitedCount(ws: seq<Worker>)
    requires forall w: nat :: w < |ws| ==> ws[w].pc.Exited?
    ensures Total(ws, ExitedOne) == |ws|
  {
    if ws == [] {
    } else {
      assert ws[0].pc.Exited?;
      forall w: nat | w < |ws[1..]| ensures ws[1..][w].pc.Exited? {
        assert ws[1..][w] == ws[w + 1];
      }
      AllExitedCount(ws[1..]);
    }
  }

  lemma WatcherProgress(s: State, k: nat) returns (a: Action)
    requires Inv(s) && s.done && k < |s.watchers| && !s.watchers[k].pc.WatchExited?
    ensures Internal(a) && Enabled(s, a)
  {
    match s.watchers[k].pc {
      case WatchSelect => a := WatcherOf(k, WatchDone);
      case WatchDo =>
        if s.stopOnce.Busy? {
          a := StopBodyStep(s);
        } else {
          a := WatcherOf(k, if s.stopOnce.Fresh? then WatchEnter else WatchPass);
        }
      case WatchClose => a := WatcherOf(k, WatchCloseStop);
      case _ => a := WatcherOf(k, WatchLeaveOnce);
    }
  }

  /** Once `stop` is closed every call that has not returned can move, or the pool can. */
  lemma CallProgress(s: State, c: Ticket) returns (a: Action)
    requires Inv(s) && s.stop && c in s.calls && !Returned(s.calls[c])
    ensures Internal(a) && Enabled(s, a)
  {
    match s.calls[c] {
      case StartCall(_, pc) =>
        if pc.StartDo? && s.startOnce.Busy? {
          a := StartBodyStep(s, s.startOnce.owner.c);
        } else if pc.StartDo? {
          a := StartOf(c, if s.startOnce.Fresh? then StartEnter else StartPass);
        } else {
          a := StartBodyStep(s, c);
        }
      case SubmitCall(_, _, pc) =>
        a := SubmitOf(c, if pc.SubmitLoad? then TestStarted else if pc.StopCheck? then CheckStop else SelectStop);
      case ShutdownCall(_, pc) =>
        a := ShutdownProgress(s, c);
    }
  }

  lemma ShutdownProgress(s: State, c: Ticket) returns (a: Action)
    requires Inv(s) && s.stop && c in s.calls && s.calls[c].ShutdownCall? && !Returned(s.calls[c])
    ensures Internal(a) && Enabled(s, a)
  {
    match s.calls[c].shutdown {
      case ShutdownLoad => a := ShutdownOf(c, TestFlag);
      case StopDo =>
        if s.stopOnce.Busy? {
          a := StopBodyStep(s);
        } else {
          a := ShutdownOf(c, if s.stopOnce.Fresh? then StopEnter else StopPass);
        }
      case CloseStop => a := ShutdownOf(c, StopClose);
      case LeaveStopOnce => a := ShutdownOf(c, StopLeave);
      case _ =>
        if s.done {
          a := ShutdownOf(c, SelectDone);
        } else {
          a := PoolProgress(s);
        }
    }
  }

  /** After `stop` is closed there is no deadlock and no other way to end: a state in
      which nothing can move is the one in which everything has exited and returned, and
      in that state nothing can move. */
  lemma RestAfterStop(s: State)
    requires Inv(s) && s.stop
    ensures NothingMoves(s) <==> ShutDown(s)
  {
    if NothingMoves(s) {
      if !s.done {
        var a := PoolProgress(s);
        assert false;
      }
      if s.startOnce.Busy? {
        var a := StartBodyStep(s, s.startOnce.owner.c);
        assert false;
      }
      DoneMeansExited(s);
      if !s.watchers[0].pc.WatchExited? {
        var a := WatcherProgress(s, 0);
        assert false;
      }
      if c :| c in s.calls && !Returned(s.calls[c]) {
        var a := CallProgress(s, c);
        assert false;
      }
      assert CloserInv(s, s.closers[0]);
    }
  }

  // ----- at rest with stop open -----

  /** Nothing to do: started, not cancelled, every worker waits at its select and the
      queue is empty. */
  ghost predicate Idle(s: State) {
    && s.startOnce.Finished? && s.root.Some? && s.root.value !in s.cancelled && !s.done
    && s.jobs == [] && |s.workers| == s.concurrency
    && (forall i :: 0 <= i < |s.workers| ==> s.workers[i].pc.JobSelect?)
  }

  /** Every worker discarded a job on seeing the cancellation and left, the closer closed
      `done`, and the watcher saw `done` before it saw the cancellation. */
  ghost predicate Abandoned(s: State) {
    && s.startOnce.Finished? && s.root.Some? && s.root.value in s.cancelled && s.done
    && |s.log.discarded| == |s.workers| == s.concurrency
    && (forall i :: 0 <= i < |s.workers| ==> s.workers[i].pc.Exited?)
    && (forall i :: 0 <= i < |s.watchers| ==> s.watchers[i].pc.WatchExited?)
  }

  /** A Submit waiting for a slot in the full queue of an abandoned pool, which no worker
      will ever free. */
  ghost predicate Stranded(s: State, call: Call) {
    Abandoned(s) && AtSend(call) && |s.jobs| == s.capacity && call.ctx !in s.cancelled
  }

  /** A pool in which nothing can move while `stop` is open was never started, or is idle,
      or was abandoned, and nobody waits for it but stranded Submits; and these are the
      pools in which nothing can move. */
  lemma RestWithStopOpen(s: State)
    requires Inv(s) && !s.stop
    ensures NothingMoves(s)
       <==> && (s.startOnce.Fresh? || Idle(s) || Abandoned(s))
            && forall c :: c in s.calls ==> Returned(s.calls[c]) || Stranded(s, s.calls[c])
  {
    if NothingMoves(s) {
      RestIsOneOf(s);
      forall c | c in s.calls ensures Returned(s.calls[c]) || Stranded(s, s.calls[c]) {
        WaitingAtRest(s, c);
      }
    } else {
      var a :| Internal(a) && Enabled(s, a);
      if ByCaller(a) {
        CallerMoves(s, a);
      } else {
        GoroutineMoves(s, a);
      }
    }
  }

  lemma RestIsOneOf(s: State)
    requires Inv(s) && !s.stop && NothingMoves(s)
    ensures s.startOnce.Fresh? || Idle(s) || Abandoned(s)
  {
    if s.startOnce.Busy? {
      var a := StartBodyStep(s, s.startOnce.owner.c);
      assert false;
    }
    if s.startOnce.Finished? {
      if s.root.value in s.cancelled {
        RestCancelled(s);
      } else {
        RestIdle(s);
      }
    }
  }

  lemma CallerMoves(s: State, a: Action)
    requires !s.stop && ByCaller(a) && Enabled(s, a)
    ensures a.c in s.calls && !Returned(s.calls[a.c]) && !Stranded(s, s.calls[a.c])
  {
  }

  lemma GoroutineMoves(s: State, a: Action)
    requires Inv(s) && !s.stop && Internal(a) && !ByCaller(a) && Enabled(s, a)
    ensures !s.startOnce.Fresh? && !Idle(s) && !Abandoned(s)
  {
    match a
    case WatcherOf(k, _) => assert WatcherInv(s, s.watchers[k]);
    case CloserOf(k, _) => CloserAtRest(s, k);
    case _ =>
  }

  lemma CloserAtRest(s: State, k: nat)
    requires Inv(s) && k < |s.closers|
    ensures Idle(s) ==> s.closers[k].AwaitGroup? && s.wg != 0
    ensures Abandoned(s) ==> s.closers[k].CloserExited?
  {
    assert CloserInv(s, s.closers[k]);
    if Idle(s) {
      GroupCountsLive(s, 0);
    }
  }

  /** An idle pool has completed every job it accepted. */
  lemma IdleCompletes(s: State)
    requires Inv(s) && Idle(s)
    ensures multiset(s.log.accepted) == multiset(s.log.completed)
  {
    NothingInHand(s.workers);
  }

  lemma {:induction false} NothingInHand(ws: seq<Worker>)
    requires forall i :: 0 <= i < |ws| ==> ws[i].pc.JobSelect?
    ensures Bag(ws, InHand) == multiset{}
  {
    if ws == [] {
    } else {
      assert ws[0].pc.JobSelect?;
      NothingInHand(ws[1..]);
    }
  }

  lemma RestCancelled(s: State)
    requires Inv(s) && !s.stop && NothingMoves(s)
    requires s.startOnce.Finished? && s.root.value in s.cancelled
    ensures Abandoned(s)
  {
    var w := s.watchers[0];
    assert !Enabled(s, WatcherOf(0, WatchCtx)) && !Enabled(s, WatcherOf(0, WatchCloseStop));
    assert !Enabled(s, WatcherOf(0, WatchLeaveOnce)) && !Enabled(s, WatcherOf(0, WatchEnter));
    if s.stopOnce.Busy? {
      var a := StopBodyStep(s);
      assert false;
    }
    assert WatcherInv(s, w);
    DoneMeansExited(s);
    AllGoneCount(s.workers);
  }

  lemma {:induction false} AllGoneCount(ws: seq<Worker>)
    requires forall i :: 0 <= i < |ws| ==> ws[i].pc.Exited?
    ensures Total(ws, GoneOne) == |ws|
  {
    if ws == [] {
    } else {
      assert ws[0].pc.Exited?;
      AllGoneCount(ws[1..]);
    }
  }

  lemma RestIdle(s: State)
    requires Inv(s) && !s.stop && NothingMoves(s)
    requires s.startOnce.Finished? && s.root.value !in s.cancelled
    ensures Idle(s)
  {
    forall i | 0 <= i < |s.workers| ensures s.workers[i].pc.JobSelect? {
      assert !Enabled(s, WorkerOf(i, CheckCtx)) && !Enabled(s, WorkerOf(i, BeginJob)) && !Enabled(s, WorkerOf(i, FinishJob));
    }
    assert !Enabled(s, WorkerOf(0, TakeJob));
    if s.done {
      DoneSignal(s);
    }
  }

  /** Who can still be waiting at such a pool. */
  lemma WaitingAtRest(s: State, c: Ticket)
    requires Inv(s) && !s.stop && NothingMoves(s) && c in s.calls
    requires s.startOnce.Fresh? || Idle(s) || Abandoned(s)
    ensures Returned(s.calls[c]) || Stranded(s, s.calls[c])
  {
    match s.calls[c] {
      case StartCall(_, _) => StartMovesAtRest(s, c);
      case SubmitCall(_, _, _) =>
        assert !Enabled(s, SubmitOf(c, TestStarted)) && !Enabled(s, SubmitOf(c, CheckStop));
        assert !Enabled(s, SubmitOf(c, SelectSend)) && !Enabled(s, SubmitOf(c, SelectCtx));
        assert SubmitInv(s, s.calls[c]);
      case ShutdownCall(_, _) => ShutdownMovesAtRest(s, c);
    }
  }

  lemma StartMovesAtRest(s: State, c: Ticket)
    requires Inv(s) && NothingMoves(s) && c in s.calls && s.calls[c].StartCall?
    ensures Returned(s.calls[c])
  {
    if InStartBody(s.calls[c]) {
      var a := StartBodyStep(s, c);
      assert false;
    }
    if s.startOnce.Busy? {
      var a := StartBodyStep(s, s.startOnce.owner.c);
      assert false;
    }
    assert !Enabled(s, StartOf(c, StartEnter)) && !Enabled(s, StartOf(c, StartPass));
  }

  lemma ShutdownMovesAtRest(s: State, c: Ticket)
    requires Inv(s) && !s.stop && NothingMoves(s) && c in s.calls && s.calls[c].ShutdownCall?
    ensures Returned(s.calls[c])
  {
    if s.stopOnce.Busy? {
      var a := StopBodyStep(s);
      assert false;
    }
    assert !Enabled(s, ShutdownOf(c, TestFlag)) && !Enabled(s, ShutdownOf(c, StopEnter));
    assert !Enabled(s, ShutdownOf(c, StopClose)) && !Enabled(s, ShutdownOf(c, StopLeave));
  }
}
