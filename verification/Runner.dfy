/** The Runner of internal/worker/runner.go as an object whose fields the goroutines update
    in place.

Each method lets one goroutine go on to its next operation on shared state: it reads and
writes the fields as the source does at that point, a `select` is a guarded choice among
the cases that are ready, and None comes back when the goroutine has to wait there.  The
contracts tie every such step to the transition system of PoolState, so that what is
proved about its runs holds of any schedule of these methods. */
module RunnerObject {
  import opened Options
  import opened PoolState
  import opened PoolInvariant

  /** Who goes next. */
  datatype Turn =
    | CallTurn(c: Ticket) | WorkerTurn(w: nat) | WatcherTurn(k: nat) | CloserTurn(k: nat)
    | InvokeTurn(c: Ticket, call: Call) | CancelTurn(ctx: Ctx)

  /** The step is one of the goroutine, or of the environment, whose turn it is. */
  predicate Serves(turn: Turn, a: Action) {
    match turn
    case CallTurn(c) => (a.StartOf? || a.SubmitOf? || a.ShutdownOf?) && a.c == c
    case WorkerTurn(w) => a.WorkerOf? && a.w == w
    case WatcherTurn(k) => a.WatcherOf? && a.k == k
    case CloserTurn(k) => a.CloserOf? && a.k == k
    case InvokeTurn(c, call) => a == Invoke(c, call)
    case CancelTurn(ctx) => a == Cancel(ctx)
  }

  /** It has to wait. */
  ghost predicate Blocked(s: State, turn: Turn) {
    forall a :: Serves(turn, a) ==> !Enabled(s, a)
  }

  /** The run is what the turns lead to: one that has to wait is passed over, any other
      takes a step. */
  ghost predicate Served(s: State, turns: seq<Turn>, run: seq<Action>)
    requires Legal(s, run)
    decreases turns
  {
    if turns == [] then run == []
    else if Blocked(s, turns[0]) then Served(s, turns[1..], run)
    else run != [] && Serves(turns[0], run[0]) && Served(Apply(s, run[0]), turns[1..], run[1..])
  }

  /** One more turn that has to wait. */
  lemma {:induction false} ServedWait(s: State, turns: seq<Turn>, run: seq<Action>, turn: Turn)
    requires Legal(s, run) && Served(s, turns, run) && Blocked(After(s, run), turn)
    ensures Served(s, turns + [turn], run)
    decreases turns
  {
    if turns == [] {
      assert [turn][1..] == [];
    } else {
      assert (turns + [turn])[1..] == turns[1..] + [turn];
      if Blocked(s, turns[0]) {
        ServedWait(s, turns[1..], run, turn);
      } else {
        ServedWait(Apply(s, run[0]), turns[1..], run[1..], turn);
      }
    }
  }

  /** One more turn that is taken. */
  lemma {:induction false} ServedStep(s: State, turns: seq<Turn>, run: seq<Action>, turn: Turn, a: Action)
    requires Legal(s, run) && Served(s, turns, run) && Serves(turn, a) && Enabled(After(s, run), a)
    ensures Legal(s, run + [a]) && Served(s, turns + [turn], run + [a])
    decreases turns
  {
    LegalSnoc(s, run, a);
    if turns == [] {
      assert [turn][1..] == [] && [a][1..] == [];
      assert !Blocked(s, turn);
    } else {
      assert (turns + [turn])[1..] == turns[1..] + [turn];
      if Blocked(s, turns[0]) {
        ServedStep(s, turns[1..], run, turn, a);
      } else {
        assert (run + [a])[1..] == run[1..] + [a];
        ServedStep(Apply(s, run[0]), turns[1..], run[1..], turn, a);
      }
    }
  }

  /** Turn number `i`, taken or not. */
  lemma ServedNext(s: State, turns: seq<Turn>, i: nat, run: seq<Action>, a: Option<Action>) returns (longer: seq<Action>)
    requires i < |turns| && Legal(s, run) && Served(s, turns[..i], run)
    requires match a
             case Some(act) => Serves(turns[i], act) && Enabled(After(s, run), act)
             case None => Blocked(After(s, run), turns[i])
    ensures Legal(s, longer) && Served(s, turns[..i + 1], longer)
    ensures After(s, longer) == if a.Some? then Apply(After(s, run), a.value) else After(s, run)
  {
    assert turns[..i] + [turns[i]] == turns[..i + 1];
    if a.Some? {
      LegalSnoc(s, run, a.value);
      ServedStep(s, turns[..i], run, turns[i], a.value);
      longer := run + [a.value];
    } else {
      ServedWait(s, turns[..i], run, turns[i]);
      longer := run;
    }
  }

  class Runner {
    const concurrency: nat
    const capacity: nat
    var jobs: seq<Ticket>
    var stop: bool
    var done: bool
    var started: bool
    var startOnce: Once
    var stopOnce: Once
    var wg: int

    // the goroutines Start has spawned, the calls made so far and the cancelled contexts
    var workers: seq<Worker>
    var watchers: seq<Watcher>
    var closers: seq<CloserPc>
    var calls: map<Ticket, Call>
    var cancelled: set<Ctx>
    var panicked: bool

    // history
    ghost var root: Option<Ctx>
    ghost var log: Logs

    ghost function View(): State
      reads this
    {
      State(concurrency, capacity, jobs, stop, done, started, startOnce, stopOnce, wg,
            workers, watchers, closers, calls, cancelled, root, panicked, log)
    }

    constructor (concurrency: nat, capacity: nat)
      ensures View() == Init(concurrency, capacity)
    {
      this.concurrency, this.capacity := concurrency, capacity;
      jobs, stop, done, started, startOnce, stopOnce, wg := [], false, false, false, Fresh, Fresh, 0;
      workers, watchers, closers, calls, cancelled, panicked := [], [], [], map[], {}, false;
      root, log := None, EMPTY_LOGS;
    }

    /** New, lines 32-42: a pool needs at least one worker and one queue slot. */
    static method New(concurrency: int, queue: int) returns (r: Option<Runner>)
      ensures r.None? <==> concurrency < 1 || queue < 1
      ensures r.Some? ==>
                fresh(r.value) && r.value.View() == Init(concurrency, queue) && Inv(r.value.View())
    {
      if concurrency < 1 || queue < 1 {
        return None;
      }
      var runner := new Runner(concurrency, queue);
      InitInv(concurrency, queue);
      return Some(runner);
    }

    /** Some goroutine calls Start, Submit or Shutdown. */
    method Invoke(c: Ticket, call: Call)
      requires c !in calls && AtEntry(call)
      modifies this`calls
      ensures View() == Apply(old(View()), Action.Invoke(c, call))
    {
      calls := calls[c := call];
    }

    method CancelContext(ctx: Ctx)
      requires ctx !in cancelled
      modifies this`cancelled
      ensures View() == Apply(old(View()), Cancel(ctx))
    {
      cancelled := cancelled + {ctx};
    }

    /** Start, lines 44-45 and 62: enter the body of startOnce, pass it, or wait for it. */
    method Start(c: Ticket) returns (step: Option<StartStep>)
      requires c in calls && calls[c].StartCall?
      modifies this
      ensures match step
              case Some(st) => StartEnabled(old(View()), c, st) && View() == StartMove(old(View()), c, st)
              case None => View() == old(View()) && forall st :: !StartEnabled(View(), c, st)
    {
      step := None;
      var StartCall(ctx, pc) := calls[c];
      if pc.StartDo? {
        if startOnce.Fresh? {
          startOnce, root := Busy(ByCall(c)), Some(ctx);
          calls := calls[c := StartCall(ctx, StoreStarted)];
          step := Some(StartEnter);
        } else if startOnce.Finished? {
          calls := calls[c := StartCall(ctx, StartReturned)];
          step := Some(StartPass);
        }
      } else if !pc.StartReturned? {
        step := StartBody(c);
      }
    }

    /** The function startOnce runs, lines 46-61. */
    method StartBody(c: Ticket) returns (step: Option<StartStep>)
      requires c in calls && InStartBody(calls[c])
      modifies this`calls, this`started, this`wg, this`workers, this`watchers, this`closers, this`startOnce
      ensures step.Some? && StartEnabled(old(View()), c, step.value)
      ensures View() == StartMove(old(View()), c, step.value)
    {
      var StartCall(ctx, pc) := calls[c];
      if pc.StoreStarted? {
        started := true;
        calls := calls[c := StartCall(ctx, AddGroup)];
        step := Some(StoreFlag);
      } else if pc.AddGroup? {
        wg := wg + concurrency;
        calls := calls[c := StartCall(ctx, if 0 < concurrency then SpawnWorker(0) else SpawnWatcher)];
        step := Some(AddWorkers);
      } else if pc.LeaveStartOnce? {
        startOnce := Finished;
        calls := calls[c := StartCall(ctx, StartReturned)];
        step := Some(StartLeave);
      } else {
        step := Spawn(c);
      }
    }

    /** Its go statements, lines 48-61. */
    method Spawn(c: Ticket) returns (step: Option<StartStep>)
      requires c in calls && calls[c].StartCall?
      requires calls[c].start.SpawnWorker? || calls[c].start.SpawnWatcher? || calls[c].start.SpawnCloser?
      modifies this`calls, this`workers, this`watchers, this`closers
      ensures step.Some? && StartEnabled(old(View()), c, step.value)
      ensures View() == StartMove(old(View()), c, step.value)
    {
      var StartCall(ctx, pc) := calls[c];
      match pc {
        case SpawnWorker(i) =>
          workers := workers + [Worker(ctx, JobSelect)];
          pc, step := if i + 1 < concurrency then SpawnWorker(i + 1) else SpawnWatcher, Some(GoWorker);
        case SpawnWatcher =>
          watchers := watchers + [Watcher(ctx, WatchSelect)];
          pc, step := SpawnCloser, Some(GoWatcher);
        case SpawnCloser =>
          closers := closers + [AwaitGroup];
          pc, step := LeaveStartOnce, Some(GoCloser);
      }
      calls := calls[c := StartCall(ctx, pc)];
    }

    /** Submit, lines 65-85. */
    method Submit(c: Ticket) returns (step: Option<SubmitStep>)
      requires c in calls && calls[c].SubmitCall?
      modifies this`calls, this`jobs, this`log
      ensures match step
              case Some(st) => SubmitEnabled(old(View()), c, st) && View() == SubmitMove(old(View()), c, st)
              case None => View() == old(View()) && forall st :: !SubmitEnabled(View(), c, st)
    {
      step := None;
      var SubmitCall(ctx, nilJob, pc) := calls[c];
      match pc {
        case SubmitLoad =>
          if !started {
            pc := SubmitReturned(SubmitNotStarted);
          } else if nilJob {
            pc := SubmitReturned(NilJob);
          } else {
            pc := StopCheck;
          }
          step := Some(TestStarted);
        case StopCheck =>
          if stop {
            pc := SubmitReturned(Stopped);
          } else {
            pc := SendSelect;
          }
          step := Some(CheckStop);
        case SendSelect =>
          if {
            case stop =>
              pc, step := SubmitReturned(Stopped), Some(SelectStop);
            case ctx in cancelled =>
              pc, step := SubmitReturned(SubmitContextDone), Some(SelectCtx);
            case |jobs| < capacity =>
              jobs := jobs + [c];
              log := log.(accepted := log.accepted + [c]);
              pc, step := SubmitReturned(Accepted), Some(SelectSend);
            case !stop && ctx !in cancelled && |jobs| >= capacity =>
          }
        case SubmitReturned(_) =>
      }
      if step.Some? {
        calls := calls[c := SubmitCall(ctx, nilJob, pc)];
      }
    }

    /** close(r.stop): closing a closed channel panics. */
    method CloseStop()
      modifies this`stop, this`panicked
      ensures stop && panicked == (old(panicked) || old(stop))
    {
      if stop {
        panicked := true;
      }
      stop := true;
    }

    /** Shutdown, lines 87-98. */
    method Shutdown(c: Ticket) returns (step: Option<ShutdownStep>)
      requires c in calls && calls[c].ShutdownCall?
      modifies this`calls, this`stopOnce, this`stop, this`panicked
      ensures match step
              case Some(st) => ShutdownEnabled(old(View()), c, st) && View() == ShutdownMove(old(View()), c, st)
              case None => View() == old(View()) && forall st :: !ShutdownEnabled(View(), c, st)
    {
      step := None;
      var ShutdownCall(ctx, pc) := calls[c];
      match pc {
        case ShutdownLoad =>
          if started {
            pc := StopDo;
          } else {
            pc := ShutdownReturned(ShutdownNotStarted);
          }
          calls := calls[c := ShutdownCall(ctx, pc)];
          step := Some(TestFlag);
        case DoneSelect =>
          step := AwaitDone(c);
        case ShutdownReturned(_) =>
        case _ =>
          step := StopOnce(c);
      }
    }

    /** Its stopOnce.Do, line 91. */
    method StopOnce(c: Ticket) returns (step: Option<ShutdownStep>)
      requires c in calls && calls[c].ShutdownCall?
      requires var pc := calls[c].shutdown; pc.StopDo? || pc.CloseStop? || pc.LeaveStopOnce?
      modifies this`calls, this`stopOnce, this`stop, this`panicked
      ensures match step
              case Some(st) => ShutdownEnabled(old(View()), c, st) && View() == ShutdownMove(old(View()), c, st)
              case None => View() == old(View()) && forall st :: !ShutdownEnabled(View(), c, st)
    {
      step := None;
      var ShutdownCall(ctx, pc) := calls[c];
      match pc {
        case StopDo =>
          if stopOnce.Fresh? {
            stopOnce := Busy(ByCall(c));
            pc, step := ShutdownPc.CloseStop, Some(StopEnter);
          } else if stopOnce.Finished? {
            pc, step := DoneSelect, Some(StopPass);
          }
        case CloseStop =>
          this.CloseStop();
          pc, step := LeaveStopOnce, Some(StopClose);
        case LeaveStopOnce =>
          stopOnce := Finished;
          pc, step := DoneSelect, Some(StopLeave);
      }
      if step.Some? {
        calls := calls[c := ShutdownCall(ctx, pc)];
      }
    }

    /** Its select, lines 92-97. */
    method AwaitDone(c: Ticket) returns (step: Option<ShutdownStep>)
      requires c in calls && calls[c].ShutdownCall? && calls[c].shutdown.DoneSelect?
      modifies this`calls
      ensures match step
              case Some(st) => ShutdownEnabled(old(View()), c, st) && View() == ShutdownMove(old(View()), c, st)
              case None => View() == old(View()) && forall st :: !ShutdownEnabled(View(), c, st)
    {
      step := None;
      var ctx := calls[c].ctx;
      if {
        case done =>
          calls := calls[c := ShutdownCall(ctx, ShutdownReturned(AllExited))];
          step := Some(SelectDone);
        case ctx in cancelled =>
          calls := calls[c := ShutdownCall(ctx, ShutdownReturned(ShutdownContextDone))];
          step := Some(SelectCancel);
        case !done && ctx !in cancelled =>
      }
    }

    /** wg.Done: a counter below zero panics. */
    method GroupDone()
      modifies this`wg, this`panicked
      ensures wg == old(wg) - 1 && panicked == (old(panicked) || old(wg) <= 0)
    {
      wg := wg - 1;
      if wg < 0 {
        panicked := true;
      }
    }

    /** run, lines 100-113. */
    method Run(w: nat) returns (step: Option<WorkerStep>)
      requires w < |workers|
      modifies this`workers, this`jobs, this`wg, this`panicked, this`log
      ensures match step
              case Some(st) => WorkerEnabled(old(View()), w, st) && View() == WorkerMove(old(View()), w, st)
              case None => View() == old(View()) && forall st :: !WorkerEnabled(View(), w, st)
    {
      step := None;
      match workers[w].pc {
        case JobSelect =>
          step := RunSelect(w);
        case Leaving =>
          GroupDone();
          workers := workers[w := Worker(workers[w].ctx, Exited)];
          step := Some(WorkerStep.GroupDone);
        case Exited =>
        case _ =>
          step := RunJob(w);
      }
    }

    /** The select of run, lines 103-106. */
    method RunSelect(w: nat) returns (step: Option<WorkerStep>)
      requires w < |workers| && workers[w].pc.JobSelect?
      modifies this`workers, this`jobs, this`log
      ensures match step
              case Some(st) => WorkerEnabled(old(View()), w, st) && View() == WorkerMove(old(View()), w, st)
              case None => View() == old(View()) && forall st :: !WorkerEnabled(View(), w, st)
    {
      step := None;
      var ctx := workers[w].ctx;
      if {
        case stop =>
          workers := workers[w := Worker(ctx, Leaving)];
          step := Some(TakeStop);
        case jobs != [] =>
          var job := jobs[0];
          jobs := jobs[1..];
          log := log.(dequeued := log.dequeued + [job]);
          workers := workers[w := Worker(ctx, Holding(job))];
          step := Some(TakeJob);
        case !stop && jobs == [] =>
      }
    }

    /** What run does with a job, lines 107-110. */
    method RunJob(w: nat) returns (step: Option<WorkerStep>)
      requires w < |workers| && HandOne(workers[w]) == 1
      modifies this`workers, this`log
      ensures step.Some? && WorkerEnabled(old(View()), w, step.value)
      ensures View() == WorkerMove(old(View()), w, step.value)
    {
      var Worker(ctx, pc) := workers[w];
      match pc {
        case Holding(job) =>
          if ctx in cancelled {
            log := log.(discarded := log.discarded + [job]);
            pc := Leaving;
          } else {
            pc := Cleared(job);
          }
          step := Some(CheckCtx);
        case Cleared(job) =>
          log := log.(begun := log.begun + [job]);
          pc, step := Running(job), Some(BeginJob);
        case Running(job) =>
          log := log.(completed := log.completed + [job]);
          pc, step := JobSelect, Some(FinishJob);
      }
      workers := workers[w := Worker(ctx, pc)];
    }

    /** The watcher goroutine of Start, lines 51-57. */
    method Watch(k: nat) returns (step: Option<WatcherStep>)
      requires k < |watchers|
      modifies this`watchers, this`stopOnce, this`stop, this`panicked
      ensures match step
              case Some(st) => WatcherEnabled(old(View()), k, st) && View() == WatcherMove(old(View()), k, st)
              case None => View() == old(View()) && forall st :: !WatcherEnabled(View(), k, st)
    {
      step := None;
      var Watcher(ctx, pc) := watchers[k];
      match pc {
        case WatchSelect =>
          if {
            case ctx in cancelled =>
              pc, step := WatchDo, Some(WatchCtx);
            case done =>
              pc, step := WatchExited, Some(WatchDone);
            case ctx !in cancelled && !done =>
          }
        case WatchDo =>
          if stopOnce.Fresh? {
            stopOnce := Busy(ByWatcher(k));
            pc, step := WatchClose, Some(WatchEnter);
          } else if stopOnce.Finished? {
            pc, step := WatchExited, Some(WatchPass);
          }
        case WatchClose =>
          CloseStop();
          pc, step := WatchLeave, Some(WatchCloseStop);
        case WatchLeave =>
          stopOnce := Finished;
          pc, step := WatchExited, Some(WatchLeaveOnce);
        case WatchExited =>
      }
      if step.Some? {
        watchers := watchers[k := Watcher(ctx, pc)];
      }
    }

    method CloseDoneChannel()
      modifies this`done, this`panicked
      ensures done && panicked == (old(panicked) || old(done))
    {
      if done {
        panicked := true;
      }
      done := true;
    }

    /** The closer goroutine of Start, lines 58-61. */
    method Close(k: nat) returns (step: Option<CloserStep>)
      requires k < |closers|
      modifies this`closers, this`done, this`panicked
      ensures match step
              case Some(st) => CloserEnabled(old(View()), k, st) && View() == CloserMove(old(View()), k, st)
              case None => View() == old(View()) && forall st :: !CloserEnabled(View(), k, st)
    {
      step := None;
      match closers[k] {
        case AwaitGroup =>
          if wg == 0 {
            closers := closers[k := CloseDone];
            step := Some(GroupWaited);
          }
        case CloseDone =>
          CloseDoneChannel();
          closers := closers[k := CloserExited];
          step := Some(CloserStep.CloseDoneChannel);
        case CloserExited =>
      }
    }

    // ----- schedules -----

    /** Let the chosen goroutine, or the environment, go on if it can. */
    method Advance(turn: Turn) returns (a: Option<Action>)
      modifies this
      ensures match a
              case Some(act) => Serves(turn, act) && Enabled(old(View()), act) && View() == Apply(old(View()), act)
              case None => View() == old(View()) && Blocked(View(), turn)
    {
      a := None;
      match turn {
        case CallTurn(c) =>
          if c in calls {
            a := AdvanceCall(c);
          }
        case InvokeTurn(c, call) =>
          if c !in calls && AtEntry(call) {
            Invoke(c, call);
            a := Some(Action.Invoke(c, call));
          }
        case CancelTurn(ctx) =>
          if ctx !in cancelled {
            CancelContext(ctx);
            a := Some(Cancel(ctx));
          }
        case _ =>
          a := AdvanceSpawned(turn);
      }
    }

    method AdvanceSpawned(turn: Turn) returns (a: Option<Action>)
      requires turn.WorkerTurn? || turn.WatcherTurn? || turn.CloserTurn?
      modifies this
      ensures match a
              case Some(act) => Serves(turn, act) && Enabled(old(View()), act) && View() == Apply(old(View()), act)
              case None => View() == old(View()) && Blocked(View(), turn)
    {
      a := None;
      match turn {
        case WorkerTurn(w) =>
          if w < |workers| {
            var st := Run(w);
            a := if st.Some? then Some(WorkerOf(w, st.value)) else None;
          }
        case WatcherTurn(k) =>
          if k < |watchers| {
            var st := Watch(k);
            a := if st.Some? then Some(WatcherOf(k, st.value)) else None;
          }
        case CloserTurn(k) =>
          if k < |closers| {
            var st := Close(k);
            a := if st.Some? then Some(CloserOf(k, st.value)) else None;
          }
      }
    }

    method AdvanceCall(c: Ticket) returns (a: Option<Action>)
      requires c in calls
      modifies this
      ensures match a
              case Some(act) => Serves(CallTurn(c), act) && Enabled(old(View()), act) && View() == Apply(old(View()), act)
              case None => View() == old(View()) && Blocked(View(), CallTurn(c))
    {
      match calls[c] {
        case StartCall(_, _) =>
          var st := Start(c);
          a := if st.Some? then Some(StartOf(c, st.value)) else None;
        case SubmitCall(_, _, _) =>
          var st := Submit(c);
          a := if st.Some? then Some(SubmitOf(c, st.value)) else None;
        case ShutdownCall(_, _) =>
          var st := Shutdown(c);
          a := if st.Some? then Some(ShutdownOf(c, st.value)) else None;
      }
    }

    /** Whatever the scheduler does, the object goes through the run of the transition
        system that its choices lead to, and keeps its invariant. */
    method Schedule(turns: seq<Turn>) returns (ghost run: seq<Action>)
      requires Inv(View())
      modifies this
      ensures Legal(old(View()), run) && View() == After(old(View()), run)
      ensures Served(old(View()), turns, run)
      ensures Inv(View())
    {
      run := [];
      for i := 0 to |turns|
        invariant Legal(old(View()), run) && View() == After(old(View()), run)
        invariant Served(old(View()), turns[..i], run)
      {
        var a := Advance(turns[i]);
        run := ServedNext(old(View()), turns, i, run, a);
      }
      assert turns[..|turns|] == turns;
      RunKeepsInv(old(View()), run);
    }
  }
}
