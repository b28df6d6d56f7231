/** Three tempting claims are false of the pool: Shutdown drains the queue, a closed `stop`
    keeps every Submit out, and `done` is closed only after `stop`.  This says exactly when
    they hold all the same: in which states the pool drains from there on, in which a job
    can still be accepted, and in which, `stop` being open, `done` can be closed first. */
module PoolExact {
  import opened PoolState
  import opened Sums
  import opened PoolInvariant
  import opened PoolSafety
  import opened PoolBounds
  import opened PoolShutdown
  import opened PoolWitness

  /** One more step at the beginning of a run. */
  lemma Prepend(s: State, a: Action, rest: seq<Action>) returns (run: seq<Action>)
    requires Enabled(s, a) && Legal(Apply(s, a), rest)
    ensures Legal(s, run) && After(s, run) == After(Apply(s, a), rest)
  {
    run := [a] + rest;
    assert run[0] == a && run[1..] == rest;
  }

  /** A ticket no call has used. */
  lemma UnusedTicket(calls: map<Ticket, Call>) returns (c: Ticket)
    ensures c !in calls
  {
    c := Above(calls.Keys);
  }

  lemma {:induction false} Above(tickets: set<Ticket>) returns (c: Ticket)
    ensures forall d :: d in tickets ==> d < c
    decreases tickets
  {
    if tickets == {} {
      c := 0;
    } else {
      var d :| d in tickets;
      var rest := Above(tickets - {d});
      c := if d < rest then rest else d + 1;
      forall e | e in tickets ensures e < c {
        assert e == d || e in tickets - {d};
      }
    }
  }

  // ----- runs in which nobody calls Submit -----

  predicate NewSubmit(a: Action) { a.Invoke? && a.call.SubmitCall? }

  ghost predicate NoNewSubmit(run: seq<Action>) {
    forall i :: 0 <= i < |run| ==> !NewSubmit(run[i])
  }

  /** Extend, Prepend and Join for such runs. */
  lemma QuietExtend(s: State, run: seq<Action>, a: Action) returns (longer: seq<Action>, t: State)
    requires Legal(s, run) && NoNewSubmit(run) && Enabled(After(s, run), a) && !NewSubmit(a)
    ensures Legal(s, longer) && NoNewSubmit(longer) && t == After(s, longer) == Apply(After(s, run), a)
  {
    LegalSnoc(s, run, a);
    longer, t := run + [a], Apply(After(s, run), a);
  }

  lemma QuietPrepend(s: State, a: Action, rest: seq<Action>) returns (run: seq<Action>)
    requires Enabled(s, a) && !NewSubmit(a) && Legal(Apply(s, a), rest) && NoNewSubmit(rest)
    ensures Legal(s, run) && NoNewSubmit(run) && After(s, run) == After(Apply(s, a), rest)
  {
    run := [a] + rest;
    assert run[0] == a && run[1..] == rest;
  }

  lemma QuietJoin(s: State, first: seq<Action>, second: seq<Action>) returns (run: seq<Action>)
    requires Legal(s, first) && NoNewSubmit(first) && Legal(After(s, first), second) && NoNewSubmit(second)
    ensures Legal(s, run) && NoNewSubmit(run) && After(s, run) == After(After(s, first), second)
  {
    LegalConcat(s, first, second);
    run := first + second;
  }

  /** The Submit calls are where they were, and so is the queue. */
  ghost predicate SameSubmits(s: State, t: State) {
    && t.jobs == s.jobs && t.capacity == s.capacity
    && (forall c :: c in s.calls && s.calls[c].SubmitCall? ==> c in t.calls && t.calls[c] == s.calls[c])
  }

  // ----- draining -----

  ghost predicate Drained(s: State) {
    multiset(s.log.accepted) == multiset(s.log.completed)
  }

  /** A Submit that may still send its job: it waits at the second select, or may get there
      because `stop` is open. */
  predicate MaySend(s: State, call: Call) {
    call.SubmitCall? &&
    (call.submit.SendSelect? || (!s.stop && (call.submit.StopCheck? || (call.submit.SubmitLoad? && !call.nilJob))))
  }

  ghost predicate NobodySends(s: State) {
    forall c :: c in s.calls ==> !MaySend(s, s.calls[c])
  }

  /** No job is queued, discarded, or held by a worker that might still discard it. */
  ghost predicate NothingHeld(s: State) {
    && s.jobs == [] && s.log.discarded == []
    && (forall i :: 0 <= i < |s.workers| ==> !s.workers[i].pc.Holding?)
  }

  /** No job is left that could stay undone, and none will be added by a call made so far. */
  ghost predicate Settled(s: State) { NothingHeld(s) && NobodySends(s) }

  /** The job of ticket `c`, whether its Submit has been called or not, may be sent. */
  predicate MayBeSent(s: State, c: Ticket) {
    if c in s.calls then MaySend(s, s.calls[c]) else !s.stop
  }

  /** What may not be sent never may. */
  lemma NotSentStep(s: State, a: Action, c: Ticket)
    requires !MayBeSent(s, c) && Enabled(s, a)
    ensures !MayBeSent(Apply(s, a), c) && !(Sends(a) && a.c == c)
  {
    match a
    case SubmitOf(d, step) => SubmitNotSent(s, d, step, c);
    case _ => OthersSendNothing(s, a, c);
  }

  lemma SubmitNotSent(s: State, d: Ticket, step: SubmitStep, c: Ticket)
    requires !MayBeSent(s, c) && SubmitEnabled(s, d, step)
    ensures !MayBeSent(SubmitMove(s, d, step), c) && !(d == c && step.SelectSend?)
  {
  }

  lemma OthersSendNothing(s: State, a: Action, c: Ticket)
    requires !MayBeSent(s, c) && Enabled(s, a) && !a.SubmitOf?
    ensures !MayBeSent(Apply(s, a), c)
  {
  }

  lemma SendersSettled(s: State, a: Action)
    requires NobodySends(s) && Enabled(s, a) && (NewSubmit(a) ==> s.stop)
    ensures NobodySends(Apply(s, a)) && !Sends(a)
  {
    var t := Apply(s, a);
    forall c | c in t.calls ensures !MaySend(t, t.calls[c]) {
      if c in s.calls || s.stop {
        NotSentStep(s, a, c);
      } else {
        FirstCalled(s, a, c);
      }
    }
    if Sends(a) {
      NotSentStep(s, a, a.c);
    }
  }

  lemma FirstCalled(s: State, a: Action, c: Ticket)
    requires Enabled(s, a) && c !in s.calls && c in Apply(s, a).calls
    ensures a.Invoke? && Apply(s, a).calls[c] == a.call
  {
  }

  lemma HeldSettled(s: State, a: Action)
    requires NothingHeld(s) && Enabled(s, a) && !Sends(a)
    ensures NothingHeld(Apply(s, a))
  {
    if a.WorkerOf? {
      WorkerSettled(s, a.w, a.worker);
    } else {
      WorkLogsKept(s, a);
      QueueStep(s, a);
    }
  }

  lemma WorkerSettled(s: State, w: nat, step: WorkerStep)
    requires NothingHeld(s) && WorkerEnabled(s, w, step)
    ensures NothingHeld(WorkerMove(s, w, step))
  {
  }

  lemma {:induction false} SettledRun(s: State, run: seq<Action>)
    requires Inv(s) && Settled(s) && Legal(s, run) && (s.stop || NoNewSubmit(run))
    ensures Inv(After(s, run)) && Settled(After(s, run))
    decreases run
  {
    if run == [] {
    } else {
      StepKeepsInv(s, run[0]);
      StopStep(s, run[0]);
      SendersSettled(s, run[0]);
      HeldSettled(s, run[0]);
      SettledRun(Apply(s, run[0]), run[1..]);
    }
  }

  /** What is accepted and not completed when `done` is closed lies in the queue or has
      been discarded. */
  lemma DrainedAtDone(s: State)
    requires Inv(s) && s.done
    ensures Drained(s) <==> s.jobs == [] && s.log.discarded == []
  {
    DoneMeansExited(s);
    NoneExecuting(s.workers);
    assert multiset(s.log.accepted) == multiset(s.log.dequeued) + multiset(s.jobs);
    assert |multiset(s.log.accepted)| == |s.log.completed| + |s.log.discarded| + |s.jobs|;
    assert |multiset(s.log.completed)| == |s.log.completed|;
  }

  // a job that can stay undone: a run that leaves one behind

  ghost predicate LeftBehind(s: State) { s.jobs != [] || s.log.discarded != [] }

  lemma DiscardHeld(s: State, w: nat) returns (run: seq<Action>)
    requires w < |s.workers| && s.workers[w].pc.Holding?
    ensures Legal(s, run) && NoNewSubmit(run) && LeftBehind(After(s, run))
  {
    var t;
    run, t := [], s;
    if s.workers[w].ctx !in s.cancelled {
      run, t := QuietExtend(s, run, Cancel(s.workers[w].ctx));
    }
    run, t := QuietExtend(s, run, WorkerOf(w, CheckCtx));
  }

  /** The flag can be set, if it is not. */
  lemma RaiseFlag(s: State) returns (run: seq<Action>)
    requires StartInv(s) && !s.started
    ensures Legal(s, run) && NoNewSubmit(run) && SameSubmits(s, After(s, run))
    ensures After(s, run).started && After(s, run).stop == s.stop
  {
    var t;
    run, t := [], s;
    if s.startOnce.Fresh? {
      var c := UnusedTicket(s.calls);
      run, t := QuietExtend(s, run, Invoke(c, StartCall(0, StartDo)));
      run, t := QuietExtend(s, run, StartOf(c, StartEnter));
      run, t := QuietExtend(s, run, StartOf(c, StoreFlag));
    } else {
      run, t := QuietExtend(s, run, StartOf(s.startOnce.owner.c, StoreFlag));
    }
  }

  ghost predicate Sent(s: State, c: Ticket) { s.jobs != [] && c in s.log.accepted }

  /** A Submit that may send goes on to do so. */
  lemma {:induction false} SendOn(s: State, c: Ticket) returns (run: seq<Action>)
    requires s.started && |s.jobs| < s.capacity && c in s.calls && MaySend(s, s.calls[c])
    ensures Legal(s, run) && NoNewSubmit(run) && Sent(After(s, run), c)
    decreases Rank(s.concurrency, s.calls[c])
  {
    var step := match s.calls[c].submit
      case SubmitLoad => TestStarted
      case StopCheck => CheckStop
      case _ => SelectSend;
    var a := SubmitOf(c, step);
    var rest := [];
    if !step.SelectSend? {
      rest := SendOn(Apply(s, a), c);
    }
    run := QuietPrepend(s, a, rest);
  }

  lemma SendJob(s: State, c: Ticket) returns (run: seq<Action>)
    requires StartInv(s) && |s.jobs| < s.capacity && c in s.calls && MaySend(s, s.calls[c])
    ensures Legal(s, run) && NoNewSubmit(run) && Sent(After(s, run), c)
  {
    if s.started {
      run := SendOn(s, c);
    } else {
      var first := RaiseFlag(s);
      var rest := SendOn(After(s, first), c);
      run := QuietJoin(s, first, rest);
    }
  }

  lemma LeaveBehind(s: State) returns (run: seq<Action>)
    requires Inv(s) && !Settled(s)
    ensures Legal(s, run) && NoNewSubmit(run) && LeftBehind(After(s, run))
  {
    if LeftBehind(s) {
      run := [];
    } else if c :| c in s.calls && MaySend(s, s.calls[c]) {
      run := SendJob(s, c);
    } else {
      var w: nat :| w < |s.workers| && s.workers[w].pc.Holding?;
      run := DiscardHeld(s, w);
    }
  }

  // and then to done

  lemma LeftBehindStarted(s: State)
    requires Inv(s) && LeftBehind(s)
    ensures s.started
  {
    assert |s.log.dequeued| == |multiset(s.log.dequeued)| >= |s.log.discarded|;
    assert s.log.accepted[0] in s.log.accepted;
  }

  /** `stop` can be closed, if it is open. */
  lemma CloseStop(s: State) returns (run: seq<Action>)
    requires StopInv(s) && s.started
    ensures Legal(s, run) && NoNewSubmit(run)
    ensures After(s, run).stop && After(s, run).jobs == s.jobs && After(s, run).log == s.log
  {
    var t;
    run, t := [], s;
    if s.stopOnce.Fresh? {
      var c := UnusedTicket(s.calls);
      run, t := QuietExtend(s, run, Invoke(c, ShutdownCall(0, ShutdownLoad)));
      run, t := QuietExtend(s, run, ShutdownOf(c, TestFlag));
      run, t := QuietExtend(s, run, ShutdownOf(c, StopEnter));
      run, t := QuietExtend(s, run, ShutdownOf(c, StopClose));
    } else if !s.stop {
      var a := match s.stopOnce.owner
        case ByCall(c) => ShutdownOf(c, StopClose)
        case ByWatcher(k) => WatcherOf(k, WatchCloseStop);
      run, t := QuietExtend(s, run, a);
    }
  }

  /** Once `stop` is closed the pool can reach `done` without taking or accepting another
      job. */
  lemma {:induction false} ReachDone(s: State) returns (run: seq<Action>)
    requires Inv(s) && s.stop
    ensures Legal(s, run) && NoNewSubmit(run) && Inv(After(s, run)) && After(s, run).done && After(s, run).stop
    ensures After(s, run).jobs == s.jobs && s.log.discarded <= After(s, run).log.discarded
    decreases Work(s)
  {
    if s.done {
      run := [];
    } else {
      var a := PoolProgress(s);
      LateSendStep(s, a);
      WorkStep(s, a);
      QueueStep(s, a);
      DiscardsGrow(s, a);
      var rest := ReachDone(Apply(s, a));
      run := QuietPrepend(s, a, rest);
    }
  }

  lemma DiscardsGrow(s: State, a: Action)
    requires Enabled(s, a)
    ensures s.log.discarded <= Apply(s, a).log.discarded
  {
    if a.WorkerOf? {
    } else {
      WorkLogsKept(s, a);
    }
  }

  /** From a state that is not settled a run without new Submits closes both signals with
      an accepted job left undone. */
  lemma LeaveUndone(s: State) returns (run: seq<Action>)
    requires Inv(s) && !Settled(s)
    ensures Legal(s, run) && NoNewSubmit(run)
    ensures Inv(After(s, run)) && After(s, run).stop && After(s, run).done && !Drained(After(s, run))
  {
    run := LeaveBehind(s);
    RunKeepsInv(s, run);
    LeftBehindStarted(After(s, run));
    var stop := CloseStop(After(s, run));
    run := QuietJoin(s, run, stop);
    RunKeepsInv(s, run);
    var last := ReachDone(After(s, run));
    run := QuietJoin(s, run, last);
    DrainedAtDone(After(s, run));
  }

  /** If nobody calls Submit any more (or `stop` is closed already, so that it does not
      matter), the pool drains whatever else happens exactly when it is settled: then every
      job accepted has completed whenever `done` is closed, and otherwise some continuation
      closes `done` with an accepted job left undone. */
  lemma {:induction false} SettledDrainsExactly(s: State)
    requires Inv(s)
    ensures Settled(s)
       <==> forall run :: Legal(s, run) && (s.stop || NoNewSubmit(run)) && After(s, run).done ==> Drained(After(s, run))
  {
    if Settled(s) {
      forall run | Legal(s, run) && (s.stop || NoNewSubmit(run)) && After(s, run).done
        ensures Drained(After(s, run))
      {
        SettledRun(s, run);
        DrainedAtDone(After(s, run));
      }
    } else {
      var run := LeaveUndone(s);
    }
  }

  /** Once `stop` is closed: no job queued or discarded, none a worker might still discard,
      and no Submit past the first check. */
  ghost predicate NothingPending(s: State) { NothingHeld(s) && Senders(s) == {} }

  lemma PendingIsSettled(s: State)
    requires s.stop
    ensures NothingPending(s) <==> Settled(s)
  {
    assert forall c :: c in Senders(s) <==> c in s.calls && MaySend(s, s.calls[c]);
  }

  /** Then every continuation drains the pool, new Submits or not, exactly if that holds. */
  lemma {:induction false} DrainsExactly(s: State)
    requires Inv(s) && s.stop
    ensures NothingPending(s) <==> forall run :: Legal(s, run) && After(s, run).done ==> Drained(After(s, run))
  {
    PendingIsSettled(s);
    SettledDrainsExactly(s);
  }

  // the same said of Shutdown

  /** Call `c` is a Shutdown that has returned nil. */
  predicate ToldNil(s: State, c: Ticket) {
    c in s.calls && s.calls[c].ShutdownCall? && s.calls[c].shutdown == ShutdownReturned(AllExited)
  }

  /** Whoever is in the body of stopOnce leaves it. */
  lemma LeaveStop(s: State) returns (run: seq<Action>)
    requires StopInv(s) && s.stop
    ensures Legal(s, run) && NoNewSubmit(run)
    ensures var t := After(s, run);
            && t.stopOnce.Finished? && t.started && t.done == s.done && t.jobs == s.jobs && t.log == s.log
  {
    run := [];
    if s.stopOnce.Busy? {
      var a := match s.stopOnce.owner
        case ByCall(c) => ShutdownOf(c, StopLeave)
        case ByWatcher(k) => WatcherOf(k, WatchLeaveOnce);
      var t;
      run, t := QuietExtend(s, [], a);
    }
  }

  /** A new Shutdown of a pool that is done returns nil. */
  lemma AskShutdown(s: State) returns (run: seq<Action>, c: Ticket)
    requires s.stopOnce.Finished? && s.started && s.done
    ensures Legal(s, run) && NoNewSubmit(run) && ToldNil(After(s, run), c)
    ensures After(s, run).done && After(s, run).jobs == s.jobs && After(s, run).log == s.log
  {
    c := UnusedTicket(s.calls);
    var t;
    run, t := [], s;
    run, t := QuietExtend(s, run, Invoke(c, ShutdownCall(0, ShutdownLoad)));
    run, t := QuietExtend(s, run, ShutdownOf(c, TestFlag));
    run, t := QuietExtend(s, run, ShutdownOf(c, StopPass));
    run, t := QuietExtend(s, run, ShutdownOf(c, SelectDone));
  }

  /** From a state that is not settled a Shutdown can be told nil with a job left undone. */
  lemma NilUndrained(s: State) returns (run: seq<Action>, c: Ticket)
    requires Inv(s) && !Settled(s)
    ensures Legal(s, run) && NoNewSubmit(run) && ToldNil(After(s, run), c) && !Drained(After(s, run))
  {
    run := LeaveUndone(s);
    var leave := LeaveStop(After(s, run));
    run := QuietJoin(s, run, leave);
    var ask;
    ask, c := AskShutdown(After(s, run));
    run := QuietJoin(s, run, ask);
  }

  /** If nobody calls Submit any more, every Shutdown that returns nil, made already or
      still to come, finds all accepted jobs completed, exactly when the pool is settled. */
  lemma {:induction false} ShutdownSettledExactly(s: State)
    requires Inv(s)
    ensures Settled(s)
       <==> forall run, c ::
              Legal(s, run) && (s.stop || NoNewSubmit(run)) && ToldNil(After(s, run), c) ==> Drained(After(s, run))
  {
    if Settled(s) {
      forall run, c | Legal(s, run) && (s.stop || NoNewSubmit(run)) && ToldNil(After(s, run), c)
        ensures Drained(After(s, run))
      {
        SettledRun(s, run);
        DrainedAtDone(After(s, run));
      }
    } else {
      var run, c := NilUndrained(s);
    }
  }

  /** Once `stop` is closed that holds of all continuations. */
  lemma {:induction false} ShutdownDrainsExactly(s: State)
    requires Inv(s) && s.stop
    ensures NothingPending(s)
       <==> forall run, c :: Legal(s, run) && ToldNil(After(s, run), c) ==> Drained(After(s, run))
  {
    PendingIsSettled(s);
    ShutdownSettledExactly(s);
  }

  // ----- accepting a job -----

  /** The worker may yet take a job. */
  predicate MayTake(s: State, w: Worker) {
    w.pc.JobSelect? || w.pc.Cleared? || w.pc.Running? || (w.pc.Holding? && w.ctx !in s.cancelled)
  }

  /** There is a free slot in the queue, or somebody who may yet free one. */
  ghost predicate SlotAhead(s: State) {
    || |s.jobs| < s.capacity
    || |s.workers| < s.concurrency
    || exists i: nat :: i < |s.workers| && MayTake(s, s.workers[i])
  }

  lemma ClogStep(s: State, a: Action)
    requires Inv(s) && !SlotAhead(s) && Enabled(s, a)
    ensures !SlotAhead(Apply(s, a)) && Apply(s, a).log.accepted == s.log.accepted
  {
    AcceptedStep(s, a);
    QueueStep(s, a);
    if a.WorkerOf? {
      assert !MayTake(s, s.workers[a.w]);
      WorkerClog(s, a.w, a.worker);
    } else {
      WorkLogsKept(s, a);
      NobodyNew(s, a);
    }
  }

  lemma WorkerClog(s: State, w: nat, step: WorkerStep)
    requires !SlotAhead(s) && WorkerEnabled(s, w, step)
    ensures !SlotAhead(WorkerMove(s, w, step))
  {
    var t := WorkerMove(s, w, step);
    assert !MayTake(s, s.workers[w]);
    forall i: nat | i < |t.workers| ensures !MayTake(t, t.workers[i]) {
      assert !MayTake(s, s.workers[i]);
    }
  }

  lemma NobodyNew(s: State, a: Action)
    requires Inv(s) && !SlotAhead(s) && Enabled(s, a) && !a.WorkerOf?
    requires !Sends(a) ==> Apply(s, a).jobs == s.jobs
    ensures !SlotAhead(Apply(s, a))
  {
    var t := Apply(s, a);
    assert t.workers == s.workers && t.capacity == s.capacity && s.cancelled <= t.cancelled;
    forall i: nat | i < |t.workers| ensures !MayTake(t, t.workers[i]) {
      assert !MayTake(s, s.workers[i]);
    }
  }

  lemma {:induction false} CloggedRun(s: State, run: seq<Action>)
    requires Inv(s) && !SlotAhead(s) && Legal(s, run)
    ensures After(s, run).log.accepted == s.log.accepted
    decreases run
  {
    if run == [] {
    } else {
      StepKeepsInv(s, run[0]);
      ClogStep(s, run[0]);
      CloggedRun(Apply(s, run[0]), run[1..]);
    }
  }

  /** The steps a worker is from taking a job. */
  function UntilTake(w: Worker): nat {
    match w.pc
    case Holding(_) => 4
    case Cleared(_) => 3
    case Running(_) => 2
    case _ => 1
  }

  /** A worker that may take a job can go on to do so. */
  lemma {:induction false} TakeOne(s: State, w: nat) returns (run: seq<Action>)
    requires w < |s.workers| && MayTake(s, s.workers[w]) && s.jobs != [] && |s.jobs| <= s.capacity
    ensures Legal(s, run)
    ensures var t := After(s, run);
            && t.calls == s.calls && t.stop == s.stop && t.capacity == s.capacity && |t.jobs| < t.capacity
    decreases UntilTake(s.workers[w])
  {
    var step := match s.workers[w].pc
      case Holding(_) => CheckCtx
      case Cleared(_) => BeginJob
      case Running(_) => FinishJob
      case _ => TakeJob;
    var a := WorkerOf(w, step);
    var rest := [];
    if !step.TakeJob? {
      rest := TakeOne(Apply(s, a), w);
    }
    run := Prepend(s, a, rest);
  }

  /** If not all workers have been spawned, somebody is about to. */
  lemma SpawningCall(s: State) returns (c: Ticket)
    requires StartInv(s) && s.started && |s.workers| < s.concurrency
    ensures c in s.calls && s.calls[c].StartCall?
    ensures s.calls[c].start.AddGroup? || s.calls[c].start.SpawnWorker?
  {
    c := s.startOnce.owner.c;
  }

  /** The body of startOnce can go on to spawn a worker. */
  lemma SpawnOne(s: State) returns (run: seq<Action>)
    requires StartInv(s) && s.started && |s.workers| < s.concurrency
    ensures Legal(s, run)
    ensures var t := After(s, run);
            SameSubmits(s, t) && t.stop == s.stop && t.workers != [] && t.workers[|t.workers| - 1].pc.JobSelect?
  {
    var c := SpawningCall(s);
    var t;
    run, t := [], s;
    if s.calls[c].start.AddGroup? {
      run, t := Extend(s, run, StartOf(c, AddWorkers));
    }
    run, t := Extend(s, run, StartOf(c, GoWorker));
  }

  /** A slot can be made for a Submit. */
  lemma FreeSlot(s: State, c: Ticket) returns (run: seq<Action>)
    requires Inv(s) && SlotAhead(s) && c in s.calls && MaySend(s, s.calls[c])
    ensures Legal(s, run)
    ensures var t := After(s, run); |t.jobs| < t.capacity && c in t.calls && MaySend(t, t.calls[c])
  {
    if |s.jobs| < s.capacity {
      run := [];
    } else if w: nat :| w < |s.workers| && MayTake(s, s.workers[w]) {
      run := TakeOne(s, w);
    } else {
      LeftBehindStarted(s);
      var first := SpawnOne(s);
      var t := After(s, first);
      var rest := TakeOne(t, |t.workers| - 1);
      run := Join(s, first, rest);
    }
  }

  /** and the Submit then takes it. */
  lemma AcceptJob(s: State, c: Ticket) returns (run: seq<Action>)
    requires Inv(s) && SlotAhead(s) && c in s.calls && MaySend(s, s.calls[c])
    ensures Legal(s, run) && c in After(s, run).log.accepted
  {
    run := FreeSlot(s, c);
    RunKeepsInv(s, run);
    var rest := SendJob(After(s, run), c);
    run := Join(s, run, rest);
  }

  lemma CallAndAccept(s: State, c: Ticket) returns (run: seq<Action>)
    requires Inv(s) && SlotAhead(s) && c !in s.calls && !s.stop
    ensures Legal(s, run) && c in After(s, run).log.accepted
  {
    var a := Invoke(c, SubmitCall(0, false, SubmitLoad));
    var t := Apply(s, a);
    StepKeepsInv(s, a);
    assert SlotAhead(t) by {
      if w: nat :| w < |s.workers| && MayTake(s, s.workers[w]) {
        assert MayTake(t, t.workers[w]);
      }
    }
    var rest := AcceptJob(t, c);
    run := Prepend(s, a, rest);
  }

  lemma {:induction false} NotSentRun(s: State, run: seq<Action>, c: Ticket)
    requires !MayBeSent(s, c) && Legal(s, run)
    ensures c in After(s, run).log.accepted ==> c in s.log.accepted
    decreases run
  {
    if run == [] {
    } else {
      NotSentStep(s, run[0], c);
      AcceptedStep(s, run[0]);
      NotSentRun(Apply(s, run[0]), run[1..], c);
    }
  }

  /** A job not yet accepted can still be, exactly when its Submit may get to send it (is
      past the first check, or `stop` is open and it is not a nil job) and there is, or can
      be, a slot for it. */
  lemma {:induction false} AcceptanceExactly(s: State, c: Ticket)
    requires Inv(s) && c !in s.log.accepted
    ensures (exists run :: Legal(s, run) && c in After(s, run).log.accepted) <==> MayBeSent(s, c) && SlotAhead(s)
  {
    if run :| Legal(s, run) && c in After(s, run).log.accepted {
      if !MayBeSent(s, c) {
        NotSentRun(s, run, c);
      }
      if !SlotAhead(s) {
        CloggedRun(s, run);
      }
    }
    if MayBeSent(s, c) && SlotAhead(s) {
      var run;
      if c in s.calls {
        run := AcceptJob(s, c);
      } else {
        run := CallAndAccept(s, c);
      }
    }
  }

  /** After `stop` is closed this leaves the Submits past the first check. */
  lemma {:induction false} LateAcceptanceExactly(s: State, c: Ticket)
    requires Inv(s) && s.stop && c !in s.log.accepted
    ensures (exists run :: Legal(s, run) && c in After(s, run).log.accepted) <==> c in Senders(s) && SlotAhead(s)
  {
    AcceptanceExactly(s, c);
    assert c in Senders(s) <==> MayBeSent(s, c);
  }

  // ----- done with stop open -----

  lemma {:induction false} RootStays(s: State, run: seq<Action>)
    requires Inv(s) && Legal(s, run)
    ensures s.root.Some? ==> After(s, run).root == s.root
    decreases run
  {
    if run == [] {
    } else {
      StepKeepsInv(s, run[0]);
      RootStep(s, run[0]);
      RootStays(Apply(s, run[0]), run[1..]);
    }
  }

  /** The start context is cancelled, or still to come and may be. */
  ghost predicate StartCancelled(s: State) {
    if s.root.Some? then s.root.value in s.cancelled else s.cancelled != {}
  }

  /** What the runs built here keep. */
  ghost predicate Doomed(s: State) {
    Inv(s) && !s.stop && s.root.Some? && s.root.value in s.cancelled
  }

  /** A Start with a cancelled context enters the body. */
  lemma EnterCancelled(s: State) returns (run: seq<Action>)
    requires Inv(s) && !s.stop && s.startOnce.Fresh? && s.cancelled != {}
    ensures Legal(s, run) && Doomed(After(s, run)) && After(s, run).cancelled == s.cancelled
  {
    var ctx :| ctx in s.cancelled;
    var c := UnusedTicket(s.calls);
    var t;
    run, t := Extend(s, [], Invoke(c, StartCall(ctx, StartDo)));
    run, t := Extend(s, run, StartOf(c, StartEnter));
    RunKeepsInv(s, run);
  }

  /** and runs to its end. */
  lemma {:induction false} FinishBody(s: State) returns (run: seq<Action>)
    requires Doomed(s)
    ensures Legal(s, run) && Doomed(After(s, run)) && After(s, run).cancelled == s.cancelled
    ensures After(s, run).startOnce.Finished?
    decreases StageRank(s, Stage(s))
  {
    if s.startOnce.Finished? {
      run := [];
    } else {
      var a := StartBodyStep(s, s.startOnce.owner.c);
      StepKeepsInv(s, a);
      StageSpends(s, a.c, a.start);
      var rest := FinishBody(Apply(s, a));
      run := Prepend(s, a, rest);
    }
  }

  /** The steps a worker of a cancelled pool is from its end, if it takes one more job. */
  function LeaveRank(w: Worker): nat {
    match w.pc
    case Cleared(_) => 5
    case Running(_) => 4
    case JobSelect => 3
    case Holding(_) => 2
    case Leaving => 1
    case Exited => 0
  }

  /** There is a job to take, or one can be submitted. */
  lemma SupplyJob(s: State) returns (run: seq<Action>)
    requires Doomed(s) && s.startOnce.Finished?
    ensures Legal(s, run)
    ensures var t := After(s, run);
            && Doomed(t) && t.startOnce.Finished? && t.cancelled == s.cancelled && t.workers == s.workers && t.jobs != []
  {
    run := [];
    if s.jobs == [] {
      var c := UnusedTicket(s.calls);
      var t;
      run, t := SubmitOne(s, c);
      RunKeepsInv(s, run);
    }
  }

  /** The next step of a worker whose context is cancelled, if it does not see `stop`. */
  lemma LeaveMove(s: State, w: nat) returns (a: Action)
    requires w < |s.workers| && s.workers[w].ctx in s.cancelled && !s.workers[w].pc.Exited?
    requires s.workers[w].pc.JobSelect? ==> s.jobs != []
    ensures Enabled(s, a) && a.WorkerOf?
    ensures Total(Apply(s, a).workers, LeaveRank) < Total(s.workers, LeaveRank)
  {
    var step := match s.workers[w].pc
      case JobSelect => TakeJob
      case Holding(_) => CheckCtx
      case Cleared(_) => BeginJob
      case Running(_) => FinishJob
      case _ => WorkerStep.GroupDone;
    a := WorkerOf(w, step);
    WorkersStep(s, a, LeaveRank);
  }

  /** One worker gets a step nearer to its end without seeing `stop`. */
  lemma LeaveStep(s: State, w: nat) returns (run: seq<Action>)
    requires Doomed(s) && s.startOnce.Finished? && w < |s.workers| && !s.workers[w].pc.Exited?
    ensures Legal(s, run)
    ensures var t := After(s, run);
            && Doomed(t) && t.startOnce.Finished? && t.cancelled == s.cancelled
            && Total(t.workers, LeaveRank) < Total(s.workers, LeaveRank)
  {
    run := [];
    if s.workers[w].pc.JobSelect? {
      run := SupplyJob(s);
    }
    var t := After(s, run);
    var a := LeaveMove(t, w);
    StepKeepsInv(t, a);
    var u;
    run, u := Extend(s, run, a);
  }

  lemma {:induction false} LeaveAll(s: State) returns (run: seq<Action>)
    requires Doomed(s) && s.startOnce.Finished?
    ensures Legal(s, run)
    ensures var t := After(s, run);
            && Doomed(t) && t.startOnce.Finished? && t.cancelled == s.cancelled
            && forall w: nat :: w < |t.workers| ==> t.workers[w].pc.Exited?
    decreases Total(s.workers, LeaveRank)
  {
    if w: nat :| w < |s.workers| && !s.workers[w].pc.Exited? {
      var first := LeaveStep(s, w);
      var rest := LeaveAll(After(s, first));
      run := Join(s, first, rest);
    } else {
      run := [];
    }
  }

  /** The closer sees that all workers have left. */
  lemma CloseUp(s: State) returns (run: seq<Action>)
    requires Doomed(s) && s.startOnce.Finished?
    requires forall w: nat :: w < |s.workers| ==> s.workers[w].pc.Exited?
    ensures Legal(s, run)
    ensures var t := After(s, run); t.done && !t.stop && t.cancelled == s.cancelled
  {
    AllExitedCount(s.workers);
    assert CloserInv(s, s.closers[0]);
    var t;
    run, t := [], s;
    if s.closers[0].AwaitGroup? {
      run, t := Extend(s, run, CloserOf(0, GroupWaited));
    }
    if !t.done {
      run, t := Extend(s, run, CloserOf(0, CloserStep.CloseDoneChannel));
    }
  }

  /** While `stop` is open, `done` can be closed before it, with no further context being
      cancelled, exactly when the start context is cancelled already (or Start is still to
      be called and may be given a cancelled one). */
  lemma {:induction false} DoneBeforeStopExactly(s: State)
    requires Inv(s) && !s.stop
    ensures (exists run :: Legal(s, run) && After(s, run).done && !After(s, run).stop && After(s, run).cancelled == s.cancelled)
       <==> StartCancelled(s)
  {
    if run :| Legal(s, run) && After(s, run).done && !After(s, run).stop && After(s, run).cancelled == s.cancelled {
      RunKeepsInv(s, run);
      DoneSignal(After(s, run));
      RootStays(s, run);
    }
    if StartCancelled(s) {
      var run := [];
      if s.root.None? {
        run := EnterCancelled(s);
      }
      var body := FinishBody(After(s, run));
      run := Join(s, run, body);
      var leave := LeaveAll(After(s, run));
      run := Join(s, run, leave);
      var last := CloseUp(After(s, run));
      run := Join(s, run, last);
    }
  }
}
