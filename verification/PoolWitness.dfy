/** Runs that exist, for every pool size.  They show that the bounds are reached and that
    three tempting claims are false: Shutdown does not drain the queue, a closed `stop`
    does not keep every Submit out, and `done` does not imply `stop`.  PoolExact says when
    they hold. */
module PoolWitness {
  import opened Options
  import opened PoolState
  import opened PoolInvariant
  import opened PoolSafety
  import opened PoolShutdown

  /** One more step at the end of a run. */
  lemma Extend(s: State, run: seq<Action>, a: Action) returns (longer: seq<Action>, t: State)
    requires Legal(s, run) && Enabled(After(s, run), a)
    ensures Legal(s, longer) && t == After(s, longer) == Apply(After(s, run), a)
  {
    LegalSnoc(s, run, a);
    longer, t := run + [a], Apply(After(s, run), a);
  }

  /** A run, then another from where it ends. */
  lemma Join(s: State, first: seq<Action>, second: seq<Action>) returns (run: seq<Action>)
    requires Legal(s, first) && Legal(After(s, first), second)
    ensures Legal(s, run) && After(s, run) == After(After(s, first), second)
  {
    LegalConcat(s, first, second);
    run := first + second;
  }

  // ----- building blocks -----

  /** A pool whose Start (call 0, context 0) has returned, with `busy` workers that no
      longer wait for a job, and with the tickets from `next` on unused. */
  ghost predicate Up(s: State, busy: nat, next: nat) {
    && s.started && s.startOnce.Finished? && !s.stop && s.stopOnce.Fresh? && !s.done
    && |s.workers| == s.concurrency && s.watchers == [Watcher(0, WatchSelect)] && s.closers == [AwaitGroup]
    && (forall i :: 0 <= i < |s.workers| ==> s.workers[i].ctx == 0)
    && (forall i :: busy <= i < |s.workers| ==> s.workers[i].pc.JobSelect?)
    && (forall c :: c in s.calls ==> c < next)
  }

  lemma StartUp(concurrency: nat, capacity: nat) returns (run: seq<Action>, s: State)
    requires 1 <= concurrency && 1 <= capacity
    ensures PoolRun(concurrency, capacity, run) && s == End(concurrency, capacity, run)
    ensures Up(s, 0, 1) && s.jobs == [] && s.log == EMPTY_LOGS && s.cancelled == {} && s.wg == concurrency
    ensures s.concurrency == concurrency && s.capacity == capacity && s.root == Some(0)
    ensures s.calls == map[0 := StartCall(0, StartReturned)]
  {
    var init := Init(concurrency, capacity);
    run, s := EnterStart(init);
    run, s := SpawnAll(init, run, s);
    var last, t := FinishStart(s);
    run := Join(init, run, last);
    s := t;
  }

  /** Start up to its loop. */
  lemma EnterStart(init: State) returns (run: seq<Action>, s: State)
    requires init == Init(init.concurrency, init.capacity) && 1 <= init.concurrency
    ensures Legal(init, run) && s == After(init, run) && Spawning(s, 0)
    ensures s.concurrency == init.concurrency && s.capacity == init.capacity
  {
    run, s := [], init;
    run, s := Extend(init, run, Invoke(0, StartCall(0, StartDo)));
    run, s := Extend(init, run, StartOf(0, StartEnter));
    run, s := Extend(init, run, StartOf(0, StoreFlag));
    run, s := Extend(init, run, StartOf(0, AddWorkers));
  }

  /** Start after its loop. */
  lemma FinishStart(s: State) returns (run: seq<Action>, t: State)
    requires s.calls == map[0 := StartCall(0, SpawnWatcher)]
    ensures Legal(s, run) && t == After(s, run)
    ensures t == s.(calls := map[0 := StartCall(0, StartReturned)], startOnce := Finished,
                    watchers := s.watchers + [Watcher(0, WatchSelect)], closers := s.closers + [AwaitGroup])
  {
    run, t := [], s;
    run, t := Extend(s, run, StartOf(0, GoWatcher));
    run, t := Extend(s, run, StartOf(0, GoCloser));
    run, t := Extend(s, run, StartOf(0, StartLeave));
  }

  ghost predicate Spawning(s: State, i: nat) {
    && s.calls == map[0 := StartCall(0, SpawnWorker(i))] && i < s.concurrency
    && s.started && s.startOnce == Busy(ByCall(0)) && !s.stop && s.stopOnce.Fresh? && !s.done
    && |s.workers| == i && (forall k :: 0 <= k < |s.workers| ==> s.workers[k] == Worker(0, JobSelect))
    && s.watchers == [] && s.closers == [] && s.jobs == [] && s.log == EMPTY_LOGS && s.cancelled == {}
    && s.root == Some(0) && s.wg == s.concurrency
  }

  lemma {:induction false} SpawnAll(init: State, run: seq<Action>, s: State) returns (longer: seq<Action>, t: State)
    requires Legal(init, run) && s == After(init, run) && Spawning(s, |s.workers|)
    ensures Legal(init, longer) && t == After(init, longer)
    ensures t.calls == map[0 := StartCall(0, SpawnWatcher)] && t.concurrency == s.concurrency && t.capacity == s.capacity
    ensures t.started && t.startOnce == Busy(ByCall(0)) && !t.stop && t.stopOnce.Fresh? && !t.done
    ensures |t.workers| == t.concurrency && forall k :: 0 <= k < |t.workers| ==> t.workers[k] == Worker(0, JobSelect)
    ensures t.watchers == [] && t.closers == [] && t.jobs == [] && t.log == EMPTY_LOGS && t.cancelled == {}
    ensures t.root == Some(0) && t.wg == t.concurrency
    decreases s.concurrency - |s.workers|
  {
    longer, t := Extend(init, run, StartOf(0, GoWorker));
    if |t.workers| < t.concurrency {
      longer, t := SpawnAll(init, longer, t);
    }
  }

  /** Submit call `c` up to its second select. */
  lemma PassCheck(s: State, c: Ticket) returns (run: seq<Action>, t: State)
    requires s.started && !s.stop && c !in s.calls
    ensures Legal(s, run) && t == After(s, run)
    ensures t == s.(calls := s.calls[c := SubmitCall(1, false, SendSelect)])
  {
    run, t := [], s;
    run, t := Extend(s, run, Invoke(c, SubmitCall(1, false, SubmitLoad)));
    run, t := Extend(s, run, SubmitOf(c, TestStarted));
    run, t := Extend(s, run, SubmitOf(c, CheckStop));
  }

  /** A Submit that returns nil. */
  lemma SubmitOne(s: State, c: Ticket) returns (run: seq<Action>, t: State)
    requires s.started && !s.stop && |s.jobs| < s.capacity && c !in s.calls
    ensures Legal(s, run) && t == After(s, run)
    ensures t == s.(calls := s.calls[c := SubmitCall(1, false, SubmitReturned(Accepted))],
                    jobs := s.jobs + [c], log := s.log.(accepted := s.log.accepted + [c]))
  {
    run, t := PassCheck(s, c);
    run, t := Extend(s, run, SubmitOf(c, SelectSend));
  }

  // ----- backpressure is tight -----

  /** Accept a job for each of the workers still waiting and let it take the job. */
  lemma {:induction false} FillWorkers(s: State, busy: nat) returns (run: seq<Action>, t: State)
    requires Up(s, busy, busy + 1) && busy <= s.concurrency && s.jobs == [] && 1 <= s.capacity
    requires |s.log.accepted| == busy && s.log.completed == []
    ensures Legal(s, run) && t == After(s, run)
    ensures Up(t, s.concurrency, s.concurrency + 1) && t.jobs == []
    ensures |t.log.accepted| == s.concurrency && t.log.completed == []
    ensures t.concurrency == s.concurrency && t.capacity == s.capacity
    decreases s.concurrency - busy
  {
    if busy == s.concurrency {
      run, t := [], s;
    } else {
      var first, mid := SubmitOne(s, busy + 1);
      first, mid := Extend(s, first, WorkerOf(busy, TakeJob));
      var rest;
      rest, t := FillWorkers(mid, busy + 1);
      run := Join(s, first, rest);
    }
  }

  /** Then accept jobs until the queue is full. */
  lemma {:induction false} FillQueue(s: State, next: nat) returns (run: seq<Action>, t: State)
    requires Up(s, s.concurrency, next) && |s.jobs| <= s.capacity
    ensures Legal(s, run) && t == After(s, run)
    ensures |t.jobs| == s.capacity && t.log.completed == s.log.completed
    ensures |t.log.accepted| == |s.log.accepted| + s.capacity - |s.jobs|
    decreases s.capacity - |s.jobs|
  {
    if |s.jobs| == s.capacity {
      run, t := [], s;
    } else {
      var first, mid := SubmitOne(s, next);
      var rest;
      rest, t := FillQueue(mid, next + 1);
      run := Join(s, first, rest);
    }
  }

  /** The bound of PoolSafety.Backpressure is reached by every pool. */
  lemma BackpressureTight(concurrency: nat, capacity: nat) returns (run: seq<Action>)
    requires 1 <= concurrency && 1 <= capacity
    ensures PoolRun(concurrency, capacity, run)
    ensures var s := End(concurrency, capacity, run);
            |s.log.accepted| - |s.log.completed| == concurrency + capacity
  {
    var s;
    run, s := StartUp(concurrency, capacity);
    var fill, full := FillWorkers(s, 0);
    run := Join(Init(concurrency, capacity), run, fill);
    var more, end := FillQueue(full, concurrency + 1);
    run := Join(Init(concurrency, capacity), run, more);
  }

  // ----- done with stop open -----

  /** `left` workers have exited after discarding a job; the others wait. */
  ghost predicate Leaking(s: State, left: nat) {
    && Up(s, left, left + 1) && s.jobs == [] && 1 <= s.capacity && 0 in s.cancelled && s.wg == s.concurrency - left
    && (forall c :: c in s.calls ==> Returned(s.calls[c]))
  }

  /** Each waiting worker takes one more job, sees the cancellation, and leaves. */
  lemma {:induction false} LeakWorkers(s: State, left: nat) returns (run: seq<Action>, t: State)
    requires Leaking(s, left) && left <= s.concurrency
    ensures Legal(s, run) && t == After(s, run) && Leaking(t, s.concurrency) && t.concurrency == s.concurrency
    decreases s.concurrency - left
  {
    if left == s.concurrency {
      run, t := [], s;
    } else {
      var first, mid := SubmitOne(s, left + 1);
      first, mid := Extend(s, first, WorkerOf(left, TakeJob));
      first, mid := Extend(s, first, WorkerOf(left, CheckCtx));
      first, mid := Extend(s, first, WorkerOf(left, WorkerStep.GroupDone));
      var rest;
      rest, t := LeakWorkers(mid, left + 1);
      run := Join(s, first, rest);
    }
  }

  /** `done` can be closed while `stop` is open, and then a Submit is told its job was
      accepted although no continuation ever begins it. */
  lemma DoneWithStopOpen(concurrency: nat, capacity: nat) returns (run: seq<Action>, job: Ticket)
    requires 1 <= concurrency && 1 <= capacity
    ensures PoolRun(concurrency, capacity, run)
    ensures var s := End(concurrency, capacity, run);
            && s.done && !s.stop && job in s.log.accepted
            && forall later :: Legal(s, later) ==> job !in After(s, later).log.begun
  {
    var init := Init(concurrency, capacity);
    var s;
    run, s := StartUp(concurrency, capacity);
    run, s := Extend(init, run, Cancel(0));
    var leak, t := LeakWorkers(s, 0);
    run := Join(init, run, leak);
    var finish, done := CloseDone(t);
    run := Join(init, run, finish);
    t := done;
    job := concurrency + 1;
    var last, end := SubmitOne(t, job);
    run := Join(init, run, last);
    PoolRunInv(concurrency, capacity, run);
    forall later | Legal(end, later) ensures job !in After(end, later).log.begun {
      Quiescence(end, later);
      QueuedNotBegun(end, job);
    }
  }

  /** Such a pool can be abandoned for good: the watcher leaves without closing `stop`, and
      nothing moves any more. */
  lemma AbandonedWithStopOpen(concurrency: nat, capacity: nat) returns (run: seq<Action>)
    requires 1 <= concurrency && 1 <= capacity
    ensures PoolRun(concurrency, capacity, run)
    ensures var s := End(concurrency, capacity, run);
            && s.done && !s.stop && s.watchers == [Watcher(0, WatchExited)] && 0 in s.cancelled
            && |s.log.discarded| == concurrency && NothingMoves(s)
  {
    var init := Init(concurrency, capacity);
    var s;
    run, s := StartUp(concurrency, capacity);
    run, s := Extend(init, run, Cancel(0));
    var leak, t := LeakWorkers(s, 0);
    run := Join(init, run, leak);
    var finish, done := CloseDone(t);
    run := Join(init, run, finish);
    run, t := Extend(init, run, WatcherOf(0, WatchDone));
    PoolRunInv(concurrency, capacity, run);
    AbandonedRest(t);
  }

  lemma AbandonedRest(s: State)
    requires Inv(s) && s.done && !s.stop && s.watchers == [Watcher(0, WatchExited)] && 0 in s.cancelled
    requires s.startOnce.Finished? && (forall i :: 0 <= i < |s.workers| ==> s.workers[i].ctx == 0)
    requires forall c :: c in s.calls ==> Returned(s.calls[c])
    ensures NothingMoves(s) && |s.log.discarded| == s.concurrency
  {
    DoneMeansExited(s);
    AllGoneCount(s.workers);
    assert s.workers[0].ctx == s.root.value;
    RestWithStopOpen(s);
  }

  lemma QueuedNotBegun(s: State, job: Ticket)
    requires Inv(s) && job in s.jobs
    ensures job !in s.log.begun
  {
    AtMostOnce(s.log.accepted, job);
    ExecutingInHand(s.workers);
    assert multiset(s.log.accepted)[job] == multiset(s.log.dequeued)[job] + multiset(s.jobs)[job];
    assert multiset(s.jobs)[job] >= 1;
    assert multiset(s.log.begun)[job] <= multiset(s.log.dequeued)[job];
  }

  // ----- no drain -----

  /** Shutdown call `c` up to its select. */
  lemma CloseIt(s: State, c: Ticket) returns (run: seq<Action>, t: State)
    requires s.started && !s.stop && s.stopOnce.Fresh? && !s.panicked && c !in s.calls
    ensures Legal(s, run) && t == After(s, run)
    ensures t == s.(calls := s.calls[c := ShutdownCall(1, DoneSelect)], stop := true, stopOnce := Finished)
  {
    run, t := [], s;
    run, t := Extend(s, run, Invoke(c, ShutdownCall(1, ShutdownLoad)));
    run, t := Extend(s, run, ShutdownOf(c, TestFlag));
    run, t := Extend(s, run, ShutdownOf(c, StopEnter));
    run, t := Extend(s, run, ShutdownOf(c, StopClose));
    run, t := Extend(s, run, ShutdownOf(c, StopLeave));
  }

  ghost predicate Stopping(s: State, left: nat) {
    && s.stop && !s.done && |s.workers| == s.concurrency && s.closers == [AwaitGroup] && s.wg == s.concurrency - left
    && (forall i :: left <= i < |s.workers| ==> s.workers[i].pc.JobSelect?)
  }

  /** Every waiting worker picks the stop case of its select. */
  lemma {:induction false} StopWorkers(s: State, left: nat) returns (run: seq<Action>, t: State)
    requires Stopping(s, left) && left <= s.concurrency
    ensures Legal(s, run) && t == After(s, run) && Stopping(t, s.concurrency) && t.concurrency == s.concurrency
    ensures t.jobs == s.jobs && t.log == s.log && t.calls == s.calls
    decreases s.concurrency - left
  {
    if left == s.concurrency {
      run, t := [], s;
    } else {
      var first, mid := Extend(s, [], WorkerOf(left, TakeStop));
      first, mid := Extend(s, first, WorkerOf(left, WorkerStep.GroupDone));
      var rest;
      rest, t := StopWorkers(mid, left + 1);
      run := Join(s, first, rest);
    }
  }

  /** Shutdown can return nil while an accepted job is still in the queue, where it stays
      for ever. */
  lemma ShutdownDoesNotDrain(concurrency: nat, capacity: nat) returns (run: seq<Action>)
    requires 1 <= concurrency && 1 <= capacity
    ensures PoolRun(concurrency, capacity, run)
    ensures var s := End(concurrency, capacity, run);
            && 1 in s.calls && s.calls[1] == SubmitCall(1, false, SubmitReturned(Accepted))
            && 2 in s.calls && s.calls[2] == ShutdownCall(1, ShutdownReturned(AllExited))
            && s.jobs == [1] && s.log.begun == []
  {
    var init := Init(concurrency, capacity);
    var s;
    run, s := StartUp(concurrency, capacity);
    var submit, queued := SubmitOne(s, 1);
    run := Join(init, run, submit);
    PoolRunInv(concurrency, capacity, run);
    var shut, closed := CloseIt(queued, 2);
    run := Join(init, run, shut);
    var leave, t := StopWorkers(closed, 0);
    run := Join(init, run, leave);
    var finish, done := CloseDone(t);
    run := Join(init, run, finish);
    run, t := Extend(init, run, ShutdownOf(2, SelectDone));
  }

  // ----- cancelled callers -----

  /** The first worker is executing job 1, nothing is queued and nobody has stopped. */
  lemma OneRunning(concurrency: nat, capacity: nat) returns (run: seq<Action>, s: State)
    requires 1 <= concurrency && 1 <= capacity
    ensures PoolRun(concurrency, capacity, run) && s == End(concurrency, capacity, run)
    ensures s.started && !s.stop && s.stopOnce.Fresh? && !s.done && !s.panicked && 2 !in s.calls && s.cancelled == {}
    ensures s.workers != [] && s.workers[0].pc == Running(1)
  {
    var init := Init(concurrency, capacity);
    run, s := StartUp(concurrency, capacity);
    var submit, t := SubmitOne(s, 1);
    run := Join(init, run, submit);
    run, s := Extend(init, run, WorkerOf(0, TakeJob));
    run, s := Extend(init, run, WorkerOf(0, CheckCtx));
    run, s := Extend(init, run, WorkerOf(0, BeginJob));
    PoolRunInv(concurrency, capacity, run);
  }

  /** Shutdown can return its context's error while a job is still running. */
  lemma CancelledShutdown(concurrency: nat, capacity: nat) returns (run: seq<Action>)
    requires 1 <= concurrency && 1 <= capacity
    ensures PoolRun(concurrency, capacity, run)
    ensures var s := End(concurrency, capacity, run);
            && 2 in s.calls && s.calls[2] == ShutdownCall(1, ShutdownReturned(ShutdownContextDone))
            && s.stop && !s.done && s.workers != [] && s.workers[0].pc == Running(1)
  {
    var init := Init(concurrency, capacity);
    var s;
    run, s := OneRunning(concurrency, capacity);
    var shut, closed := CloseIt(s, 2);
    run := Join(init, run, shut);
    var t;
    run, t := Extend(init, run, Cancel(1));
    run, t := Extend(init, run, ShutdownOf(2, SelectCancel));
  }

  /** and so can a Submit, with neither signal given. */
  lemma CancelledSubmit(concurrency: nat, capacity: nat) returns (run: seq<Action>)
    requires 1 <= concurrency && 1 <= capacity
    ensures PoolRun(concurrency, capacity, run)
    ensures var s := End(concurrency, capacity, run);
            && 2 in s.calls && s.calls[2] == SubmitCall(1, false, SubmitReturned(SubmitContextDone))
            && !s.stop && !s.done && s.workers != [] && s.workers[0].pc == Running(1)
  {
    var init := Init(concurrency, capacity);
    var s;
    run, s := OneRunning(concurrency, capacity);
    var check, passed := PassCheck(s, 2);
    run := Join(init, run, check);
    var t;
    run, t := Extend(init, run, Cancel(1));
    run, t := Extend(init, run, SubmitOf(2, SelectCtx));
  }

  /** The closer sees a WaitGroup at zero. */
  lemma CloseDone(s: State) returns (run: seq<Action>, t: State)
    requires s.closers == [AwaitGroup] && s.wg == 0 && !s.done
    ensures Legal(s, run) && t == After(s, run) && t == s.(closers := [CloserExited], done := true)
  {
    run, t := [], s;
    run, t := Extend(s, run, CloserOf(0, GroupWaited));
    run, t := Extend(s, run, CloserOf(0, CloserStep.CloseDoneChannel));
  }

  // ----- late acceptance -----

  /** A Submit that passed the first check can return nil after `stop` is closed, and its
      job can begin even then. */
  lemma AcceptedAfterStop(concurrency: nat, capacity: nat) returns (before: seq<Action>, after: seq<Action>)
    requires 1 <= concurrency && 1 <= capacity
    ensures PoolRun(concurrency, capacity, before)
    ensures var s := End(concurrency, capacity, before);
            && s.stop && s.log.accepted == [] && Legal(s, after)
            && After(s, after).log.accepted == [1] && After(s, after).log.begun == [1]
  {
    var init := Init(concurrency, capacity);
    var s;
    before, s := StartUp(concurrency, capacity);
    PoolRunInv(concurrency, capacity, before);
    var check, passed := PassCheck(s, 1);
    before := Join(init, before, check);
    var shut, closed := CloseIt(passed, 2);
    before := Join(init, before, shut);
    var t;
    after, t := SendAndBegin(closed);
  }

  /** The waiting Submit sends, and the first worker takes its job and begins it. */
  lemma SendAndBegin(s: State) returns (run: seq<Action>, t: State)
    requires SubmitEnabled(s, 1, SelectSend) && s.jobs == [] && s.log == EMPTY_LOGS && s.cancelled == {}
    requires s.workers != [] && s.workers[0].pc.JobSelect?
    ensures Legal(s, run) && t == After(s, run) && t.log.accepted == [1] && t.log.begun == [1]
  {
    run, t := [], s;
    run, t := Extend(s, run, SubmitOf(1, SelectSend));
    run, t := Extend(s, run, WorkerOf(0, TakeJob));
    run, t := Extend(s, run, WorkerOf(0, CheckCtx));
    run, t := Extend(s, run, WorkerOf(0, BeginJob));
  }
}
