/** What holds in every state every run reaches, whatever the interleaving and however many
    callers there are. */
module PoolSafety {
  import opened PoolState
  import opened Sums
  import opened PoolInvariant

  /** The run starts with the pool New returns. */
  ghost predicate PoolRun(concurrency: nat, capacity: nat, run: seq<Action>) {
    1 <= concurrency && 1 <= capacity && Legal(Init(concurrency, capacity), run)
  }

  ghost function End(concurrency: nat, capacity: nat, run: seq<Action>): State
    requires PoolRun(concurrency, capacity, run)
  {
    After(Init(concurrency, capacity), run)
  }

  lemma PoolRunInv(concurrency: nat, capacity: nat, run: seq<Action>)
    requires PoolRun(concurrency, capacity, run)
    ensures Inv(End(concurrency, capacity, run))
    ensures End(concurrency, capacity, run).concurrency == concurrency
    ensures End(concurrency, capacity, run).capacity == capacity
  {
    InitInv(concurrency, capacity);
    RunKeepsInv(Init(concurrency, capacity), run);
    RunKeepsSizes(Init(concurrency, capacity), run);
  }

  lemma {:induction false} RunKeepsSizes(s: State, run: seq<Action>)
    requires Legal(s, run)
    ensures After(s, run).concurrency == s.concurrency && After(s, run).capacity == s.capacity
    decreases run
  {
    if run == [] {
    } else {
      RunKeepsSizes(Apply(s, run[0]), run[1..]);
    }
  }

  // ----- counting the labels of a run -----

  /** If every step of class `k` raises `phi` by one and no other step changes it, then
      `phi` counts the steps of that class. */
  lemma {:induction false} Tally(s: State, run: seq<Action>, k: Action -> bool, phi: State -> nat)
    requires Inv(s) && Legal(s, run)
    requires forall t, a :: Inv(t) && Enabled(t, a) ==> phi(Apply(t, a)) == phi(t) + if k(a) then 1 else 0
    ensures phi(After(s, run)) == phi(s) + Count(run, k)
    decreases run
  {
    if run == [] {
    } else {
      StepKeepsInv(s, run[0]);
      Tally(Apply(s, run[0]), run[1..], k, phi);
    }
  }

  // ----- conservation and backpressure -----

  /** Every accepted job is in the queue, in a worker's hands, completed or discarded, and
      in exactly one of these places. */
  lemma Conservation(concurrency: nat, capacity: nat, run: seq<Action>)
    requires PoolRun(concurrency, capacity, run)
    ensures var s := End(concurrency, capacity, run);
            && multiset(s.log.accepted)
               == multiset(s.jobs) + Bag(s.workers, InHand) + multiset(s.log.completed) + multiset(s.log.discarded)
            && NoDuplicates(s.log.accepted)
  {
    PoolRunInv(concurrency, capacity, run);
    var s := End(concurrency, capacity, run);
    assert multiset(s.log.accepted) == multiset(s.log.dequeued) + multiset(s.jobs);
  }

  /** A worker that discards a job never takes another: jobs in hand and discarded jobs
      together never outnumber the workers, so the jobs accepted and not completed never
      outnumber workers and queue slots together, even after cancellation. */
  lemma Backpressure(concurrency: nat, capacity: nat, run: seq<Action>)
    requires PoolRun(concurrency, capacity, run)
    ensures var s := End(concurrency, capacity, run);
            && |Bag(s.workers, InHand)| + |s.log.discarded| <= concurrency
            && |s.log.accepted| - |s.log.completed| <= concurrency + capacity
  {
    PoolRunInv(concurrency, capacity, run);
    var s := End(concurrency, capacity, run);
    BagSize(s.workers, InHand, HandOne);
    HandsAndGone(s.workers);
    assert |multiset(s.log.dequeued)| == |s.log.dequeued|;
  }

  lemma {:induction false} HandsAndGone(ws: seq<Worker>)
    ensures Total(ws, HandOne) + Total(ws, GoneOne) <= |ws|
  {
    if ws == [] {
    } else {
      HandsAndGone(ws[1..]);
    }
  }

  /** The queue is first in, first out, and no accepted job begins, completes or is
      discarded more than once, or both begins and is discarded. */
  lemma FirstInFirstOut(concurrency: nat, capacity: nat, run: seq<Action>)
    requires PoolRun(concurrency, capacity, run)
    ensures var s := End(concurrency, capacity, run);
            && s.log.accepted == s.log.dequeued + s.jobs
            && (forall j :: multiset(s.log.begun)[j] + multiset(s.log.discarded)[j] <= multiset(s.log.dequeued)[j] <= 1)
            && (forall j :: multiset(s.log.completed)[j] <= multiset(s.log.begun)[j])
  {
    PoolRunInv(concurrency, capacity, run);
    var s := End(concurrency, capacity, run);
    ExecutingInHand(s.workers);
    forall j ensures multiset(s.log.begun)[j] + multiset(s.log.discarded)[j] <= multiset(s.log.dequeued)[j] <= 1 {
      AtMostOnce(s.log.accepted, j);
      assert multiset(s.log.accepted) == multiset(s.log.dequeued) + multiset(s.jobs);
    }
  }

  lemma {:induction false} ExecutingInHand(ws: seq<Worker>)
    ensures Bag(ws, Executing) <= Bag(ws, InHand)
  {
    if ws == [] {
    } else {
      ExecutingInHand(ws[1..]);
    }
  }

  lemma {:induction false} AtMostOnce<T>(xs: seq<T>, x: T)
    requires NoDuplicates(xs)
    ensures multiset(xs)[x] <= 1
  {
    if xs == [] {
    } else {
      AtMostOnce(xs[1..], x);
      assert xs == [xs[0]] + xs[1..];
      if multiset(xs[1..])[x] == 1 {
        assert x in xs[1..];
      }
    }
  }

  // ----- signals -----

  predicate ClosesStop(a: Action) {
    (a.ShutdownOf? && a.shutdown.StopClose?) || (a.WatcherOf? && a.watcher.WatchCloseStop?)
  }

  predicate ClosesDone(a: Action) { a.CloserOf? && a.closer.CloseDoneChannel? }

  function StopBit(s: State): nat { if s.stop then 1 else 0 }

  function DoneBit(s: State): nat { if s.done then 1 else 0 }

  /** However the watcher and any number of Shutdown calls race, each signal channel is
      closed at most once, exactly once if it is closed, and nothing panics. */
  lemma CloseOnce(concurrency: nat, capacity: nat, run: seq<Action>)
    requires PoolRun(concurrency, capacity, run)
    ensures var s := End(concurrency, capacity, run);
            && Count(run, ClosesStop) == (if s.stop then 1 else 0)
            && Count(run, ClosesDone) == (if s.done then 1 else 0)
            && !s.panicked
  {
    PoolRunInv(concurrency, capacity, run);
    InitInv(concurrency, capacity);
    StopCloses(Init(concurrency, capacity), run);
    DoneCloses(Init(concurrency, capacity), run);
  }

  lemma StopCloses(s: State, run: seq<Action>)
    requires Inv(s) && Legal(s, run)
    ensures StopBit(After(s, run)) == StopBit(s) + Count(run, ClosesStop)
  {
    forall t, a | Inv(t) && Enabled(t, a)
      ensures StopBit(Apply(t, a)) == StopBit(t) + if ClosesStop(a) then 1 else 0
    {
      StopStep(t, a);
    }
    Tally(s, run, ClosesStop, StopBit);
  }

  lemma DoneCloses(s: State, run: seq<Action>)
    requires Inv(s) && Legal(s, run)
    ensures DoneBit(After(s, run)) == DoneBit(s) + Count(run, ClosesDone)
  {
    forall t, a | Inv(t) && Enabled(t, a)
      ensures DoneBit(Apply(t, a)) == DoneBit(t) + if ClosesDone(a) then 1 else 0
    {
      DoneStep(t, a);
    }
    Tally(s, run, ClosesDone, DoneBit);
  }

  lemma StopStep(s: State, a: Action)
    requires Inv(s) && Enabled(s, a)
    ensures Apply(s, a).stop == (s.stop || ClosesStop(a))
    ensures ClosesStop(a) ==> !s.stop
  {
  }

  lemma DoneStep(s: State, a: Action)
    requires Inv(s) && Enabled(s, a)
    ensures Apply(s, a).done == (s.done || ClosesDone(a))
    ensures ClosesDone(a) ==> !s.done
  {
  }

  /** `done` closed means `stop` closed or the start context cancelled; neither alone
      follows (see PoolExact.DoneBeforeStopExactly). */
  lemma DoneNeedsSignal(concurrency: nat, capacity: nat, run: seq<Action>)
    requires PoolRun(concurrency, capacity, run)
    ensures var s := End(concurrency, capacity, run);
            s.done ==> s.stop || (s.root.Some? && s.root.value in s.cancelled)
  {
    PoolRunInv(concurrency, capacity, run);
    if End(concurrency, capacity, run).done {
      DoneSignal(End(concurrency, capacity, run));
    }
  }

  lemma DoneSignal(s: State)
    requires Inv(s) && s.done
    ensures s.stop || (s.root.Some? && s.root.value in s.cancelled)
  {
    DoneMeansExited(s);
    assert s.workers[0].pc.Exited?;
  }

  lemma DoneMeansExited(s: State)
    requires Inv(s) && s.done
    ensures |s.workers| == s.concurrency
    ensures forall i :: 0 <= i < |s.workers| ==> s.workers[i].pc.Exited?
  {
    assert s.closers != [];
    assert CloserInv(s, s.closers[0]);
    EachExited(s.workers);
  }

  /** From wg.Add on the counter is the number of workers that have not exited, spawned or
      not, so whenever the closer is there to see zero all workers have been spawned and
      have exited. */
  lemma WaitGroup(concurrency: nat, capacity: nat, run: seq<Action>)
    requires PoolRun(concurrency, capacity, run)
    ensures var s := End(concurrency, capacity, run);
            && (Added(Stage(s)) ==> s.wg == concurrency - Total(s.workers, ExitedOne))
            && (s.closers != [] && s.wg == 0 ==>
                  |s.workers| == concurrency && forall i :: 0 <= i < |s.workers| ==> s.workers[i].pc.Exited?)
  {
    PoolRunInv(concurrency, capacity, run);
    var s := End(concurrency, capacity, run);
    if s.closers != [] && s.wg == 0 {
      EachExited(s.workers);
    }
  }

  lemma EachExited(ws: seq<Worker>)
    requires Total(ws, ExitedOne) == |ws|
    ensures forall i :: 0 <= i < |ws| ==> ws[i].pc.Exited?
  {
    TotalFull(ws, ExitedOne);
    forall i | 0 <= i < |ws| ensures ws[i].pc.Exited? {
      assert ws[i] in ws;
    }
  }

  // ----- quiescence -----

  predicate WorkerActs(a: Action) { a.WorkerOf? }

  /** Once `done` is closed all workers have exited and no continuation of the run, with
      any new calls of Start, Submit and Shutdown, contains a step of a worker: no job is
      running and none ever starts again. */
  lemma {:induction false} Quiescence(s: State, run: seq<Action>)
    requires Inv(s) && s.done && Legal(s, run)
    ensures var t := After(s, run);
            && Count(run, WorkerActs) == 0
            && t.done && t.workers == s.workers && |t.workers| == t.concurrency
            && t.log.dequeued == s.log.dequeued && t.log.begun == s.log.begun
            && t.log.completed == s.log.completed && t.log.discarded == s.log.discarded
            && (forall i :: 0 <= i < |t.workers| ==> t.workers[i].pc.Exited?)
    decreases run
  {
    DoneMeansExited(s);
    if run == [] {
    } else {
      StepKeepsInv(s, run[0]);
      DoneStep(s, run[0]);
      DoneFreezes(s, run[0]);
      Quiescence(Apply(s, run[0]), run[1..]);
    }
  }

  lemma DoneFreezes(s: State, a: Action)
    requires Inv(s) && s.done && Enabled(s, a)
    ensures var t := Apply(s, a);
            && !a.WorkerOf? && t.workers == s.workers
            && t.log.dequeued == s.log.dequeued && t.log.begun == s.log.begun
            && t.log.completed == s.log.completed && t.log.discarded == s.log.discarded
  {
    DoneMeansExited(s);
  }

  /** A Shutdown that returns nil leaves a pool in that final state. */
  lemma ShutdownNil(concurrency: nat, capacity: nat, run: seq<Action>, c: Ticket, later: seq<Action>)
    requires PoolRun(concurrency, capacity, run)
    requires var s := End(concurrency, capacity, run);
             && c in s.calls && s.calls[c].ShutdownCall?
             && s.calls[c].shutdown == ShutdownReturned(AllExited)
             && Legal(s, later)
    ensures var s := End(concurrency, capacity, run);
            && s.stop && s.done
            && (forall i :: 0 <= i < |s.workers| ==> s.workers[i].pc.Exited?)
            && multiset(s.log.begun) == multiset(s.log.completed)
            && After(s, later).log.begun == s.log.begun
  {
    PoolRunInv(concurrency, capacity, run);
    var s := End(concurrency, capacity, run);
    DoneMeansExited(s);
    Quiescence(s, later);
    NoneExecuting(s.workers);
  }

  lemma {:induction false} NoneExecuting(ws: seq<Worker>)
    requires forall i :: 0 <= i < |ws| ==> ws[i].pc.Exited?
    ensures Bag(ws, Executing) == multiset{} && Bag(ws, InHand) == multiset{}
  {
    if ws == [] {
    } else {
      assert ws[0].pc.Exited?;
      NoneExecuting(ws[1..]);
    }
  }

  // ----- one start -----

  predicate EntersStart(a: Action) { a.StartOf? && a.start.StartEnter? }
  predicate SpawnsWorker(a: Action) { a.StartOf? && a.start.GoWorker? }
  predicate SpawnsWatcher(a: Action) { a.StartOf? && a.start.GoWatcher? }
  predicate SpawnsCloser(a: Action) { a.StartOf? && a.start.GoCloser? }

  function EnteredBit(s: State): nat { if s.startOnce.Fresh? then 0 else 1 }
  function WorkersSpawned(s: State): nat { |s.workers| }
  function WatchersSpawned(s: State): nat { |s.watchers| }
  function ClosersSpawned(s: State): nat { |s.closers| }

  /** However many Start calls race, at most one runs the body of startOnce, and it spawns
      at most `concurrency` workers, one watcher and one closer; exactly that many once any
      Start call has returned. */
  lemma SingleStart(concurrency: nat, capacity: nat, run: seq<Action>)
    requires PoolRun(concurrency, capacity, run)
    ensures var s := End(concurrency, capacity, run);
            && Count(run, EntersStart) == (if s.startOnce.Fresh? then 0 else 1)
            && Count(run, SpawnsWorker) == |s.workers| <= concurrency
            && Count(run, SpawnsWatcher) == |s.watchers| <= 1
            && Count(run, SpawnsCloser) == |s.closers| <= 1
            && ((exists c :: c in s.calls && s.calls[c].StartCall? && s.calls[c].start.StartReturned?) ==>
                  |s.workers| == concurrency && |s.watchers| == |s.closers| == 1)
  {
    PoolRunInv(concurrency, capacity, run);
    InitInv(concurrency, capacity);
    var init := Init(concurrency, capacity);
    EntersCounted(init, run);
    WorkersCounted(init, run);
    WatchersCounted(init, run);
    ClosersCounted(init, run);
    SpawnedCounts(End(concurrency, capacity, run));
  }

  lemma SpawnedCounts(s: State)
    requires Inv(s)
    ensures |s.workers| <= s.concurrency && |s.watchers| <= 1 && |s.closers| <= 1
    ensures (exists c :: c in s.calls && s.calls[c].StartCall? && s.calls[c].start.StartReturned?) ==>
              |s.workers| == s.concurrency && |s.watchers| == |s.closers| == 1
  {
  }

  lemma EntersCounted(s: State, run: seq<Action>)
    requires Inv(s) && Legal(s, run)
    ensures EnteredBit(After(s, run)) == EnteredBit(s) + Count(run, EntersStart)
  {
    forall t, a | Inv(t) && Enabled(t, a)
      ensures EnteredBit(Apply(t, a)) == EnteredBit(t) + if EntersStart(a) then 1 else 0
    {
      SpawnStep(t, a);
    }
    Tally(s, run, EntersStart, EnteredBit);
  }

  lemma WorkersCounted(s: State, run: seq<Action>)
    requires Inv(s) && Legal(s, run)
    ensures WorkersSpawned(After(s, run)) == WorkersSpawned(s) + Count(run, SpawnsWorker)
  {
    forall t, a | Inv(t) && Enabled(t, a)
      ensures WorkersSpawned(Apply(t, a)) == WorkersSpawned(t) + if SpawnsWorker(a) then 1 else 0
    {
      SpawnStep(t, a);
    }
    Tally(s, run, SpawnsWorker, WorkersSpawned);
  }

  lemma WatchersCounted(s: State, run: seq<Action>)
    requires Inv(s) && Legal(s, run)
    ensures WatchersSpawned(After(s, run)) == WatchersSpawned(s) + Count(run, SpawnsWatcher)
  {
    forall t, a | Inv(t) && Enabled(t, a)
      ensures WatchersSpawned(Apply(t, a)) == WatchersSpawned(t) + if SpawnsWatcher(a) then 1 else 0
    {
      SpawnStep(t, a);
    }
    Tally(s, run, SpawnsWatcher, WatchersSpawned);
  }

  lemma ClosersCounted(s: State, run: seq<Action>)
    requires Inv(s) && Legal(s, run)
    ensures ClosersSpawned(After(s, run)) == ClosersSpawned(s) + Count(run, SpawnsCloser)
  {
    forall t, a | Inv(t) && Enabled(t, a)
      ensures ClosersSpawned(Apply(t, a)) == ClosersSpawned(t) + if SpawnsCloser(a) then 1 else 0
    {
      SpawnStep(t, a);
    }
    Tally(s, run, SpawnsCloser, ClosersSpawned);
  }

  lemma SpawnStep(s: State, a: Action)
    requires Inv(s) && Enabled(s, a)
    ensures var t := Apply(s, a);
            && EnteredBit(t) == EnteredBit(s) + (if EntersStart(a) then 1 else 0)
            && |t.workers| == |s.workers| + (if SpawnsWorker(a) then 1 else 0)
            && |t.watchers| == |s.watchers| + (if SpawnsWatcher(a) then 1 else 0)
            && |t.closers| == |s.closers| + (if SpawnsCloser(a) then 1 else 0)
  {
    if a.StartOf? {
      StartSpawns(s, a.c, a.start);
    } else {
      OthersSpawnNothing(s, a);
    }
  }

  lemma StartSpawns(s: State, c: Ticket, step: StartStep)
    requires StartInv(s) && StartEnabled(s, c, step)
    ensures var t := StartMove(s, c, step);
            && EnteredBit(t) == EnteredBit(s) + (if step.StartEnter? then 1 else 0)
            && |t.workers| == |s.workers| + (if step.GoWorker? then 1 else 0)
            && |t.watchers| == |s.watchers| + (if step.GoWatcher? then 1 else 0)
            && |t.closers| == |s.closers| + (if step.GoCloser? then 1 else 0)
  {
  }

  lemma OthersSpawnNothing(s: State, a: Action)
    requires Enabled(s, a) && !a.StartOf?
    ensures var t := Apply(s, a);
            && t.startOnce == s.startOnce && |t.workers| == |s.workers|
            && |t.watchers| == |s.watchers| && |t.closers| == |s.closers|
  {
  }

  // ----- what the callers are told -----

  /** A Submit returns nil exactly when its job was accepted, once; an error leaves its job
      out.  Each error tells the truth about the pool or the caller's context (for
      ErrNotStarted see NotStartedOutcome). */
  lemma SubmitOutcome(concurrency: nat, capacity: nat, run: seq<Action>, c: Ticket)
    requires PoolRun(concurrency, capacity, run)
    requires c in End(concurrency, capacity, run).calls && End(concurrency, capacity, run).calls[c].SubmitCall?
    ensures var s := End(concurrency, capacity, run);
            var call := s.calls[c];
            && multiset(s.log.accepted)[c] == (if call.submit == SubmitReturned(Accepted) then 1 else 0)
            && (call.submit == SubmitReturned(Accepted) ==> s.started && !call.nilJob)
            && (call.submit == SubmitReturned(NilJob) ==> call.nilJob)
            && (call.submit == SubmitReturned(Stopped) ==> s.stop)
            && (call.submit == SubmitReturned(SubmitContextDone) ==> call.ctx in s.cancelled)
  {
    PoolRunInv(concurrency, capacity, run);
    SubmitTruth(End(concurrency, capacity, run), c);
  }

  lemma SubmitTruth(s: State, c: Ticket)
    requires AcceptInv(s) && c in s.calls && s.calls[c].SubmitCall?
    ensures var call := s.calls[c];
            && multiset(s.log.accepted)[c] == (if call.submit == SubmitReturned(Accepted) then 1 else 0)
            && (call.submit == SubmitReturned(Accepted) ==> s.started && !call.nilJob)
            && (call.submit == SubmitReturned(NilJob) ==> call.nilJob)
            && (call.submit == SubmitReturned(Stopped) ==> s.stop)
            && (call.submit == SubmitReturned(SubmitContextDone) ==> call.ctx in s.cancelled)
  {
    AtMostOnce(s.log.accepted, c);
    assert SubmitInv(s, s.calls[c]);
    assert c in s.log.accepted <==> CallAccepted(s, c);
  }

  /** Call `c` has returned ErrNotStarted. */
  predicate Refused(s: State, c: Ticket) {
    c in s.calls &&
    match s.calls[c]
    case SubmitCall(_, _, pc) => pc == SubmitReturned(SubmitNotStarted)
    case ShutdownCall(_, pc) => pc == ShutdownReturned(ShutdownNotStarted)
    case StartCall(_, _) => false
  }

  /** Call `c` loads the `started` flag. */
  predicate LoadsFlag(a: Action, c: Ticket) {
    a == SubmitOf(c, TestStarted) || a == ShutdownOf(c, TestFlag)
  }

  /** Somewhere in the run call `c` loads the flag while it is unset. */
  predicate LoadsUnset(s: State, run: seq<Action>, c: Ticket)
    requires Legal(s, run)
    decreases run
  {
    run != [] && ((LoadsFlag(run[0], c) && !s.started) || LoadsUnset(Apply(s, run[0]), run[1..], c))
  }

  /** Submit and Shutdown return ErrNotStarted exactly when they looked at the flag before
      it was set. */
  lemma {:induction false} NotStartedOutcome(s: State, run: seq<Action>, c: Ticket)
    requires Legal(s, run)
    ensures Refused(After(s, run), c) <==> Refused(s, c) || LoadsUnset(s, run, c)
    decreases run
  {
    if run == [] {
    } else {
      RefusedStep(s, run[0], c);
      NotStartedOutcome(Apply(s, run[0]), run[1..], c);
    }
  }

  lemma RefusedStep(s: State, a: Action, c: Ticket)
    requires Enabled(s, a)
    ensures Refused(Apply(s, a), c) <==> Refused(s, c) || (LoadsFlag(a, c) && !s.started)
  {
    match a
    case SubmitOf(d, step) => SubmitRefused(s, d, step, c);
    case ShutdownOf(d, step) => ShutdownRefused(s, d, step, c);
    case _ => OthersRefuseNothing(s, a, c);
  }

  lemma SubmitRefused(s: State, d: Ticket, step: SubmitStep, c: Ticket)
    requires SubmitEnabled(s, d, step)
    ensures Refused(SubmitMove(s, d, step), c) <==> Refused(s, c) || (d == c && step.TestStarted? && !s.started)
  {
  }

  lemma ShutdownRefused(s: State, d: Ticket, step: ShutdownStep, c: Ticket)
    requires ShutdownEnabled(s, d, step)
    ensures Refused(ShutdownMove(s, d, step), c) <==> Refused(s, c) || (d == c && step.TestFlag? && !s.started)
  {
  }

  lemma OthersRefuseNothing(s: State, a: Action, c: Ticket)
    requires Enabled(s, a) && !a.SubmitOf? && !a.ShutdownOf?
    ensures Refused(Apply(s, a), c) <==> Refused(s, c)
  {
  }

  /** Until the flag is set nothing has been accepted and nothing has been spawned. */
  lemma BeforeStart(concurrency: nat, capacity: nat, run: seq<Action>)
    requires PoolRun(concurrency, capacity, run)
    ensures var s := End(concurrency, capacity, run);
            !s.started ==>
              && s.jobs == [] && s.log == EMPTY_LOGS && !s.stop && !s.done
              && s.workers == [] && s.watchers == [] && s.closers == []
  {
    PoolRunInv(concurrency, capacity, run);
    var s := End(concurrency, capacity, run);
    SomeMember(s.log.accepted);
    if !s.started {
      assert multiset(s.log.dequeued) == multiset{};
      assert |multiset(s.log.begun)| == 0 && |multiset(s.log.completed)| == 0;
    }
  }

  lemma SomeMember<T>(xs: seq<T>)
    ensures xs == [] || xs[0] in xs
  {
  }

  /** A Shutdown before Start changes nothing: whatever step such a call takes, it returns
      ErrNotStarted and the rest of the pool is as it was. */
  lemma ShutdownBeforeStart(concurrency: nat, capacity: nat, run: seq<Action>, c: Ticket, step: ShutdownStep)
    requires PoolRun(concurrency, capacity, run)
    requires var s := End(concurrency, capacity, run); !s.started && ShutdownEnabled(s, c, step)
    ensures var s := End(concurrency, capacity, run);
            Apply(s, ShutdownOf(c, step))
            == s.(calls := s.calls[c := ShutdownCall(s.calls[c].ctx, ShutdownReturned(ShutdownNotStarted))])
  {
    PoolRunInv(concurrency, capacity, run);
  }

  /** A Shutdown that has reached its select finds `stop` closed; nil means that all
      workers have exited, an error that its context was cancelled. */
  lemma ShutdownOutcome(concurrency: nat, capacity: nat, run: seq<Action>, c: Ticket)
    requires PoolRun(concurrency, capacity, run)
    requires c in End(concurrency, capacity, run).calls && End(concurrency, capacity, run).calls[c].ShutdownCall?
    ensures var s := End(concurrency, capacity, run);
            var call := s.calls[c];
            && (PastStopOnce(call) ==> s.stop)
            && (call.shutdown == ShutdownReturned(AllExited) ==> s.done)
            && (call.shutdown == ShutdownReturned(ShutdownContextDone) ==> call.ctx in s.cancelled)
  {
    PoolRunInv(concurrency, capacity, run);
  }
}
