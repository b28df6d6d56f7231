/** How much can still happen after `stop` is closed or the start context is cancelled. */
module PoolBounds {
  import opened PoolState
  import opened Sums
  import opened PoolInvariant
  import opened PoolSafety

  /** If every step keeps `j` and pays for belonging to class `k` out of `phi`, then a run
      has at most `phi` steps of that class. */
  lemma {:induction false} Spend(s: State, run: seq<Action>, j: State -> bool, k: Action -> bool, phi: State -> nat)
    requires j(s) && Legal(s, run)
    requires forall t, a :: j(t) && Enabled(t, a) ==>
               j(Apply(t, a)) && phi(Apply(t, a)) + (if k(a) then 1 else 0) <= phi(t)
    ensures j(After(s, run)) && Count(run, k) + phi(After(s, run)) <= phi(s)
    decreases run
  {
    if run == [] {
    } else {
      Spend(Apply(s, run[0]), run[1..], j, k, phi);
    }
  }

  // ----- after stop -----

  ghost predicate StoppedInv(s: State) { Inv(s) && s.stop }

  predicate Sends(a: Action) { a.SubmitOf? && a.submit.SelectSend? }

  predicate Begins(a: Action) { a.WorkerOf? && a.worker.BeginJob? }

  predicate AtSend(call: Call) { call.SubmitCall? && call.submit.SendSelect? }

  /** The Submit calls that have passed the first stop check and not yet returned. */
  function Senders(s: State): set<Ticket> {
    set c | c in s.calls && AtSend(s.calls[c])
  }

  function SendersLeft(s: State): nat { |Senders(s)| }

  /** How one step changes the set of such calls. */
  lemma SendersStep(s: State, a: Action)
    requires Enabled(s, a)
    ensures var gone := a.SubmitOf? && (a.submit.SelectSend? || a.submit.SelectStop? || a.submit.SelectCtx?);
            var come := a.SubmitOf? && a.submit.CheckStop? && !s.stop;
            Senders(Apply(s, a))
            == (if come then Senders(s) + {a.c} else if gone then Senders(s) - {a.c} else Senders(s))
    ensures a.SubmitOf? && (a.submit.SelectSend? || a.submit.SelectStop? || a.submit.SelectCtx?) ==> a.c in Senders(s)
  {
  }

  lemma LateSendStep(s: State, a: Action)
    requires StoppedInv(s) && Enabled(s, a)
    ensures StoppedInv(Apply(s, a))
    ensures SendersLeft(Apply(s, a)) + (if Sends(a) then 1 else 0) <= SendersLeft(s)
  {
    StepKeepsInv(s, a);
    StopStep(s, a);
    SendersStep(s, a);
  }

  /** After `stop` is closed only Submit calls already past the first check can still put
      a job in the queue: no later call does, and there are at most that many. */
  lemma {:induction false} LateAcceptance(s: State, run: seq<Action>)
    requires Inv(s) && s.stop && Legal(s, run)
    ensures Count(run, Sends) <= |Senders(s)|
    ensures forall c :: c in After(s, run).log.accepted ==> c in s.log.accepted || c in Senders(s)
  {
    forall t, a | StoppedInv(t) && Enabled(t, a)
      ensures StoppedInv(Apply(t, a)) && SendersLeft(Apply(t, a)) + (if Sends(a) then 1 else 0) <= SendersLeft(t)
    {
      LateSendStep(t, a);
    }
    Spend(s, run, t => StoppedInv(t), Sends, SendersLeft);
    LateSenders(s, run);
  }

  lemma {:induction false} LateSenders(s: State, run: seq<Action>)
    requires Inv(s) && s.stop && Legal(s, run)
    ensures forall c :: c in After(s, run).log.accepted ==> c in s.log.accepted || c in Senders(s)
    decreases run
  {
    if run == [] {
    } else {
      var t := Apply(s, run[0]);
      LateSendStep(s, run[0]);
      SendersStep(s, run[0]);
      AcceptedStep(s, run[0]);
      LateSenders(t, run[1..]);
    }
  }

  lemma AcceptedStep(s: State, a: Action)
    requires Enabled(s, a)
    ensures Apply(s, a).log.accepted == s.log.accepted + if Sends(a) then [a.c] else []
  {
  }

  /** A job taken from the queue and not yet begun. */
  function UnbegunOne(w: Worker): nat { if w.pc.Holding? || w.pc.Cleared? then 1 else 0 }

  /** Jobs that can still begin once `stop` is closed. */
  function Startable(s: State): nat {
    |s.jobs| + Total(s.workers, UnbegunOne) + SendersLeft(s)
  }

  lemma StartableStep(s: State, a: Action)
    requires StoppedInv(s) && Enabled(s, a)
    ensures Startable(Apply(s, a)) + (if Begins(a) then 1 else 0) <= Startable(s)
  {
    LateSendStep(s, a);
    QueueStep(s, a);
    UnbegunStep(s, a);
  }

  lemma UnbegunStep(s: State, a: Action)
    requires Enabled(s, a)
    ensures var takes := a.WorkerOf? && a.worker.TakeJob?;
            Total(Apply(s, a).workers, UnbegunOne) + (if Begins(a) then 1 else 0)
            <= Total(s.workers, UnbegunOne) + (if takes then 1 else 0)
  {
    WorkersStep(s, a, UnbegunOne);
  }

  lemma QueueStep(s: State, a: Action)
    requires Enabled(s, a)
    ensures var takes := a.WorkerOf? && a.worker.TakeJob?;
            |Apply(s, a).jobs| == |s.jobs| + (if Sends(a) then 1 else 0) - (if takes then 1 else 0)
  {
  }

  /** How a step changes a sum over the workers. */
  lemma WorkersStep(s: State, a: Action, f: Worker -> nat)
    requires Enabled(s, a)
    ensures var t := Apply(s, a);
            && (a.WorkerOf? ==>
                  |t.workers| == |s.workers| &&
                  Total(t.workers, f) + f(s.workers[a.w]) == Total(s.workers, f) + f(t.workers[a.w]))
            && (SpawnsWorker(a) ==> Total(t.workers, f) == Total(s.workers, f) + f(Worker(s.calls[a.c].ctx, JobSelect)))
            && (!a.WorkerOf? && !SpawnsWorker(a) ==> t.workers == s.workers)
  {
    if a.WorkerOf? {
      TotalUpdate(s.workers, a.w, Worker(s.workers[a.w].ctx, WorkerNext(s, a.w, a.worker)), f);
    } else if SpawnsWorker(a) {
      TotalAppend(s.workers, Worker(s.calls[a.c].ctx, JobSelect), f);
    }
  }

  /** A worker may keep taking jobs after `stop` is closed, but in all at most as many
      begin as were queued, in hand or past the first check of Submit at that moment. */
  lemma {:induction false} LateBegins(s: State, run: seq<Action>)
    requires Inv(s) && s.stop && Legal(s, run)
    ensures Count(run, Begins) <= |s.jobs| + Total(s.workers, UnbegunOne) + |Senders(s)|
  {
    forall t, a | StoppedInv(t) && Enabled(t, a)
      ensures StoppedInv(Apply(t, a)) && Startable(Apply(t, a)) + (if Begins(a) then 1 else 0) <= Startable(t)
    {
      LateSendStep(t, a);
      StartableStep(t, a);
    }
    Spend(s, run, t => StoppedInv(t), Begins, Startable);
  }

  // ----- after cancellation of the start context -----

  ghost predicate CancelledInv(s: State) {
    Inv(s) && s.root.Some? && s.root.value in s.cancelled
  }

  lemma CancelledStep(s: State, a: Action)
    requires CancelledInv(s) && Enabled(s, a)
    ensures CancelledInv(Apply(s, a))
  {
    StepKeepsInv(s, a);
    RootStep(s, a);
  }

  lemma RootStep(s: State, a: Action)
    requires Inv(s) && Enabled(s, a)
    ensures s.root.Some? ==> Apply(s, a).root == s.root
    ensures s.cancelled <= Apply(s, a).cancelled
  {
  }

  function ClearedOne(w: Worker): nat { if w.pc.Cleared? then 1 else 0 }

  function ClearedLeft(s: State): nat { Total(s.workers, ClearedOne) }

  lemma ClearedStep(s: State, a: Action)
    requires CancelledInv(s) && Enabled(s, a)
    ensures ClearedLeft(Apply(s, a)) + (if Begins(a) then 1 else 0) <= ClearedLeft(s)
  {
    WorkersStep(s, a, ClearedOne);
  }

  /** Once the start context is cancelled no more jobs begin than workers had passed the
      ctx.Err() check. */
  lemma {:induction false} AllBeginsAfterCancel(s: State, run: seq<Action>)
    requires Inv(s) && s.root.Some? && s.root.value in s.cancelled && Legal(s, run)
    ensures Count(run, Begins) <= Total(s.workers, ClearedOne)
  {
    forall t, a | CancelledInv(t) && Enabled(t, a)
      ensures CancelledInv(Apply(t, a)) && ClearedLeft(Apply(t, a)) + (if Begins(a) then 1 else 0) <= ClearedLeft(t)
    {
      CancelledStep(t, a);
      ClearedStep(t, a);
    }
    Spend(s, run, t => CancelledInv(t), Begins, ClearedLeft);
  }

  /** 1 while worker `w` may still begin a job after cancellation. */
  function BeginsLeft(s: State, w: nat): nat {
    if w < |s.workers| && s.workers[w].pc.Cleared? then 1 else 0
  }

  lemma BeginStep(s: State, a: Action, w: nat)
    requires CancelledInv(s) && Enabled(s, a)
    ensures BeginsLeft(Apply(s, a), w) + (if a == WorkerOf(w, BeginJob) then 1 else 0) <= BeginsLeft(s, w)
  {
    if a.WorkerOf? {
      WorkerBeginStep(s, a.w, a.worker, w);
    } else {
      WorkLogsKept(s, a);
    }
  }

  lemma WorkerBeginStep(s: State, v: nat, step: WorkerStep, w: nat)
    requires StartInv(s) && s.root.Some? && s.root.value in s.cancelled && WorkerEnabled(s, v, step)
    ensures BeginsLeft(WorkerMove(s, v, step), w) + (if v == w && step.BeginJob? then 1 else 0) <= BeginsLeft(s, w)
  {
  }

  /** Once the start context is cancelled a worker begins a job only if it had itself
      passed the ctx.Err() check, and then only that one. */
  lemma {:induction false} BeginsAfterCancel(s: State, run: seq<Action>, w: nat)
    requires Inv(s) && s.root.Some? && s.root.value in s.cancelled && Legal(s, run)
    ensures Count(run, a => a == WorkerOf(w, BeginJob))
         <= (if w < |s.workers| && s.workers[w].pc.Cleared? then 1 else 0)
  {
    var k: Action -> bool := a => a == WorkerOf(w, BeginJob);
    var phi: State -> nat := t => BeginsLeft(t, w);
    forall t, a | CancelledInv(t) && Enabled(t, a)
      ensures CancelledInv(Apply(t, a)) && phi(Apply(t, a)) + (if k(a) then 1 else 0) <= phi(t)
    {
      CancelledStep(t, a);
      BeginStep(t, a, w);
    }
    Spend(s, run, t => CancelledInv(t), k, phi);
  }

  /** 1 while worker `w` may still take a job after cancellation. */
  function TakesLeft(s: State, w: nat): nat {
    if w < |s.workers| && (s.workers[w].pc.Holding? || s.workers[w].pc.Leaving? || s.workers[w].pc.Exited?)
    then 0 else 1
  }

  lemma TakeStep(s: State, a: Action, w: nat)
    requires CancelledInv(s) && Enabled(s, a)
    ensures TakesLeft(Apply(s, a), w) + (if a == WorkerOf(w, TakeJob) then 1 else 0) <= TakesLeft(s, w)
  {
    if a.WorkerOf? {
      WorkerTakeStep(s, a.w, a.worker, w);
    } else {
      WorkLogsKept(s, a);
    }
  }

  lemma WorkerTakeStep(s: State, v: nat, step: WorkerStep, w: nat)
    requires StartInv(s) && s.root.Some? && s.root.value in s.cancelled && WorkerEnabled(s, v, step)
    ensures TakesLeft(WorkerMove(s, v, step), w) + (if v == w && step.TakeJob? then 1 else 0) <= TakesLeft(s, w)
  {
  }

  /** Once the start context is cancelled each worker takes at most one more job. */
  lemma {:induction false} TakesAfterCancel(s: State, run: seq<Action>, w: nat)
    requires Inv(s) && s.root.Some? && s.root.value in s.cancelled && Legal(s, run)
    ensures Count(run, a => a == WorkerOf(w, TakeJob)) <= 1
  {
    var k: Action -> bool := a => a == WorkerOf(w, TakeJob);
    var phi: State -> nat := t => TakesLeft(t, w);
    forall t, a | CancelledInv(t) && Enabled(t, a)
      ensures CancelledInv(Apply(t, a)) && phi(Apply(t, a)) + (if k(a) then 1 else 0) <= phi(t)
    {
      CancelledStep(t, a);
      TakeStep(t, a, w);
    }
    Spend(s, run, t => CancelledInv(t), k, phi);
  }

  /** Jobs are discarded only after cancellation and at most one for each worker. */
  lemma Discards(concurrency: nat, capacity: nat, run: seq<Action>)
    requires PoolRun(concurrency, capacity, run)
    ensures var s := End(concurrency, capacity, run);
            && |s.log.discarded| <= concurrency
            && (s.log.discarded != [] ==> s.root.Some? && s.root.value in s.cancelled)
  {
    PoolRunInv(concurrency, capacity, run);
    Backpressure(concurrency, capacity, run);
  }

  // ----- one worker -----

  function Unbegun(ws: seq<Worker>): seq<Ticket> {
    if ws != [] && (ws[0].pc.Holding? || ws[0].pc.Cleared?) then [ws[0].pc.job] else []
  }

  /** With one worker: what was taken is what was begun, then the job in hand, then a job
      discarded on the way out. */
  ghost predicate OrderInv(s: State) {
    && s.concurrency == 1
    && s.log.dequeued == s.log.begun + Unbegun(s.workers) + s.log.discarded
    && (s.log.discarded != [] ==> s.workers != [] && (s.workers[0].pc.Leaving? || s.workers[0].pc.Exited?))
  }

  lemma OrderStep(s: State, a: Action)
    requires Inv(s) && OrderInv(s) && Enabled(s, a)
    ensures OrderInv(Apply(s, a))
  {
    if a.WorkerOf? {
      assert a.w == 0;
      OrderWorkerStep(s, a.worker);
    } else {
      WorkLogsKept(s, a);
      SameWork(s, Apply(s, a));
    }
  }

  /** A step of another goroutine touches none of this; Start may add the worker. */
  lemma SameWork(s: State, t: State)
    requires OrderInv(s)
    requires t.concurrency == s.concurrency && t.log.dequeued == s.log.dequeued
    requires t.log.begun == s.log.begun && t.log.discarded == s.log.discarded
    requires t.workers == s.workers || exists w: Worker :: w.pc == JobSelect && t.workers == s.workers + [w]
    ensures OrderInv(t)
  {
  }

  lemma WorkLogsKept(s: State, a: Action)
    requires Enabled(s, a) && !a.WorkerOf?
    ensures var t := Apply(s, a);
            && t.concurrency == s.concurrency && t.log.dequeued == s.log.dequeued
            && t.log.begun == s.log.begun && t.log.discarded == s.log.discarded
            && (if SpawnsWorker(a) then t.workers == s.workers + [Worker(s.calls[a.c].ctx, JobSelect)]
                else t.workers == s.workers)
  {
  }

  lemma OrderWorkerStep(s: State, step: WorkerStep)
    requires OrderInv(s) && |s.workers| == 1 && WorkerEnabled(s, 0, step)
    ensures OrderInv(WorkerMove(s, 0, step))
  {
  }

  lemma {:induction false} RunKeepsOrder(s: State, run: seq<Action>)
    requires Inv(s) && OrderInv(s) && Legal(s, run)
    ensures OrderInv(After(s, run))
    decreases run
  {
    if run == [] {
    } else {
      StepKeepsInv(s, run[0]);
      OrderStep(s, run[0]);
      RunKeepsOrder(Apply(s, run[0]), run[1..]);
    }
  }

  /** A pool with one worker begins jobs in the order in which they were accepted. */
  lemma SequentialOrder(capacity: nat, run: seq<Action>)
    requires PoolRun(1, capacity, run)
    ensures End(1, capacity, run).log.begun <= End(1, capacity, run).log.accepted
  {
    InitInv(1, capacity);
    PoolRunInv(1, capacity, run);
    RunKeepsOrder(Init(1, capacity), run);
  }
}
