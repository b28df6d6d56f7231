/** What every step of the pool keeps. */
module PoolInvariant {
  import opened Options
  import opened PoolState
  import opened Sums

  // ----- counting workers -----

  function ExitedOne(w: Worker): nat { if w.pc.Exited? then 1 else 0 }

  function GoneOne(w: Worker): nat { if w.pc.Leaving? || w.pc.Exited? then 1 else 0 }

  function HandOne(w: Worker): nat { if w.pc.Holding? || w.pc.Cleared? || w.pc.Running? then 1 else 0 }

  /** The job a worker has taken from the queue and not yet finished or discarded. */
  function InHand(w: Worker): multiset<Ticket> {
    if w.pc.Holding? || w.pc.Cleared? || w.pc.Running? then multiset{w.pc.job} else multiset{}
  }

  function Executing(w: Worker): multiset<Ticket> {
    if w.pc.Running? then multiset{w.pc.job} else multiset{}
  }

  // ----- startOnce, the goroutines and the WaitGroup -----

  predicate InStartBody(call: Call) {
    call.StartCall? && !call.start.StartDo? && !call.start.StartReturned?
  }

  /** How far the body of startOnce has got, over all Start calls. */
  function Stage(s: State): StartPc {
    match s.startOnce
    case Fresh => StartDo
    case Busy(ByCall(c)) =>
      if c in s.calls && s.calls[c].StartCall? then s.calls[c].start else StartReturned
    case Busy(ByWatcher(_)) => StartReturned
    case Finished => StartReturned
  }

  predicate Added(stage: StartPc) { !stage.StartDo? && !stage.StoreStarted? && !stage.AddGroup? }

  function SpawnedWorkers(s: State, stage: StartPc): nat {
    if stage.SpawnWorker? then stage.i else if Added(stage) then s.concurrency else 0
  }

  predicate StageInv(s: State, stage: StartPc) {
    && s.started == (!stage.StartDo? && !stage.StoreStarted?)
    && (stage.SpawnWorker? ==> stage.i < s.concurrency)
    && |s.workers| == SpawnedWorkers(s, stage)
    && |s.watchers| == (if stage.SpawnCloser? || stage.LeaveStartOnce? || stage.StartReturned? then 1 else 0)
    && |s.closers| == (if stage.LeaveStartOnce? || stage.StartReturned? then 1 else 0)
    && s.wg == (if Added(stage) then s.concurrency - Total(s.workers, ExitedOne) else 0)
  }

  ghost predicate StartInv(s: State) {
    && 1 <= s.concurrency && 1 <= s.capacity
    && (forall c :: c in s.calls && InStartBody(s.calls[c]) ==> s.startOnce == Busy(ByCall(c)))
    && (forall c :: c in s.calls && s.calls[c].StartCall? && s.calls[c].start.StartReturned? ==> s.startOnce.Finished?)
    && (s.startOnce.Busy? ==>
          && s.startOnce.owner.ByCall?
          && var c := s.startOnce.owner.c;
             c in s.calls && InStartBody(s.calls[c]) && s.root == Some(s.calls[c].ctx))
    && (s.root.None? <==> s.startOnce.Fresh?)
    && (s.root.Some? ==>
          && (forall i :: 0 <= i < |s.workers| ==> s.workers[i].ctx == s.root.value)
          && (forall i :: 0 <= i < |s.watchers| ==> s.watchers[i].ctx == s.root.value))
    && StageInv(s, Stage(s))
  }

  // ----- stopOnce and the two signal channels -----

  predicate InStopBody(call: Call) {
    call.ShutdownCall? && (call.shutdown.CloseStop? || call.shutdown.LeaveStopOnce?)
  }

  predicate WatcherInStopBody(w: Watcher) { w.pc.WatchClose? || w.pc.WatchLeave? }

  predicate BusyStop(s: State, owner: Owner) {
    match owner
    case ByCall(c) => c in s.calls && InStopBody(s.calls[c]) && s.stop == s.calls[c].shutdown.LeaveStopOnce?
    case ByWatcher(k) => k < |s.watchers| && WatcherInStopBody(s.watchers[k]) && s.stop == s.watchers[k].pc.WatchLeave?
  }

  /** A Shutdown that has got past stopOnce.Do. */
  predicate PastStopOnce(call: Call) {
    call.ShutdownCall? &&
    (call.shutdown.DoneSelect? || call.shutdown == ShutdownReturned(AllExited)
     || call.shutdown == ShutdownReturned(ShutdownContextDone))
  }

  ghost predicate StopInv(s: State) {
    && (forall c :: c in s.calls && InStopBody(s.calls[c]) ==> s.stopOnce == Busy(ByCall(c)))
    && (forall k :: 0 <= k < |s.watchers| && WatcherInStopBody(s.watchers[k]) ==> s.stopOnce == Busy(ByWatcher(k)))
    && (s.stopOnce.Fresh? ==> !s.stop)
    && (s.stopOnce.Busy? ==> BusyStop(s, s.stopOnce.owner))
    && (s.stopOnce.Finished? ==> s.stop)
    && (forall c :: c in s.calls && PastStopOnce(s.calls[c]) ==> s.stop)
    && (forall c :: c in s.calls && s.calls[c].ShutdownCall? && s.calls[c].shutdown == ShutdownReturned(ShutdownContextDone) ==>
          s.calls[c].ctx in s.cancelled)
    && (forall c :: c in s.calls && s.calls[c].ShutdownCall? ==>
          s.started || s.calls[c].shutdown.ShutdownLoad? || s.calls[c].shutdown == ShutdownReturned(ShutdownNotStarted))
    && (!s.stopOnce.Fresh? ==> s.started)
  }

  predicate WatcherInv(s: State, w: Watcher) {
    match w.pc
    case WatchSelect => true
    case WatchExited => s.stop || s.done
    case _ => w.ctx in s.cancelled
  }

  predicate CloserInv(s: State, c: CloserPc) {
    match c
    case AwaitGroup => !s.done
    case CloseDone => !s.done && s.wg == 0
    case CloserExited => s.done && s.wg == 0
  }

  ghost predicate DoneInv(s: State) {
    && !s.panicked
    && (s.closers == [] ==> !s.done)
    && (forall i :: 0 <= i < |s.closers| ==> CloserInv(s, s.closers[i]))
    && (forall i :: 0 <= i < |s.watchers| ==> WatcherInv(s, s.watchers[i]))
    && (forall i :: 0 <= i < |s.workers| && (s.workers[i].pc.Leaving? || s.workers[i].pc.Exited?) ==>
          s.stop || s.workers[i].ctx in s.cancelled)
    && (forall c :: c in s.calls && s.calls[c].ShutdownCall? && s.calls[c].shutdown == ShutdownReturned(AllExited) ==> s.done)
  }

  // ----- jobs -----

  ghost predicate NoDuplicates<T>(xs: seq<T>) {
    forall i, j :: 0 <= i < j < |xs| ==> xs[i] != xs[j]
  }

  predicate CallAccepted(s: State, c: Ticket) {
    c in s.calls && s.calls[c].SubmitCall? && !s.calls[c].nilJob && s.calls[c].submit == SubmitReturned(Accepted)
  }

  predicate SubmitInv(s: State, call: Call) {
    call.SubmitCall? ==>
      match call.submit
      case SubmitLoad => true
      case SubmitReturned(SubmitNotStarted) => true
      case SubmitReturned(NilJob) => s.started && call.nilJob
      case SubmitReturned(Stopped) => s.started && !call.nilJob && s.stop
      case SubmitReturned(SubmitContextDone) => s.started && !call.nilJob && call.ctx in s.cancelled
      case _ => s.started && !call.nilJob
  }

  ghost predicate QueueInv(s: State) {
    && s.log.accepted == s.log.dequeued + s.jobs
    && |s.jobs| <= s.capacity
    && |s.log.discarded| <= Total(s.workers, GoneOne)
    && (!s.stop ==> |s.log.discarded| == Total(s.workers, GoneOne))
    && (s.log.discarded != [] ==> s.root.Some? && s.root.value in s.cancelled)
  }

  ghost predicate HandInv(s: State) {
    && multiset(s.log.dequeued)
       == Bag(s.workers, InHand) + multiset(s.log.completed) + multiset(s.log.discarded)
    && multiset(s.log.begun) == Bag(s.workers, Executing) + multiset(s.log.completed)
  }

  ghost predicate AcceptInv(s: State) {
    && NoDuplicates(s.log.accepted)
    && (forall c :: c in s.log.accepted <==> CallAccepted(s, c))
    && (forall c :: c in s.calls ==> SubmitInv(s, s.calls[c]))
  }

  ghost predicate Inv(s: State) {
    StartInv(s) && StopInv(s) && DoneInv(s) && QueueInv(s) && HandInv(s) && AcceptInv(s)
  }

  // ----- preservation -----

  lemma InitInv(concurrency: nat, capacity: nat)
    requires 1 <= concurrency && 1 <= capacity
    ensures Inv(Init(concurrency, capacity))
  {
  }

  // StartInv

  lemma StartKeepsStartInv(s: State, c: Ticket, step: StartStep)
    requires StartInv(s) && StartEnabled(s, c, step)
    ensures StartInv(StartMove(s, c, step))
  {
    if step.GoWorker? {
      TotalAppend(s.workers, Worker(s.calls[c].ctx, JobSelect), ExitedOne);
    }
  }

  lemma SubmitKeepsStartInv(s: State, c: Ticket, step: SubmitStep)
    requires StartInv(s) && SubmitEnabled(s, c, step)
    ensures StartInv(SubmitMove(s, c, step))
  {
  }

  lemma ShutdownKeepsStartInv(s: State, c: Ticket, step: ShutdownStep)
    requires StartInv(s) && ShutdownEnabled(s, c, step)
    ensures StartInv(ShutdownMove(s, c, step))
  {
  }

  lemma WorkerKeepsStartInv(s: State, w: nat, step: WorkerStep)
    requires StartInv(s) && WorkerEnabled(s, w, step)
    ensures StartInv(WorkerMove(s, w, step))
  {
    TotalUpdate(s.workers, w, Worker(s.workers[w].ctx, WorkerNext(s, w, step)), ExitedOne);
  }

  lemma WatcherKeepsStartInv(s: State, k: nat, step: WatcherStep)
    requires StartInv(s) && WatcherEnabled(s, k, step)
    ensures StartInv(WatcherMove(s, k, step))
  {
  }

  // StopInv

  lemma StartKeepsStopInv(s: State, c: Ticket, step: StartStep)
    requires StopInv(s) && StartEnabled(s, c, step)
    ensures StopInv(StartMove(s, c, step))
  {
  }

  lemma SubmitKeepsStopInv(s: State, c: Ticket, step: SubmitStep)
    requires StopInv(s) && SubmitEnabled(s, c, step)
    ensures StopInv(SubmitMove(s, c, step))
  {
  }

  lemma ShutdownKeepsStopInv(s: State, c: Ticket, step: ShutdownStep)
    requires StopInv(s) && ShutdownEnabled(s, c, step)
    ensures StopInv(ShutdownMove(s, c, step))
  {
  }

  lemma WatcherKeepsStopInv(s: State, k: nat, step: WatcherStep)
    requires StartInv(s) && StopInv(s) && WatcherEnabled(s, k, step)
    ensures StopInv(WatcherMove(s, k, step))
  {
  }

  // DoneInv

  lemma StartKeepsDoneInv(s: State, c: Ticket, step: StartStep)
    requires StartInv(s) && DoneInv(s) && StartEnabled(s, c, step)
    ensures DoneInv(StartMove(s, c, step))
  {
  }

  lemma ShutdownKeepsDoneInv(s: State, c: Ticket, step: ShutdownStep)
    requires StopInv(s) && DoneInv(s) && ShutdownEnabled(s, c, step)
    ensures DoneInv(ShutdownMove(s, c, step))
  {
  }

  lemma WorkerKeepsDoneInv(s: State, w: nat, step: WorkerStep)
    requires StartInv(s) && DoneInv(s) && WorkerEnabled(s, w, step)
    ensures DoneInv(WorkerMove(s, w, step))
  {
    GroupCountsLive(s, w);
  }

  /** A worker that has not exited keeps the WaitGroup above zero. */
  lemma GroupCountsLive(s: State, w: nat)
    requires StartInv(s) && w < |s.workers| && !s.workers[w].pc.Exited?
    ensures 0 < s.wg
  {
    assert s.workers[w] in s.workers;
    TotalAtMost(s.workers, ExitedOne, 1);
    if Total(s.workers, ExitedOne) == |s.workers| {
      TotalFull(s.workers, ExitedOne);
    }
  }

  lemma WatcherKeepsDoneInv(s: State, k: nat, step: WatcherStep)
    requires StopInv(s) && DoneInv(s) && WatcherEnabled(s, k, step)
    ensures DoneInv(WatcherMove(s, k, step))
  {
  }

  lemma CloserKeepsDoneInv(s: State, k: nat, step: CloserStep)
    requires StartInv(s) && DoneInv(s) && CloserEnabled(s, k, step)
    ensures DoneInv(CloserMove(s, k, step))
  {
  }

  // QueueInv and HandInv

  lemma StartKeepsQueueInv(s: State, c: Ticket, step: StartStep)
    requires StartInv(s) && QueueInv(s) && StartEnabled(s, c, step)
    ensures QueueInv(StartMove(s, c, step))
  {
    if step.GoWorker? {
      TotalAppend(s.workers, Worker(s.calls[c].ctx, JobSelect), GoneOne);
    }
  }

  lemma StartKeepsHandInv(s: State, c: Ticket, step: StartStep)
    requires HandInv(s) && StartEnabled(s, c, step)
    ensures HandInv(StartMove(s, c, step))
  {
    if step.GoWorker? {
      BagAppend(s.workers, Worker(s.calls[c].ctx, JobSelect), InHand);
      BagAppend(s.workers, Worker(s.calls[c].ctx, JobSelect), Executing);
    }
  }

  lemma SubmitKeepsQueueInv(s: State, c: Ticket, step: SubmitStep)
    requires QueueInv(s) && SubmitEnabled(s, c, step)
    ensures QueueInv(SubmitMove(s, c, step))
  {
  }

  lemma SubmitKeepsHandInv(s: State, c: Ticket, step: SubmitStep)
    requires HandInv(s) && SubmitEnabled(s, c, step)
    ensures HandInv(SubmitMove(s, c, step))
  {
  }

  lemma WorkerKeepsQueueInv(s: State, w: nat, step: WorkerStep)
    requires StartInv(s) && QueueInv(s) && WorkerEnabled(s, w, step)
    ensures QueueInv(WorkerMove(s, w, step))
  {
    TotalUpdate(s.workers, w, Worker(s.workers[w].ctx, WorkerNext(s, w, step)), GoneOne);
  }

  /** The job a worker's step takes from the queue. */
  function Taken(s: State, w: nat, step: WorkerStep): multiset<Ticket>
    requires WorkerEnabled(s, w, step)
  {
    if step.TakeJob? then multiset{s.jobs[0]} else multiset{}
  }

  /** The job it is finished with, because it returned or because it is discarded. */
  function Released(s: State, w: nat, step: WorkerStep): multiset<Ticket>
    requires WorkerEnabled(s, w, step)
  {
    if step.FinishJob? || (step.CheckCtx? && s.workers[w].ctx in s.cancelled)
    then multiset{s.workers[w].pc.job} else multiset{}
  }

  lemma TakenInto(s: State, w: nat, step: WorkerStep)
    requires WorkerEnabled(s, w, step)
    ensures multiset(WorkerMove(s, w, step).log.dequeued) == multiset(s.log.dequeued) + Taken(s, w, step)
  {
  }

  lemma ReleasedFrom(s: State, w: nat, step: WorkerStep)
    requires WorkerEnabled(s, w, step)
    ensures var t := WorkerMove(s, w, step);
            multiset(t.log.completed) + multiset(t.log.discarded)
            == (multiset(s.log.completed) + multiset(s.log.discarded)) + Released(s, w, step)
  {
  }

  lemma HandBalance(s: State, w: nat, step: WorkerStep)
    requires WorkerEnabled(s, w, step)
    ensures Taken(s, w, step) + InHand(s.workers[w])
            == InHand(WorkerMove(s, w, step).workers[w]) + Released(s, w, step)
  {
  }

  lemma WorkerKeepsHands(s: State, w: nat, step: WorkerStep)
    requires HandInv(s) && WorkerEnabled(s, w, step)
    ensures var t := WorkerMove(s, w, step);
            multiset(t.log.dequeued)
            == Bag(t.workers, InHand) + multiset(t.log.completed) + multiset(t.log.discarded)
  {
    var t := WorkerMove(s, w, step);
    BagUpdate(s.workers, w, t.workers[w], InHand);
    assert t.workers == s.workers[w := t.workers[w]];
    TakenInto(s, w, step);
    ReleasedFrom(s, w, step);
    HandBalance(s, w, step);
    Balance(multiset(s.log.dequeued), Taken(s, w, step), Bag(s.workers, InHand), Bag(t.workers, InHand),
            InHand(s.workers[w]), InHand(t.workers[w]),
            multiset(s.log.completed) + multiset(s.log.discarded), Released(s, w, step));
  }

  lemma WorkerKeepsExecuting(s: State, w: nat, step: WorkerStep)
    requires HandInv(s) && WorkerEnabled(s, w, step)
    ensures var t := WorkerMove(s, w, step);
            multiset(t.log.begun) == Bag(t.workers, Executing) + multiset(t.log.completed)
  {
    var t := WorkerMove(s, w, step);
    BagUpdate(s.workers, w, t.workers[w], Executing);
    var begun := if step.BeginJob? then multiset{s.workers[w].pc.job} else multiset{};
    var ended := if step.FinishJob? then multiset{s.workers[w].pc.job} else multiset{};
    assert begun + Executing(s.workers[w]) == Executing(t.workers[w]) + ended;
    Balance(multiset(s.log.begun), begun, Bag(s.workers, Executing), Bag(t.workers, Executing),
            Executing(s.workers[w]), Executing(t.workers[w]), multiset(s.log.completed), ended);
    assert multiset(t.log.begun) == multiset(s.log.begun) + begun;
    assert multiset(t.log.completed) == multiset(s.log.completed) + ended;
  }

  // AcceptInv

  lemma SubmitKeepsAcceptInv(s: State, c: Ticket, step: SubmitStep)
    requires AcceptInv(s) && SubmitEnabled(s, c, step)
    ensures AcceptInv(SubmitMove(s, c, step))
  {
    var t := SubmitMove(s, c, step);
    assert forall d :: d in t.log.accepted <==> d in s.log.accepted || (step.SelectSend? && d == c);
    assert c !in s.log.accepted;
  }

  lemma InvokeKeepsAcceptInv(s: State, c: Ticket, call: Call)
    requires AcceptInv(s) && c !in s.calls && AtEntry(call)
    ensures AcceptInv(s.(calls := s.calls[c := call]))
  {
  }

  lemma StartKeepsAcceptInv(s: State, c: Ticket, step: StartStep)
    requires AcceptInv(s) && StartEnabled(s, c, step)
    ensures AcceptInv(StartMove(s, c, step))
  {
  }

  lemma ShutdownKeepsAcceptInv(s: State, c: Ticket, step: ShutdownStep)
    requires AcceptInv(s) && ShutdownEnabled(s, c, step)
    ensures AcceptInv(ShutdownMove(s, c, step))
  {
  }

  /** The goroutines leave the calls alone and never reopen `stop`. */
  lemma GoroutineKeepsAcceptInv(s: State, t: State)
    requires AcceptInv(s)
    requires t.calls == s.calls && t.cancelled == s.cancelled && t.started == s.started
    requires t.log.accepted == s.log.accepted && (s.stop ==> t.stop)
    ensures AcceptInv(t)
  {
  }

  lemma SubmitKeepsDoneInv(s: State, c: Ticket, step: SubmitStep)
    requires DoneInv(s) && SubmitEnabled(s, c, step)
    ensures DoneInv(SubmitMove(s, c, step))
  {
  }

  // all of them

  lemma InvokeKeepsStartInv(s: State, c: Ticket, call: Call)
    requires StartInv(s) && c !in s.calls && AtEntry(call)
    ensures StartInv(s.(calls := s.calls[c := call]))
  {
  }

  lemma InvokeKeepsStopInv(s: State, c: Ticket, call: Call)
    requires StopInv(s) && c !in s.calls && AtEntry(call)
    ensures StopInv(s.(calls := s.calls[c := call]))
  {
  }

  lemma InvokeKeepsInv(s: State, c: Ticket, call: Call)
    requires Inv(s) && c !in s.calls && AtEntry(call)
    ensures Inv(s.(calls := s.calls[c := call]))
  {
    InvokeKeepsStartInv(s, c, call);
    InvokeKeepsStopInv(s, c, call);
    InvokeKeepsRest(s, c, call);
    InvokeKeepsAcceptInv(s, c, call);
  }

  lemma InvokeKeepsRest(s: State, c: Ticket, call: Call)
    requires DoneInv(s) && QueueInv(s) && HandInv(s) && c !in s.calls && AtEntry(call)
    ensures var t := s.(calls := s.calls[c := call]); DoneInv(t) && QueueInv(t) && HandInv(t)
  {
  }

  lemma CancelKeepsSignals(s: State, ctx: Ctx)
    requires StopInv(s) && DoneInv(s)
    ensures var t := s.(cancelled := s.cancelled + {ctx}); StopInv(t) && DoneInv(t)
  {
  }

  lemma CancelKeepsStartInv(s: State, ctx: Ctx)
    requires StartInv(s)
    ensures StartInv(s.(cancelled := s.cancelled + {ctx}))
  {
    assert Stage(s.(cancelled := s.cancelled + {ctx})) == Stage(s);
  }

  lemma CancelKeepsJobs(s: State, ctx: Ctx)
    requires QueueInv(s) && HandInv(s)
    ensures var t := s.(cancelled := s.cancelled + {ctx}); QueueInv(t) && HandInv(t)
  {
  }

  lemma CancelKeepsInv(s: State, ctx: Ctx)
    requires Inv(s)
    ensures Inv(s.(cancelled := s.cancelled + {ctx}))
  {
    CancelKeepsSignals(s, ctx);
    CancelKeepsStartInv(s, ctx);
    CancelKeepsJobs(s, ctx);
    CancelKeepsAcceptInv(s, ctx);
  }

  lemma CancelKeepsAcceptInv(s: State, ctx: Ctx)
    requires AcceptInv(s)
    ensures AcceptInv(s.(cancelled := s.cancelled + {ctx}))
  {
  }

  lemma CloserKeepsRest(s: State, k: nat, step: CloserStep)
    requires StartInv(s) && StopInv(s) && QueueInv(s) && HandInv(s) && CloserEnabled(s, k, step)
    ensures var t := CloserMove(s, k, step); StartInv(t) && StopInv(t) && QueueInv(t) && HandInv(t)
  {
    assert Stage(CloserMove(s, k, step)) == Stage(s);
  }

  lemma StartKeepsInv(s: State, c: Ticket, step: StartStep)
    requires Inv(s) && StartEnabled(s, c, step)
    ensures Inv(StartMove(s, c, step))
  {
    StartKeepsStartInv(s, c, step);
    StartKeepsStopInv(s, c, step);
    StartKeepsDoneInv(s, c, step);
    StartKeepsQueueInv(s, c, step);
    StartKeepsHandInv(s, c, step);
    StartKeepsAcceptInv(s, c, step);
  }

  lemma SubmitKeepsInv(s: State, c: Ticket, step: SubmitStep)
    requires Inv(s) && SubmitEnabled(s, c, step)
    ensures Inv(SubmitMove(s, c, step))
  {
    SubmitKeepsStartInv(s, c, step);
    SubmitKeepsStopInv(s, c, step);
    SubmitKeepsDoneInv(s, c, step);
    SubmitKeepsQueueInv(s, c, step);
    SubmitKeepsHandInv(s, c, step);
    SubmitKeepsAcceptInv(s, c, step);
  }

  lemma ShutdownKeepsInv(s: State, c: Ticket, step: ShutdownStep)
    requires Inv(s) && ShutdownEnabled(s, c, step)
    ensures Inv(ShutdownMove(s, c, step))
  {
    ShutdownKeepsStartInv(s, c, step);
    ShutdownKeepsStopInv(s, c, step);
    ShutdownKeepsDoneInv(s, c, step);
    ShutdownKeepsAcceptInv(s, c, step);
  }

  lemma WorkerKeepsInv(s: State, w: nat, step: WorkerStep)
    requires Inv(s) && WorkerEnabled(s, w, step)
    ensures Inv(WorkerMove(s, w, step))
  {
    WorkerKeepsStartInv(s, w, step);
    WorkerKeepsDoneInv(s, w, step);
    WorkerKeepsQueueInv(s, w, step);
    WorkerKeepsHands(s, w, step);
    WorkerKeepsExecuting(s, w, step);
    GoroutineKeepsAcceptInv(s, WorkerMove(s, w, step));
  }

  lemma WatcherKeepsInv(s: State, k: nat, step: WatcherStep)
    requires Inv(s) && WatcherEnabled(s, k, step)
    ensures Inv(WatcherMove(s, k, step))
  {
    WatcherKeepsStartInv(s, k, step);
    WatcherKeepsStopInv(s, k, step);
    WatcherKeepsDoneInv(s, k, step);
    GoroutineKeepsAcceptInv(s, WatcherMove(s, k, step));
  }

  lemma CloserKeepsInv(s: State, k: nat, step: CloserStep)
    requires Inv(s) && CloserEnabled(s, k, step)
    ensures Inv(CloserMove(s, k, step))
  {
    CloserKeepsDoneInv(s, k, step);
    CloserKeepsRest(s, k, step);
    GoroutineKeepsAcceptInv(s, CloserMove(s, k, step));
  }

  /** Every step keeps the invariant. */
  lemma StepKeepsInv(s: State, a: Action)
    requires Inv(s) && Enabled(s, a)
    ensures Inv(Apply(s, a))
  {
    match a
    case Invoke(c, call) => InvokeKeepsInv(s, c, call);
    case Cancel(ctx) => CancelKeepsInv(s, ctx);
    case StartOf(c, step) => StartKeepsInv(s, c, step);
    case SubmitOf(c, step) => SubmitKeepsInv(s, c, step);
    case ShutdownOf(c, step) => ShutdownKeepsInv(s, c, step);
    case WorkerOf(w, step) => WorkerKeepsInv(s, w, step);
    case WatcherOf(k, step) => WatcherKeepsInv(s, k, step);
    case CloserOf(k, step) => CloserKeepsInv(s, k, step);
  }

  /** Every state a run reaches satisfies the invariant. */
  lemma {:induction false} RunKeepsInv(s: State, run: seq<Action>)
    requires Inv(s) && Legal(s, run)
    ensures Inv(After(s, run))
    decreases run
  {
    if run == [] {
    } else {
      StepKeepsInv(s, run[0]);
      RunKeepsInv(Apply(s, run[0]), run[1..]);
    }
  }
}
