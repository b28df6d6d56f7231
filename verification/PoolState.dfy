/** The worker pool of internal/worker/runner.go as a labelled transition system.

Every step is one operation on something goroutines share (a channel, a sync.Once, the
atomic flag, the WaitGroup, a context) together with the local control flow that follows
it.  A step is chosen by a label, so any interleaving of any number of callers is a
sequence of labels.  A `select` without `default` offers one label per case that is
ready; a `select` with `default` is a single step that looks at its case first.

Panics of the runtime (closing a closed channel, a WaitGroup counter below zero) are
steps that set `panicked`; nothing in the guards prevents them. */
module PoolState {
  import opened Options

  /** A ticket names one call of Start, Submit or Shutdown.  The job a Submit carries is
      named by that call's ticket, so the same Go function submitted twice is two jobs. */
  type Ticket = nat

  /** A context, which is either cancelled or not. */
  type Ctx = nat

  /** Who executes the body of a sync.Once. */
  datatype Owner = ByCall(c: Ticket) | ByWatcher(k: nat)

  /** sync.Once: a call of Do enters the body of a Fresh Once, waits while another
      goroutine is in the body, and passes a Finished one. */
  datatype Once = Fresh | Busy(owner: Owner) | Finished

  datatype StartPc =
    | StartDo | StoreStarted | AddGroup | SpawnWorker(i: nat) | SpawnWatcher | SpawnCloser
    | LeaveStartOnce | StartReturned

  datatype SubmitResult = Accepted | SubmitNotStarted | NilJob | Stopped | SubmitContextDone

  datatype SubmitPc = SubmitLoad | StopCheck | SendSelect | SubmitReturned(result: SubmitResult)

  datatype ShutdownResult = AllExited | ShutdownNotStarted | ShutdownContextDone

  datatype ShutdownPc =
    | ShutdownLoad | StopDo | CloseStop | LeaveStopOnce | DoneSelect
    | ShutdownReturned(outcome: ShutdownResult)

  /** A call in progress, or one that has returned. */
  datatype Call =
    | StartCall(ctx: Ctx, start: StartPc)
    | SubmitCall(ctx: Ctx, nilJob: bool, submit: SubmitPc)
    | ShutdownCall(ctx: Ctx, shutdown: ShutdownPc)

  /** `Cleared` lies between the ctx.Err() check and the call of the job; `Leaving`
      between the return statement and the deferred wg.Done. */
  datatype WorkerPc =
    | JobSelect | Holding(job: Ticket) | Cleared(job: Ticket) | Running(job: Ticket)
    | Leaving | Exited

  datatype Worker = Worker(ctx: Ctx, pc: WorkerPc)

  datatype WatcherPc = WatchSelect | WatchDo | WatchClose | WatchLeave | WatchExited

  datatype Watcher = Watcher(ctx: Ctx, pc: WatcherPc)

  datatype CloserPc = AwaitGroup | CloseDone | CloserExited

  /** What has happened to jobs so far, in order. */
  datatype Logs = Logs(
    accepted: seq<Ticket>, dequeued: seq<Ticket>, begun: seq<Ticket>,
    completed: seq<Ticket>, discarded: seq<Ticket>)

  /** The fields of Runner, the goroutines it has spawned, the calls made on it, the
      cancelled contexts, and history: `root` is the context of the Start call that
      entered startOnce. */
  datatype State = State(
    concurrency: nat, capacity: nat,
    jobs: seq<Ticket>, stop: bool, done: bool,
    started: bool, startOnce: Once, stopOnce: Once, wg: int,
    workers: seq<Worker>, watchers: seq<Watcher>, closers: seq<CloserPc>,
    calls: map<Ticket, Call>, cancelled: set<Ctx>,
    root: Option<Ctx>, panicked: bool, log: Logs)

  const EMPTY_LOGS := Logs([], [], [], [], [])

  /** The pool New returns for these two arguments; New rejects values below 1. */
  function Init(concurrency: nat, capacity: nat): State {
    State(concurrency, capacity, [], false, false, false, Fresh, Fresh, 0,
          [], [], [], map[], {}, None, false, EMPTY_LOGS)
  }

  datatype StartStep =
    | StartEnter | StartPass | StoreFlag | AddWorkers | GoWorker | GoWatcher | GoCloser | StartLeave

  datatype SubmitStep = TestStarted | CheckStop | SelectStop | SelectCtx | SelectSend

  datatype ShutdownStep =
    | TestFlag | StopEnter | StopPass | StopClose | StopLeave | SelectDone | SelectCancel

  datatype WorkerStep = TakeStop | TakeJob | CheckCtx | BeginJob | FinishJob | GroupDone

  datatype WatcherStep =
    | WatchCtx | WatchDone | WatchEnter | WatchPass | WatchCloseStop | WatchLeaveOnce

  datatype CloserStep = GroupWaited | CloseDoneChannel

  datatype Action =
    // the environment: new calls, and contexts being cancelled
    | Invoke(c: Ticket, call: Call)
    | Cancel(ctx: Ctx)
    // the calls of Start, Submit and Shutdown
    | StartOf(c: Ticket, start: StartStep)
    | SubmitOf(c: Ticket, submit: SubmitStep)
    | ShutdownOf(c: Ticket, shutdown: ShutdownStep)
    // the goroutines Start spawns: run, the watcher and the closer
    | WorkerOf(w: nat, worker: WorkerStep)
    | WatcherOf(k: nat, watcher: WatcherStep)
    | CloserOf(k: nat, closer: CloserStep)

  // ----- guards -----

  /** A call as its caller makes it. */
  predicate AtEntry(call: Call) {
    match call
    case StartCall(_, pc) => pc == StartDo
    case SubmitCall(_, _, pc) => pc == SubmitLoad
    case ShutdownCall(_, pc) => pc == ShutdownLoad
  }

  predicate StartEnabled(s: State, c: Ticket, step: StartStep) {
    c in s.calls && s.calls[c].StartCall? &&
    var pc := s.calls[c].start;
    match step
    case StartEnter => pc.StartDo? && s.startOnce.Fresh?
    case StartPass => pc.StartDo? && s.startOnce.Finished?
    case StoreFlag => pc.StoreStarted?
    case AddWorkers => pc.AddGroup?
    case GoWorker => pc.SpawnWorker?
    case GoWatcher => pc.SpawnWatcher?
    case GoCloser => pc.SpawnCloser?
    case StartLeave => pc.LeaveStartOnce?
  }

  predicate SubmitEnabled(s: State, c: Ticket, step: SubmitStep) {
    c in s.calls && s.calls[c].SubmitCall? &&
    var pc := s.calls[c].submit;
    match step
    case TestStarted => pc.SubmitLoad?
    case CheckStop => pc.StopCheck?
    case SelectStop => pc.SendSelect? && s.stop
    case SelectCtx => pc.SendSelect? && s.calls[c].ctx in s.cancelled
    case SelectSend => pc.SendSelect? && |s.jobs| < s.capacity
  }

  predicate ShutdownEnabled(s: State, c: Ticket, step: ShutdownStep) {
    c in s.calls && s.calls[c].ShutdownCall? &&
    var pc := s.calls[c].shutdown;
    match step
    case TestFlag => pc.ShutdownLoad?
    case StopEnter => pc.StopDo? && s.stopOnce.Fresh?
    case StopPass => pc.StopDo? && s.stopOnce.Finished?
    case StopClose => pc.CloseStop?
    case StopLeave => pc.LeaveStopOnce?
    case SelectDone => pc.DoneSelect? && s.done
    case SelectCancel => pc.DoneSelect? && s.calls[c].ctx in s.cancelled
  }

  predicate WorkerEnabled(s: State, w: nat, step: WorkerStep) {
    w < |s.workers| &&
    var pc := s.workers[w].pc;
    match step
    case TakeStop => pc.JobSelect? && s.stop
    case TakeJob => pc.JobSelect? && s.jobs != []
    case CheckCtx => pc.Holding?
    case BeginJob => pc.Cleared?
    case FinishJob => pc.Running?
    case GroupDone => pc.Leaving?
  }

  predicate WatcherEnabled(s: State, k: nat, step: WatcherStep) {
    k < |s.watchers| &&
    var pc := s.watchers[k].pc;
    match step
    case WatchCtx => pc.WatchSelect? && s.watchers[k].ctx in s.cancelled
    case WatchDone => pc.WatchSelect? && s.done
    case WatchEnter => pc.WatchDo? && s.stopOnce.Fresh?
    case WatchPass => pc.WatchDo? && s.stopOnce.Finished?
    case WatchCloseStop => pc.WatchClose?
    case WatchLeaveOnce => pc.WatchLeave?
  }

  predicate CloserEnabled(s: State, k: nat, step: CloserStep) {
    k < |s.closers| &&
    match step
    case GroupWaited => s.closers[k].AwaitGroup? && s.wg == 0
    case CloseDoneChannel => s.closers[k].CloseDone?
  }

  /** The step a label names can be taken. */
  predicate Enabled(s: State, a: Action) {
    match a
    case Invoke(c, call) => c !in s.calls && AtEntry(call)
    case Cancel(ctx) => ctx !in s.cancelled
    case StartOf(c, step) => StartEnabled(s, c, step)
    case SubmitOf(c, step) => SubmitEnabled(s, c, step)
    case ShutdownOf(c, step) => ShutdownEnabled(s, c, step)
    case WorkerOf(w, step) => WorkerEnabled(s, w, step)
    case WatcherOf(k, step) => WatcherEnabled(s, k, step)
    case CloserOf(k, step) => CloserEnabled(s, k, step)
  }

  // ----- effects: where the goroutine goes next, then what each shared field becomes -----

  /** The body of startOnce.Do, lines 46-61. */
  function StartNext(s: State, c: Ticket, step: StartStep): StartPc
    requires StartEnabled(s, c, step)
  {
    match step
    case StartEnter => StoreStarted
    case StartPass => StartReturned
    case StoreFlag => AddGroup
    case AddWorkers => if s.concurrency == 0 then SpawnWatcher else SpawnWorker(0)
    case GoWorker =>
      var next := s.calls[c].start.i + 1;
      if next < s.concurrency then SpawnWorker(next) else SpawnWatcher
    case GoWatcher => SpawnCloser
    case GoCloser => LeaveStartOnce
    case StartLeave => StartReturned
  }

  function StartMove(s: State, c: Ticket, step: StartStep): State
    requires StartEnabled(s, c, step)
  {
    var ctx := s.calls[c].ctx;
    s.(calls := s.calls[c := StartCall(ctx, StartNext(s, c, step))],
       startOnce := if step.StartEnter? then Busy(ByCall(c)) else if step.StartLeave? then Finished else s.startOnce,
       root := if step.StartEnter? then Some(ctx) else s.root,
       started := s.started || step.StoreFlag?,
       wg := if step.AddWorkers? then s.wg + s.concurrency else s.wg,
       workers := if step.GoWorker? then s.workers + [Worker(ctx, JobSelect)] else s.workers,
       watchers := if step.GoWatcher? then s.watchers + [Watcher(ctx, WatchSelect)] else s.watchers,
       closers := if step.GoCloser? then s.closers + [AwaitGroup] else s.closers)
  }

  /** Submit, lines 65-85. */
  function SubmitNext(s: State, c: Ticket, step: SubmitStep): SubmitPc
    requires SubmitEnabled(s, c, step)
  {
    match step
    case TestStarted =>
      if !s.started then SubmitReturned(SubmitNotStarted)
      else if s.calls[c].nilJob then SubmitReturned(NilJob)
      else StopCheck
    case CheckStop => if s.stop then SubmitReturned(Stopped) else SendSelect
    case SelectStop => SubmitReturned(Stopped)
    case SelectCtx => SubmitReturned(SubmitContextDone)
    case SelectSend => SubmitReturned(Accepted)
  }

  function SubmitMove(s: State, c: Ticket, step: SubmitStep): State
    requires SubmitEnabled(s, c, step)
  {
    s.(calls := s.calls[c := SubmitCall(s.calls[c].ctx, s.calls[c].nilJob, SubmitNext(s, c, step))],
       jobs := if step.SelectSend? then s.jobs + [c] else s.jobs,
       log := if step.SelectSend? then s.log.(accepted := s.log.accepted + [c]) else s.log)
  }

  /** Shutdown, lines 87-98.  Closing `stop` a second time panics. */
  function ShutdownNext(s: State, c: Ticket, step: ShutdownStep): ShutdownPc
    requires ShutdownEnabled(s, c, step)
  {
    match step
    case TestFlag => if s.started then StopDo else ShutdownReturned(ShutdownNotStarted)
    case StopEnter => CloseStop
    case StopPass => DoneSelect
    case StopClose => LeaveStopOnce
    case StopLeave => DoneSelect
    case SelectDone => ShutdownReturned(AllExited)
    case SelectCancel => ShutdownReturned(ShutdownContextDone)
  }

  function ShutdownMove(s: State, c: Ticket, step: ShutdownStep): State
    requires ShutdownEnabled(s, c, step)
  {
    s.(calls := s.calls[c := ShutdownCall(s.calls[c].ctx, ShutdownNext(s, c, step))],
       stopOnce := if step.StopEnter? then Busy(ByCall(c)) else if step.StopLeave? then Finished else s.stopOnce,
       stop := s.stop || step.StopClose?,
       panicked := s.panicked || (step.StopClose? && s.stop))
  }

  /** run, lines 100-113. */
  function WorkerNext(s: State, w: nat, step: WorkerStep): WorkerPc
    requires WorkerEnabled(s, w, step)
  {
    match step
    case TakeStop => Leaving
    case TakeJob => Holding(s.jobs[0])
    case CheckCtx => if s.workers[w].ctx in s.cancelled then Leaving else Cleared(s.workers[w].pc.job)
    case BeginJob => Running(s.workers[w].pc.job)
    case FinishJob => JobSelect
    case GroupDone => Exited
  }

  function WorkerLog(s: State, w: nat, step: WorkerStep): Logs
    requires WorkerEnabled(s, w, step)
  {
    match step
    case TakeJob => s.log.(dequeued := s.log.dequeued + [s.jobs[0]])
    case CheckCtx =>
      if s.workers[w].ctx in s.cancelled
      then s.log.(discarded := s.log.discarded + [s.workers[w].pc.job])
      else s.log
    case BeginJob => s.log.(begun := s.log.begun + [s.workers[w].pc.job])
    case FinishJob => s.log.(completed := s.log.completed + [s.workers[w].pc.job])
    case _ => s.log
  }

  function WorkerMove(s: State, w: nat, step: WorkerStep): State
    requires WorkerEnabled(s, w, step)
  {
    s.(workers := s.workers[w := Worker(s.workers[w].ctx, WorkerNext(s, w, step))],
       jobs := if step.TakeJob? then s.jobs[1..] else s.jobs,
       log := WorkerLog(s, w, step),
       wg := if step.GroupDone? then s.wg - 1 else s.wg,
       panicked := s.panicked || (step.GroupDone? && s.wg <= 0))
  }

  /** The watcher goroutine, lines 51-57. */
  function WatcherNext(s: State, k: nat, step: WatcherStep): WatcherPc
    requires WatcherEnabled(s, k, step)
  {
    match step
    case WatchCtx => WatchDo
    case WatchDone => WatchExited
    case WatchEnter => WatchClose
    case WatchPass => WatchExited
    case WatchCloseStop => WatchLeave
    case WatchLeaveOnce => WatchExited
  }

  function WatcherMove(s: State, k: nat, step: WatcherStep): State
    requires WatcherEnabled(s, k, step)
  {
    s.(watchers := s.watchers[k := Watcher(s.watchers[k].ctx, WatcherNext(s, k, step))],
       stopOnce := if step.WatchEnter? then Busy(ByWatcher(k)) else if step.WatchLeaveOnce? then Finished else s.stopOnce,
       stop := s.stop || step.WatchCloseStop?,
       panicked := s.panicked || (step.WatchCloseStop? && s.stop))
  }

  /** The closer goroutine, lines 58-61.  Closing `done` a second time panics. */
  function CloserMove(s: State, k: nat, step: CloserStep): State
    requires CloserEnabled(s, k, step)
  {
    s.(closers := s.closers[k := if step.GroupWaited? then CloseDone else CloserExited],
       done := s.done || step.CloseDoneChannel?,
       panicked := s.panicked || (step.CloseDoneChannel? && s.done))
  }

  /** The state after the step a label names. */
  function Apply(s: State, a: Action): State
    requires Enabled(s, a)
  {
    match a
    case Invoke(c, call) => s.(calls := s.calls[c := call])
    case Cancel(ctx) => s.(cancelled := s.cancelled + {ctx})
    case StartOf(c, step) => StartMove(s, c, step)
    case SubmitOf(c, step) => SubmitMove(s, c, step)
    case ShutdownOf(c, step) => ShutdownMove(s, c, step)
    case WorkerOf(w, step) => WorkerMove(s, w, step)
    case WatcherOf(k, step) => WatcherMove(s, k, step)
    case CloserOf(k, step) => CloserMove(s, k, step)
  }

  // ----- runs -----

  /** The labels can be taken one after the other, starting in `s`. */
  predicate Legal(s: State, run: seq<Action>)
    decreases run
  {
    run == [] || (Enabled(s, run[0]) && Legal(Apply(s, run[0]), run[1..]))
  }

  /** The state a legal run ends in. */
  function After(s: State, run: seq<Action>): State
    requires Legal(s, run)
    decreases run
  {
    if run == [] then s else After(Apply(s, run[0]), run[1..])
  }

  /** How many labels of a run belong to a class. */
  function Count(run: seq<Action>, p: Action -> bool): nat {
    if run == [] then 0 else (if p(run[0]) then 1 else 0) + Count(run[1..], p)
  }

  lemma {:induction false} LegalConcat(s: State, first: seq<Action>, second: seq<Action>)
    ensures Legal(s, first + second) <==> Legal(s, first) && Legal(After(s, first), second)
    ensures Legal(s, first + second) ==> After(s, first + second) == After(After(s, first), second)
    decreases first
  {
    if first == [] {
      assert first + second == second;
    } else {
      assert (first + second)[0] == first[0] && (first + second)[1..] == first[1..] + second;
      if Enabled(s, first[0]) {
        LegalConcat(Apply(s, first[0]), first[1..], second);
      }
    }
  }

  lemma LegalSnoc(s: State, run: seq<Action>, a: Action)
    requires Legal(s, run) && Enabled(After(s, run), a)
    ensures Legal(s, run + [a]) && After(s, run + [a]) == Apply(After(s, run), a)
  {
    var t := After(s, run);
    assert [a][1..] == [];
    assert Legal(Apply(t, a), []);
    assert Legal(t, [a]) && After(t, [a]) == Apply(t, a);
    LegalConcat(s, run, [a]);
  }
}
