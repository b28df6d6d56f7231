/** A simple first-in first-out pool, and the proof that the worker pool refines it: every
    step of every goroutine and every caller is one event of the simple pool or none. */
module FifoSpec {
  import opened Options
  import opened PoolState
  import opened Sums
  import opened PoolInvariant
  import opened PoolSafety
  import opened PoolBounds

  datatype Event =
    | Accept(j: Ticket) | Take(j: Ticket) | Begin(j: Ticket) | Finish(j: Ticket) | Discard(j: Ticket)

  /** `accepted[next..]` is the queue; `taken` jobs have left it and not yet begun. */
  datatype Fifo = Fifo(
    workers: nat, slots: nat, accepted: seq<Ticket>, next: nat,
    taken: multiset<Ticket>, executing: multiset<Ticket>,
    finished: seq<Ticket>, dropped: seq<Ticket>)

  function EmptyFifo(workers: nat, slots: nat): Fifo {
    Fifo(workers, slots, [], 0, multiset{}, multiset{}, [], [])
  }

  /** A new job needs a slot, the oldest queued job needs a worker, and a worker that
      drops a job is lost. */
  predicate May(p: Fifo, e: Event) {
    p.next <= |p.accepted| &&
    match e
    case Accept(j) => j !in p.accepted && |p.accepted| - p.next < p.slots
    case Take(j) =>
      p.next < |p.accepted| && p.accepted[p.next] == j
      && |p.taken| + |p.executing| + |p.dropped| < p.workers
    case Begin(j) => j in p.taken
    case Finish(j) => j in p.executing
    case Discard(j) => j in p.taken
  }

  function Happen(p: Fifo, e: Event): Fifo {
    var one := multiset{e.j};
    p.(accepted := if e.Accept? then p.accepted + [e.j] else p.accepted,
       next := if e.Take? then p.next + 1 else p.next,
       taken := if e.Take? then p.taken + one else if e.Begin? || e.Discard? then p.taken - one else p.taken,
       executing := if e.Begin? then p.executing + one else if e.Finish? then p.executing - one else p.executing,
       finished := if e.Finish? then p.finished + [e.j] else p.finished,
       dropped := if e.Discard? then p.dropped + [e.j] else p.dropped)
  }

  predicate LegalTrace(p: Fifo, es: seq<Event>)
    decreases es
  {
    es == [] || (May(p, es[0]) && LegalTrace(Happen(p, es[0]), es[1..]))
  }

  function AfterTrace(p: Fifo, es: seq<Event>): Fifo
    decreases es
  {
    if es == [] then p else AfterTrace(Happen(p, es[0]), es[1..])
  }

  // ----- the worker pool seen as that simple pool -----

  function Waiting(w: Worker): multiset<Ticket> {
    if w.pc.Holding? || w.pc.Cleared? then multiset{w.pc.job} else multiset{}
  }

  function Abs(s: State): Fifo {
    Fifo(s.concurrency, s.capacity, s.log.accepted, |s.log.dequeued|,
         Bag(s.workers, Waiting), Bag(s.workers, Executing),
         s.log.completed, s.log.discarded)
  }

  function WorkerEvent(s: State, w: nat, step: WorkerStep): Option<Event>
    requires WorkerEnabled(s, w, step)
  {
    match step
    case TakeJob => Some(Take(s.jobs[0]))
    case CheckCtx => if s.workers[w].ctx in s.cancelled then Some(Discard(s.workers[w].pc.job)) else None
    case BeginJob => Some(Begin(s.workers[w].pc.job))
    case FinishJob => Some(Finish(s.workers[w].pc.job))
    case _ => None
  }

  /** What a step looks like from the simple pool: one event or none. */
  function Seen(s: State, a: Action): Option<Event>
    requires Enabled(s, a)
  {
    match a
    case SubmitOf(c, SelectSend) => Some(Accept(c))
    case WorkerOf(w, step) => WorkerEvent(s, w, step)
    case _ => None
  }

  function Trace(s: State, run: seq<Action>): seq<Event>
    requires Legal(s, run)
    decreases run
  {
    if run == [] then []
    else match Seen(s, run[0])
         case None => Trace(Apply(s, run[0]), run[1..])
         case Some(e) => [e] + Trace(Apply(s, run[0]), run[1..])
  }

  // ----- one step -----

  lemma BagPut<T, U>(xs: seq<T>, i: nat, x: T, f: T -> multiset<U>, u: U)
    requires i < |xs| && f(xs[i]) == multiset{} && f(x) == multiset{u}
    ensures Bag(xs[i := x], f) == Bag(xs, f) + multiset{u}
  {
    BagUpdate(xs, i, x, f);
  }

  lemma BagDrop<T, U>(xs: seq<T>, i: nat, x: T, f: T -> multiset<U>, u: U)
    requires i < |xs| && f(xs[i]) == multiset{u} && f(x) == multiset{}
    ensures u in Bag(xs, f)
    ensures Bag(xs[i := x], f) == Bag(xs, f) - multiset{u}
  {
    BagUpdate(xs, i, x, f);
    var before, after := Bag(xs, f), Bag(xs[i := x], f);
    forall v ensures before[v] == (after + multiset{u})[v] {
      assert (after + multiset{u})[v] == (before + multiset{})[v];
    }
    assert before == after + multiset{u};
  }

  lemma BagSame<T, U>(xs: seq<T>, i: nat, x: T, f: T -> multiset<U>)
    requires i < |xs| && f(xs[i]) == f(x)
    ensures Bag(xs[i := x], f) == Bag(xs, f)
  {
    BagUpdate(xs, i, x, f);
    var before, after := Bag(xs, f), Bag(xs[i := x], f);
    assert (after + f(x)) - f(x) == after && (before + f(x)) - f(x) == before;
  }

  function SelectOne(w: Worker): nat { if w.pc.JobSelect? then 1 else 0 }
  function ExecutingOne(w: Worker): nat { if w.pc.Running? then 1 else 0 }

  lemma {:induction false} WorkersSplit(ws: seq<Worker>)
    ensures Total(ws, SelectOne) + Total(ws, UnbegunOne) + Total(ws, ExecutingOne) + Total(ws, GoneOne) == |ws|
  {
    if ws == [] {
    } else {
      WorkersSplit(ws[1..]);
    }
  }

  /** A worker that waits for a job leaves room for one more. */
  lemma RoomToTake(s: State, w: nat)
    requires |s.workers| <= s.concurrency && |s.log.discarded| <= Total(s.workers, GoneOne)
    requires w < |s.workers| && s.workers[w].pc.JobSelect?
    ensures |Bag(s.workers, Waiting)| + |Bag(s.workers, Executing)| + |s.log.discarded| < s.concurrency
  {
    WorkersSplit(s.workers);
    TotalAtLeast(s.workers, w, SelectOne);
    BagSize(s.workers, Waiting, UnbegunOne);
    BagSize(s.workers, Executing, ExecutingOne);
  }

  ghost predicate Matches(p: Fifo, e: Option<Event>, q: Fifo) {
    match e
    case None => q == p
    case Some(event) => May(p, event) && q == Happen(p, event)
  }

  lemma WorkerRefines(s: State, w: nat, step: WorkerStep)
    requires Inv(s) && WorkerEnabled(s, w, step)
    ensures Matches(Abs(s), WorkerEvent(s, w, step), Abs(WorkerMove(s, w, step)))
  {
    if WorkerEvent(s, w, step).Some? {
      WorkerMay(s, w, step);
    }
    WorkerSeen(s, w, step);
  }

  /** The event of a worker's step is allowed. */
  lemma WorkerMay(s: State, w: nat, step: WorkerStep)
    requires StartInv(s) && QueueInv(s) && WorkerEnabled(s, w, step) && WorkerEvent(s, w, step).Some?
    ensures May(Abs(s), WorkerEvent(s, w, step).value)
  {
    match step
    case TakeJob => TakeMay(s, w);
    case FinishJob => ExecutingMove(s, w, step);
    case _ => TakenMove(s, w, step);
  }

  lemma TakeMay(s: State, w: nat)
    requires StartInv(s) && QueueInv(s) && WorkerEnabled(s, w, TakeJob)
    ensures May(Abs(s), Take(s.jobs[0]))
  {
    RoomToTake(s, w);
    assert s.log.accepted[|s.log.dequeued|] == s.jobs[0];
  }

  // what each of a worker's steps does to the simple pool

  lemma TakeSeen(s: State, w: nat)
    requires WorkerEnabled(s, w, TakeJob)
    ensures Abs(WorkerMove(s, w, TakeJob)) == Happen(Abs(s), Take(s.jobs[0]))
  {
    TakenMove(s, w, TakeJob);
    ExecutingMove(s, w, TakeJob);
  }

  lemma CheckSeen(s: State, w: nat)
    requires WorkerEnabled(s, w, CheckCtx)
    ensures Abs(WorkerMove(s, w, CheckCtx))
         == if Drops(s, w, CheckCtx) then Happen(Abs(s), Discard(s.workers[w].pc.job)) else Abs(s)
  {
    TakenMove(s, w, CheckCtx);
    ExecutingMove(s, w, CheckCtx);
  }

  lemma BeginSeen(s: State, w: nat)
    requires WorkerEnabled(s, w, BeginJob)
    ensures Abs(WorkerMove(s, w, BeginJob)) == Happen(Abs(s), Begin(s.workers[w].pc.job))
  {
    TakenMove(s, w, BeginJob);
    ExecutingMove(s, w, BeginJob);
  }

  lemma FinishSeen(s: State, w: nat)
    requires WorkerEnabled(s, w, FinishJob)
    ensures Abs(WorkerMove(s, w, FinishJob)) == Happen(Abs(s), Finish(s.workers[w].pc.job))
  {
    TakenMove(s, w, FinishJob);
    ExecutingMove(s, w, FinishJob);
  }

  lemma LeaveSeen(s: State, w: nat, step: WorkerStep)
    requires WorkerEnabled(s, w, step) && (step.TakeStop? || step.GroupDone?)
    ensures Abs(WorkerMove(s, w, step)) == Abs(s)
  {
    TakenMove(s, w, step);
    ExecutingMove(s, w, step);
  }

  lemma WorkerSeen(s: State, w: nat, step: WorkerStep)
    requires WorkerEnabled(s, w, step)
    ensures var e := WorkerEvent(s, w, step);
            Abs(WorkerMove(s, w, step)) == if e.Some? then Happen(Abs(s), e.value) else Abs(s)
  {
    match step
    case TakeJob => TakeSeen(s, w);
    case CheckCtx => CheckSeen(s, w);
    case BeginJob => BeginSeen(s, w);
    case FinishJob => FinishSeen(s, w);
    case _ => LeaveSeen(s, w, step);
  }

  lemma SameFields(p: Fifo, e: Option<Event>, q: Fifo)
    requires q.workers == p.workers && q.slots == p.slots
    requires var r := if e.Some? then Happen(p, e.value) else p;
             && q.accepted == r.accepted && q.next == r.next && q.taken == r.taken
             && q.executing == r.executing && q.finished == r.finished && q.dropped == r.dropped
    requires e.Some? ==> May(p, e.value)
    ensures Matches(p, e, q)
  {
  }

  predicate Drops(s: State, w: nat, step: WorkerStep)
    requires WorkerEnabled(s, w, step)
  {
    step.CheckCtx? && s.workers[w].ctx in s.cancelled
  }

  /** The jobs taken and not begun, before and after. */
  lemma TakenMove(s: State, w: nat, step: WorkerStep)
    requires WorkerEnabled(s, w, step)
    ensures var p, q := Bag(s.workers, Waiting), Bag(WorkerMove(s, w, step).workers, Waiting);
            && (step.TakeJob? ==> q == p + multiset{s.jobs[0]})
            && (step.BeginJob? || Drops(s, w, step) ==>
                  s.workers[w].pc.job in p && q == p - multiset{s.workers[w].pc.job})
            && (!step.TakeJob? && !step.BeginJob? && !Drops(s, w, step) ==> q == p)
  {
    var x := Worker(s.workers[w].ctx, WorkerNext(s, w, step));
    assert WorkerMove(s, w, step).workers == s.workers[w := x];
    if step.TakeJob? {
      BagPut(s.workers, w, x, Waiting, s.jobs[0]);
    } else if step.BeginJob? || Drops(s, w, step) {
      BagDrop(s.workers, w, x, Waiting, s.workers[w].pc.job);
    } else {
      BagSame(s.workers, w, x, Waiting);
    }
  }

  /** The jobs being executed, before and after. */
  lemma ExecutingMove(s: State, w: nat, step: WorkerStep)
    requires WorkerEnabled(s, w, step)
    ensures var p, q := Bag(s.workers, Executing), Bag(WorkerMove(s, w, step).workers, Executing);
            && (step.BeginJob? ==> q == p + multiset{s.workers[w].pc.job})
            && (step.FinishJob? ==> s.workers[w].pc.job in p && q == p - multiset{s.workers[w].pc.job})
            && (!step.BeginJob? && !step.FinishJob? ==> q == p)
  {
    var x := Worker(s.workers[w].ctx, WorkerNext(s, w, step));
    if step.BeginJob? {
      BagPut(s.workers, w, x, Executing, s.workers[w].pc.job);
    } else if step.FinishJob? {
      BagDrop(s.workers, w, x, Executing, s.workers[w].pc.job);
    } else {
      BagSame(s.workers, w, x, Executing);
    }
  }

  lemma StepRefines(s: State, a: Action)
    requires Inv(s) && Enabled(s, a)
    ensures Matches(Abs(s), Seen(s, a), Abs(Apply(s, a)))
  {
    match a
    case WorkerOf(w, step) => WorkerRefines(s, w, step);
    case _ => OthersRefine(s, a);
  }

  lemma OthersRefine(s: State, a: Action)
    requires Inv(s) && Enabled(s, a) && !a.WorkerOf?
    ensures Matches(Abs(s), Seen(s, a), Abs(Apply(s, a)))
  {
    OthersSeen(s, a);
    if Sends(a) {
      SenderIsNew(s, a.c);
    }
    SameFields(Abs(s), Seen(s, a), Abs(Apply(s, a)));
  }

  lemma SenderIsNew(s: State, c: Ticket)
    requires Inv(s) && SubmitEnabled(s, c, SelectSend)
    ensures May(Abs(s), Accept(c))
  {
    assert !CallAccepted(s, c);
  }

  lemma OthersSeen(s: State, a: Action)
    requires Enabled(s, a) && !a.WorkerOf?
    ensures var p, q := Abs(s), Abs(Apply(s, a));
            && Seen(s, a) == (if Sends(a) then Some(Accept(a.c)) else None)
            && q.workers == p.workers && q.slots == p.slots && q.next == p.next
            && q.accepted == p.accepted + (if Sends(a) then [a.c] else [])
            && q.taken == p.taken && q.executing == p.executing && q.finished == p.finished && q.dropped == p.dropped
  {
    if SpawnsWorker(a) {
      BagAppend(s.workers, Worker(s.calls[a.c].ctx, JobSelect), Waiting);
      BagAppend(s.workers, Worker(s.calls[a.c].ctx, JobSelect), Executing);
    }
    OthersKeepWork(s, a);
  }

  lemma OthersKeepWork(s: State, a: Action)
    requires Enabled(s, a) && !a.WorkerOf?
    ensures var t := Apply(s, a);
            && t.concurrency == s.concurrency && t.capacity == s.capacity
            && t.log.accepted == s.log.accepted + (if Sends(a) then [a.c] else [])
            && t.log.dequeued == s.log.dequeued && t.log.completed == s.log.completed
            && t.log.discarded == s.log.discarded
            && t.workers == s.workers + (if SpawnsWorker(a) then [Worker(s.calls[a.c].ctx, JobSelect)] else [])
  {
  }

  // ----- runs -----

  /** Every run of the worker pool is, event for event, a run of the simple pool that ends
      where the worker pool ends. */
  lemma {:induction false} Refinement(s: State, run: seq<Action>)
    requires Inv(s) && Legal(s, run)
    ensures LegalTrace(Abs(s), Trace(s, run))
    ensures AfterTrace(Abs(s), Trace(s, run)) == Abs(After(s, run))
    decreases run
  {
    if run == [] {
    } else {
      var t := Apply(s, run[0]);
      StepKeepsInv(s, run[0]);
      StepRefines(s, run[0]);
      Refinement(t, run[1..]);
      if Seen(s, run[0]).Some? {
        assert Trace(s, run)[1..] == Trace(t, run[1..]);
      }
    }
  }

  /** From the pool New returns. */
  lemma PoolRefinesFifo(concurrency: nat, capacity: nat, run: seq<Action>)
    requires PoolRun(concurrency, capacity, run)
    ensures var init := Init(concurrency, capacity);
            && LegalTrace(EmptyFifo(concurrency, capacity), Trace(init, run))
            && AfterTrace(EmptyFifo(concurrency, capacity), Trace(init, run)) == Abs(End(concurrency, capacity, run))
  {
    InitInv(concurrency, capacity);
    Refinement(Init(concurrency, capacity), run);
  }

  // ----- the simple pool does what its name says -----

  function Accepts(es: seq<Event>): seq<Ticket> {
    if es == [] then [] else (if es[0].Accept? then [es[0].j] else []) + Accepts(es[1..])
  }

  function Takes(es: seq<Event>): seq<Ticket> {
    if es == [] then [] else (if es[0].Take? then [es[0].j] else []) + Takes(es[1..])
  }

  lemma {:induction false} TraceLogs(p: Fifo, es: seq<Event>)
    requires LegalTrace(p, es) && p.next <= |p.accepted|
    ensures var q := AfterTrace(p, es);
            && q.next <= |q.accepted|
            && q.accepted == p.accepted + Accepts(es)
            && q.accepted[..q.next] == p.accepted[..p.next] + Takes(es)
    decreases es
  {
    if es == [] {
    } else {
      var p' := Happen(p, es[0]);
      EventLogs(p, es[0]);
      TraceLogs(p', es[1..]);
      Regroup(p.accepted, if es[0].Accept? then [es[0].j] else [], Accepts(es[1..]));
      Regroup(p.accepted[..p.next], if es[0].Take? then [es[0].j] else [], Takes(es[1..]));
    }
  }

  lemma Regroup<T>(a: seq<T>, b: seq<T>, c: seq<T>)
    ensures (a + b) + c == a + (b + c)
  {
  }

  lemma EventLogs(p: Fifo, e: Event)
    requires May(p, e)
    ensures var q := Happen(p, e);
            && q.next <= |q.accepted|
            && q.accepted == p.accepted + (if e.Accept? then [e.j] else [])
            && q.accepted[..q.next] == p.accepted[..p.next] + (if e.Take? then [e.j] else [])
  {
  }

  /** In every run of the worker pool jobs are taken in the order they were accepted. */
  lemma TakenInOrder(concurrency: nat, capacity: nat, run: seq<Action>)
    requires PoolRun(concurrency, capacity, run)
    ensures var es := Trace(Init(concurrency, capacity), run); Takes(es) <= Accepts(es)
  {
    PoolRefinesFifo(concurrency, capacity, run);
    var es := Trace(Init(concurrency, capacity), run);
    var q := AfterTrace(EmptyFifo(concurrency, capacity), es);
    TraceLogs(EmptyFifo(concurrency, capacity), es);
    assert [] + Accepts(es) == Accepts(es) && EmptyFifo(concurrency, capacity).accepted[..0] + Takes(es) == Takes(es);
    assert q.accepted[..q.next] <= q.accepted;
  }
}
