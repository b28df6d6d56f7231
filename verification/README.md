# Worker pool, listing links and start-up loop

A Dafny model of three parts of WeeVCrafts, with proofs about every run and every input.

* **The bounded worker pool** (`internal/worker/runner.go`). `PoolState` is the pool as a
  labelled transition system: one label for each operation on something goroutines share
  (the `jobs`, `stop` and `done` channels, the two `sync.Once` values, the atomic flag, the
  WaitGroup, the contexts), taken by any of the workers, the watcher, the closer and any
  number of concurrent Start, Submit and Shutdown calls, in any order. A `select` offers
  one label for each ready case; only a `default` gives priority. A second `close` and a
  negative WaitGroup counter are steps that set a panic flag, and it is proved never set.
  `Runner` is the same pool as an object whose fields are updated in place; each of its
  methods is tied to a step of the transition system, and any schedule of them to a run.
* **Pagination links** (`web/pages/helpers.go`, `listingURL`) with the query encoding they
  rely on written out byte by byte (section 2.1 of RFC 3986 for the escapes, its section
  2.3 for the unreserved set, `+` for a space), the parser that reads them back, and the
  page number the preview handler computes from them.
* **Tabs and slices** of the same file, and the **start-up retry loop** and **path aliases**
  of `internal/apphost/runtime.go`.

What the pool does not do is shown by runs that exist for every pool size: Shutdown can
return nil with an accepted job still queued, a Submit can be accepted after `stop` is
closed, and `done` can be closed while `stop` is open, after which an accepted job never
runs. `PoolExact` says exactly when these can still happen: from which reachable states
(`stop` open or closed) the pool drains if nobody calls Submit any more, from which a given
job can still be accepted, and from which, `stop` being open, `done` can be closed first.
`returnSubset` and `returnCount` put a return whose status mentions both a refund and
a closed request under two tabs; the tab counts add up exactly when there is no such return.

Files: `Options`, `Sums` (sums over goroutines), `PoolState`, `PoolInvariant`, `PoolSafety`,
`PoolBounds`, `PoolShutdown`, `FifoSpec`, `PoolChoices`, `PoolWitness`, `PoolExact`,
`Runner`; `FormEncoding`, `Listing`, `QueryText`; `Tabs`; `Startup`.

## Model

| member | source | states |
|---|---|---|
| PoolInvariant.StepKeepsInv | internal/worker/runner.go:44-113 | every step of every goroutine and caller keeps the whole invariant: who is in which Once body, spawn counts, WaitGroup counter, signals, queue, conservation, results |
| PoolInvariant.RunKeepsInv | internal/worker/runner.go:44-113 | so every state any run reaches satisfies it |
| PoolSafety.Conservation | internal/worker/runner.go:77-84 | each accepted job is queued, in a worker's hands, completed or discarded, counted as a multiset, and no job is accepted twice |
| PoolSafety.Backpressure | internal/worker/runner.go:36-41 | jobs in hand and discarded jobs never outnumber the workers, so accepted minus completed is at most concurrency + queue, also after cancellation |
| PoolWitness.BackpressureTight | internal/worker/runner.go:36-41 | that bound is reached by every pool size |
| PoolSafety.FirstInFirstOut | internal/worker/runner.go:65-113 | taken jobs followed by the queue are the accepted jobs in order; no job begins, completes or is discarded twice, or begins and is also discarded |
| FifoSpec.StepRefines | internal/worker/runner.go:65-113 | each step is one event of a simple first-in first-out pool, allowed there, or leaves that pool as it was |
| FifoSpec.PoolRefinesFifo | internal/worker/runner.go:65-113 | each run, event for event, is a run of the simple pool ending in the matching state |
| FifoSpec.TakenInOrder | internal/worker/runner.go:100-106 | in every run the jobs taken from the queue are a prefix of the jobs accepted |
| PoolSafety.CloseOnce | internal/worker/runner.go:51-60 | with the watcher and any number of Shutdowns racing, each signal channel is closed at most once, exactly once if closed, and nothing panics |
| PoolSafety.DoneNeedsSignal | internal/worker/runner.go:51-61 | `done` closed implies `stop` closed or the start context cancelled |
| PoolExact.DoneBeforeStopExactly | internal/worker/runner.go:51-61 | from any reachable state with `stop` open, `done` can be closed first, no further context being cancelled, if and only if the start context is cancelled (or Start is still to come and some context is) |
| PoolWitness.DoneWithStopOpen | internal/worker/runner.go:51-57 | for every pool size `done` can be closed with `stop` open, and a job accepted then is never begun by any continuation |
| PoolSafety.WaitGroup | internal/worker/runner.go:47-61 | from `wg.Add` on the counter is the number of workers not exited, so the closer sees zero only when all workers were spawned and have exited |
| PoolSafety.Quiescence | internal/worker/runner.go:58-61 | once `done` is closed no continuation, with any new calls, contains a worker step; all workers stay exited |
| PoolSafety.ShutdownNil | internal/worker/runner.go:87-97 | when Shutdown returns nil every begun job has completed and none begins afterwards |
| PoolSafety.SingleStart | internal/worker/runner.go:44-63 | however many Starts race, one body runs; at most (once a Start has returned, exactly) `concurrency` workers, one watcher and one closer are spawned |
| PoolSafety.SubmitOutcome | internal/worker/runner.go:65-85 | Submit returns nil exactly when its job was accepted, once; each error leaves the job out, and the nil-job, ErrStopped and context errors are truthful |
| PoolSafety.NotStartedOutcome | internal/worker/runner.go:66-90 | at the end of any run a Submit or Shutdown has returned ErrNotStarted if and only if it had before or it loaded the flag during the run while that was unset |
| PoolSafety.BeforeStart | internal/worker/runner.go:65-68 | until the flag is set nothing is queued, logged, spawned or closed |
| PoolSafety.ShutdownBeforeStart | internal/worker/runner.go:87-91 | a Shutdown before Start returns ErrNotStarted and changes nothing else |
| PoolSafety.ShutdownOutcome | internal/worker/runner.go:91-97 | a Shutdown at its select finds `stop` closed; nil means `done`, the error a cancelled context |
| PoolBounds.LateAcceptance | internal/worker/runner.go:72-84 | after `stop` is closed only Submits already past the first check can be accepted, so a Submit called later never is |
| PoolExact.AcceptanceExactly | internal/worker/runner.go:65-84 | in any reachable state some continuation accepts a given job not yet accepted if and only if its Submit may still send (or is still to be called, `stop` being open) and the queue has a slot or some worker, spawned or to come, may yet take a job |
| PoolExact.LateAcceptanceExactly | internal/worker/runner.go:72-84 | after `stop` is closed that is: its Submit is past the first check, and there is or can be such a slot |
| PoolBounds.LateBegins | internal/worker/runner.go:103-110 | after `stop` is closed at most as many jobs begin as were queued, in hand unbegun, or past that check |
| PoolWitness.AcceptedAfterStop | internal/worker/runner.go:77-84 | for every pool size a job can be accepted and begun after `stop` is closed |
| PoolBounds.BeginsAfterCancel | internal/worker/runner.go:106-110 | after cancellation a worker begins a job only if that worker was already past the ctx.Err() check, and then one |
| PoolBounds.AllBeginsAfterCancel | internal/worker/runner.go:106-110 | so in all no more jobs begin than workers were past it |
| PoolBounds.TakesAfterCancel | internal/worker/runner.go:102-109 | after cancellation each worker takes at most one more job |
| PoolBounds.Discards | internal/worker/runner.go:107-109 | jobs are discarded only after cancellation, at most one for each worker |
| PoolBounds.SequentialOrder | internal/worker/runner.go:100-113 | with one worker the begun jobs are a prefix of the accepted ones |
| PoolShutdown.BoundedAfterStop | internal/worker/runner.go:44-113 | after `stop` is closed the pool takes at most a stated number of steps, however many calls still arrive |
| PoolShutdown.CallsAreFinite | internal/worker/runner.go:44-98 | in any run a Submit takes at most 3 steps, a Shutdown 5 and a Start concurrency + 6 |
| PoolShutdown.Terminates | internal/worker/runner.go:44-113 | from every reachable state every step other than a new call or a cancellation lowers a measure, and cancellations do not raise it, so runs without new calls have boundedly many such steps |
| PoolShutdown.RunsEnd | internal/worker/runner.go:44-113 | so a run without new calls and cancellations is no longer than the measure |
| PoolShutdown.RestAfterStop | internal/worker/runner.go:44-113 | after `stop` is closed nothing can move exactly when all goroutines have exited, `done` is closed and all calls have returned: no deadlock |
| PoolShutdown.RestWithStopOpen | internal/worker/runner.go:44-113 | with `stop` open nothing can move if and only if the pool was never started, is idle with an empty queue, or was abandoned after cancellation, and every call has returned but Submits on the full queue of an abandoned pool |
| PoolShutdown.IdleCompletes | internal/worker/runner.go:100-113 | an idle pool has completed every job it accepted |
| PoolExact.SettledDrainsExactly | internal/worker/runner.go:65-113 | in any reachable state: if no Submit is called from here on, every continuation that closes `done` has then completed every accepted job, if and only if no job is queued or discarded, no worker holds one unchecked, and no Submit may still send (waits at the second select, or is before it, not with a nil job, while `stop` is open) |
| PoolExact.ShutdownSettledExactly | internal/worker/runner.go:65-113 | the same said of every Shutdown that returns nil, made already or later |
| PoolExact.DrainsExactly | internal/worker/runner.go:87-113 | after `stop` is closed every continuation that closes `done`, new Submits or not, has then completed every accepted job, if and only if no job is queued or discarded, no worker holds one unchecked and no Submit is past the first check |
| PoolExact.ShutdownDrainsExactly | internal/worker/runner.go:87-113 | after `stop` is closed every Shutdown that returns nil in any continuation leaves all accepted jobs completed, under exactly the same condition |
| PoolWitness.ShutdownDoesNotDrain | internal/worker/runner.go:87-106 | for every pool size Shutdown can return nil with an accepted job left in the queue |
| PoolChoices.ShutdownChoices | internal/worker/runner.go:87-98 | in every state, exactly which results a Shutdown can get in its next step: at its select nil if and only if `done` is closed, the context error if and only if its context is cancelled, whatever else runs; it waits otherwise only for the body of stopOnce |
| PoolChoices.SubmitChoices | internal/worker/runner.go:65-85 | the same for Submit: checks in their order, and at the second select each outcome if and only if its case is ready |
| PoolChoices.StartChoices | internal/worker/runner.go:44-63 | the same for Start: the first enters the body and runs it without waiting, others wait for its end |
| PoolChoices.WorkerChoices | internal/worker/runner.go:100-113 | the same for a worker: `stop` and the oldest queued job on equal terms, one look at the context for each job |
| PoolChoices.WatcherChoices | internal/worker/runner.go:51-57 | the same for the watcher: it waits for its context or `done`, not for `stop` |
| PoolChoices.CloserChoices | internal/worker/runner.go:58-61 | the same for the closer: it waits for a zero WaitGroup only |
| PoolChoices.PromptReturn | internal/worker/runner.go:77-97 | from every state a Submit or Shutdown at its select whose context is cancelled returns the context error by one step of its own that changes nothing else |
| PoolWitness.CancelledShutdown | internal/worker/runner.go:92-97 | for every pool size Shutdown can return the context error with `done` open and a job running |
| PoolWitness.CancelledSubmit | internal/worker/runner.go:77-84 | for every pool size Submit can return the context error with both signals open and a job running |
| PoolWitness.AbandonedWithStopOpen | internal/worker/runner.go:51-57 | for every pool size the watcher can leave on `done` with its context cancelled and `stop` open, after which nothing moves |
| PoolChoices.NothingUndone | internal/worker/runner.go:44-113 | over every run flags stay set, contexts cancelled, job logs only grow, results of returned calls stay, exited workers stay away |
| PoolChoices.StartContext | internal/worker/runner.go:44-57 | in every run all workers and the watcher have the context of one Start call, which has entered |
| RunnerObject.Runner.New | internal/worker/runner.go:32-42 | refuses concurrency or queue below one; otherwise a fresh pool in the initial state, which satisfies the invariant |
| RunnerObject.Runner.Start | internal/worker/runner.go:44-63 | the in-place step of a Start call is a step of the transition system, or the call has to wait and no step is possible |
| RunnerObject.Runner.StartBody | internal/worker/runner.go:46-61 | the body of startOnce can always go on, by exactly its next step |
| RunnerObject.Runner.Submit | internal/worker/runner.go:65-85 | the same for Submit, whatever ready case the select takes |
| RunnerObject.Runner.Shutdown | internal/worker/runner.go:87-98 | the same for Shutdown |
| RunnerObject.Runner.Run | internal/worker/runner.go:100-113 | the same for a worker |
| RunnerObject.Runner.Watch | internal/worker/runner.go:51-57 | the same for the watcher goroutine |
| RunnerObject.Runner.Close | internal/worker/runner.go:58-61 | the same for the closer goroutine |
| RunnerObject.Runner.Schedule | internal/worker/runner.go:44-113 | every schedule of these methods takes the object through a legal run made of exactly the turns' steps: a turn is passed over only if no step of its goroutine is possible, any other contributes the next step; the invariant is kept |
| FormEncoding.UnescapeEscape | web/pages/helpers.go:492 | unescaping an escaped byte string gives it back |
| FormEncoding.ParseEncode | web/pages/helpers.go:492 | parsing an encoded set of values gives it back, except keys without values |
| FormEncoding.SortedIsCanonical | web/pages/helpers.go:492 | the encoder's key order is the only increasing listing of the keys |
| FormEncoding.EncodeIsCanonical | web/pages/helpers.go:492 | two sets of values have the same text exactly when they agree apart from keys without values |
| Listing.ListingURL | web/pages/helpers.go:479-497 | whatever order the map is visited in, the link is `/products`, then `?` and the encoded filters other than `page` with the page above one, if there are any |
| QueryText.EscapeConcat | web/pages/helpers.go:492 | text is escaped byte by byte |
| QueryText.EscapeOne | web/pages/helpers.go:492 | a space becomes `+`, unreserved characters stay, any other byte becomes `%` and two capital hexadecimal digits |
| QueryText.PlusIsSpace | web/pages/helpers.go:492 | escaped text has as many `+` as the text has spaces |
| QueryText.PercentIsFollowed | web/pages/helpers.go:492 | each `%` in escaped text is followed by two hexadecimal digits |
| QueryText.SafeIsKept | web/pages/helpers.go:492 | text of unreserved characters is not changed |
| QueryText.EscapeIsShortest | web/pages/helpers.go:492 | no text of the query alphabet that unescapes to the same is shorter |
| QueryText.EncodeFirst | web/pages/helpers.go:492 | an encoded query is the first value of the first key with one, `key=value`, then `&` and the rest encoded |
| QueryText.EncodeNothing | web/pages/helpers.go:492 | the text is empty if and only if no key has a value |
| QueryText.LessExactly | web/pages/helpers.go:492 | keys are ordered by their first difference, a prefix before its extensions |
| QueryText.ItoaIsDecimal | web/pages/helpers.go:490 | page numbers are in base 10 |
| Listing.LinkRoundTrip | web/pages/helpers.go:479-497 | parsing a link gives each non-empty filter other than `page` with its values in order, and `page` exactly when page > 1 |
| Listing.NavigationIndependent | web/pages/helpers.go:480-496 | following a link and linking from there to page j gives the same link as from the original filters |
| Listing.LinksAreCanonical | web/pages/helpers.go:480-496 | two links are equal exactly when filters and effective pages agree, so distinct pages from 1 on have distinct links |
| Listing.LinkLands | internal/web/handlers/mock_handler.go:491-497 | from a link the handler computes the page the link was made for, or the nearest existing page |
| Listing.AnyPageLands | internal/web/handlers/mock_handler.go:491-497 | whatever the query says the handler computes a page that exists, the first one if none is given or it is not a number |
| Tabs.OrderSubset | web/pages/helpers.go:113-129 | under "delivered" and "cancelled" exactly the orders with that status, under "active" exactly those with neither, in the order of the list; an empty tab name gives the list itself |
| Tabs.OrderTabsCover | web/pages/helpers.go:113-133 | the three tabs hold every order as often as the list, are pairwise disjoint, and their counts add up |
| Tabs.AsciiNormIsNormal | web/pages/helpers.go:114-120 | trimming and lower-casing ASCII text gives normal text and leaves exactly normal text alone |
| Tabs.AsciiNormKeeps | web/pages/helpers.go:114-120 | only space around the text is dropped and only capitals are changed, to their small letters |
| Tabs.AsciiKeepsTabs | web/pages/helpers.go:114-123 | it leaves the tab names alone, which is what the other lemmas ask of a normalisation |
| Tabs.UnknownTabIsEmpty | web/pages/helpers.go:121-123 | a status that names no tab selects nothing |
| Tabs.OrderSlice | web/pages/helpers.go:203-211 | the slice is a suffix of the list of the clamped length |
| Tabs.FirstAndRest | web/pages/pages.templ:596-598 | the first order followed by the slice from one is the whole subset |
| Tabs.ProductSlice | web/pages/helpers.go:175-189 | exactly the elements at the positions from start to before end that exist, in order, for every pair of bounds |
| Tabs.SlicesJoin | web/pages/helpers.go:175-189 | slices that meet join up, whatever the bounds; bounds beyond the list give all of it |
| Tabs.ReturnCount | web/pages/helpers.go:256-276 | the count is the number of returns under the tab named as given |
| Tabs.ReturnSubset | web/pages/helpers.go:278-297 | under "refunds" and "closed" exactly the returns whose status contains "refund" or "closed", under any other name exactly those with neither, in order |
| Tabs.ContainsExactly | web/pages/helpers.go:262-291 | a text contains a part if and only if it is something, then the part, then something |
| Tabs.CountAgrees | web/pages/helpers.go:256-297 | count and subset agree when the count is asked with the normalised name |
| Tabs.ReturnTabsOverlap | web/pages/helpers.go:256-297 | with any other name for the third tab, the three counts are the length of the list plus the returns mentioning both a refund and a closed request |
| Tabs.ReturnCountsAddUp | web/pages/helpers.go:256-297 | the counts add up to the length exactly when no return mentions both |
| Tabs.UnderTwoTabs | web/pages/helpers.go:284-291 | a return with status "refund closed" is under two tabs |
| Startup.EnsureBucket | internal/apphost/runtime.go:256-274 | the loop makes a run of the loop relation (each retry after a failed attempt, every select waking when its first case is ready and taking a ready case), and is bounded as LoopIsBounded says |
| Startup.LoopIsBounded | internal/apphost/runtime.go:256-274 | every such run has at most 33 attempts, each 250 ms after the last has ended, none after 8 s or after the cancellation; nil exactly when the last attempt succeeded, all others failed; an error as soon as the last attempt is over and the context cancelled or 8 s past, whichever it says |
| Startup.BoundedIsLoop | internal/apphost/runtime.go:256-274 | and everything bounded like that is such a run |
| Startup.MostAttemptsReached | internal/apphost/runtime.go:256-274 | for failing attempts of any one duration a run of the loop makes as many as fit before the deadline (33 if they fail at once), then gives up at the deadline or when the last attempt ends |
| Startup.NeverMoreAttempts | internal/apphost/runtime.go:256-274 | whatever the attempts and the cancellation, no run of the loop whose non-last attempts take at least some duration makes more than fit; an uncancelled one that fails ends at the deadline |
| Startup.RouteAliases | internal/apphost/runtime.go:346-361 | `/seller-admin` and `/support-portal`, alone or before a slash, become `/seller` and `/support` with the rest kept, `/admin` and `/account` become their literal pages, every other path stays; the new path is its own alias and is rate limited exactly when the old path was |
| Startup.AliasExactly | internal/apphost/runtime.go:346-361 | the same of the aliasing function |
| Startup.AliasShape | internal/apphost/runtime.go:349-358 | what follows the aliased first segment is kept; only `/admin` and `/account` lead to the two literal pages |
| Startup.AliasIdempotent | internal/apphost/runtime.go:346-361 | aliasing twice is aliasing once, for all paths |
| Startup.LimitIgnoresAliases | internal/apphost/runtime.go:346-365 | the rate limiter's path test gives the same answer before and after aliasing |
| Startup.LimitedPaths | internal/apphost/runtime.go:365 | the limited paths are the five forms and everything under `/api/v1/auth/` |

## Left out

- Job bodies: a job is its Submit's ticket; running it is one step that ends when it returns. Panics inside jobs and jobs that never return are not modelled.
- Scheduling: progress is the existence of an enabled step and a bound on the steps; fairness of the Go scheduler and the order in which blocked senders are served are not modelled (any blocked sender may go next).
- Direct hand-off of a value from a sender to a waiting receiver is the two steps of queueing and taking it.
- The Go memory model below the operations named above, and wall-clock time in the pool.
- Unicode: lower-casing and trimming of statuses is a function parameter of the tab members; the lemmas ask of it only that it leaves the tab names alone, and this is proved of the function on ASCII text only.
- Startup.EnsureBucket: timers fire exactly on time, and the durations and results of the attempts are parameters.
- The cap newer Go releases put on the number of query parameters, and the error url.ParseQuery returns beside the values (URL.Query drops it).
- HTML escaping of links by templ, and the parts of a URL other than path and query.
- Product, cart and category helpers of helpers.go, and the label and class switches: text without a deeper property.
- internal/worker/periodic.go: one loop over a ticker.
- The rest of the application: handlers, storage, configuration, migrations, mail.
