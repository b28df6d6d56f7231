/** The start-up retry loop and the path middleware of internal/apphost/runtime.go. */
module Startup {
  import opened Options

  // ----- ensureBucket -----

  /** Times are in nanoseconds since the deadline timer was created. */
  const DEADLINE: nat := 8_000_000_000
  const WAIT: nat := 250_000_000
  const MOST_ATTEMPTS: nat := 33

  datatype Attempt = Attempt(duration: nat, ok: bool)

  datatype Outcome = BucketReady | ContextDone | DeadlinePassed

  /** When the select of line 264 wakes up, if it starts waiting at `now`: as soon as one of
      its cases is ready. */
  function Wake(now: nat, waitOver: nat, cancelAt: Option<nat>): (r: nat)
    requires now <= waitOver
    ensures now <= r <= waitOver
    ensures r == waitOver || r == now || r == DEADLINE || cancelAt == Some(r)
    ensures waitOver <= r || DEADLINE <= r || (cancelAt.Some? && cancelAt.value <= r)
    ensures r > now ==> r <= DEADLINE && (cancelAt.Some? ==> r <= cancelAt.value)
  {
    var first := if DEADLINE < waitOver then DEADLINE else waitOver;
    var earliest := if cancelAt.Some? && cancelAt.value < first then cancelAt.value else first;
    if earliest < now then now else earliest
  }

  /** An attempt made at `start` fails, and the wait case of the select after it is ready
      when the select wakes up, at `next`. */
  predicate Retries(attempt: Attempt, cancelAt: Option<nat>, start: nat, next: nat) {
    var finished := start + attempt.duration;
    !attempt.ok && next == Wake(finished, finished + WAIT, cancelAt) == finished + WAIT
  }

  /** An attempt made at `start` is the last: it succeeds, or it fails and the case that
      gives the outcome is ready when the select wakes up. */
  predicate Ends(attempt: Attempt, cancelAt: Option<nat>, start: nat, outcome: Outcome, end: nat) {
    var finished := start + attempt.duration;
    match outcome
    case BucketReady => attempt.ok && end == finished
    case ContextDone =>
      !attempt.ok && end == Wake(finished, finished + WAIT, cancelAt) && cancelAt.Some? && cancelAt.value <= end
    case DeadlinePassed =>
      !attempt.ok && end == Wake(finished, finished + WAIT, cancelAt) && DEADLINE <= end
  }

  /** Attempt `i` leads to the next one. */
  predicate Again(attempts: nat -> Attempt, cancelAt: Option<nat>, starts: seq<nat>, i: nat)
    requires i + 1 < |starts|
  {
    Retries(attempts(i), cancelAt, starts[i], starts[i + 1])
  }

  /** Attempts started at these times, each leading to the next. */
  ghost predicate Tries(attempts: nat -> Attempt, cancelAt: Option<nat>, starts: seq<nat>) {
    && starts != [] && starts[0] == 0
    && (forall i: nat :: i + 1 < |starts| ==> Again(attempts, cancelAt, starts, i))
  }

  lemma OneMoreTry(attempts: nat -> Attempt, cancelAt: Option<nat>, starts: seq<nat>, next: nat)
    requires Tries(attempts, cancelAt, starts)
    requires Retries(attempts(|starts| - 1), cancelAt, starts[|starts| - 1], next)
    ensures Tries(attempts, cancelAt, starts + [next])
  {
    forall i: nat | i + 1 < |starts + [next]| ensures Again(attempts, cancelAt, starts + [next], i) {
      if i + 1 < |starts| {
        assert Again(attempts, cancelAt, starts, i);
      }
    }
  }

  /** Something the loop can do. */
  ghost predicate LoopRun(attempts: nat -> Attempt, cancelAt: Option<nat>, starts: seq<nat>, outcome: Outcome, end: nat) {
    Tries(attempts, cancelAt, starts)
    && Ends(attempts(|starts| - 1), cancelAt, starts[|starts| - 1], outcome, end)
  }

  /** At most 33 attempts, all but the last failed, each started 250 ms after the one before
      had finished, none later than 8 s or than the cancellation.  Success is reported
      exactly when the last attempt succeeded; otherwise the loop ends as soon as the last
      attempt is over and either the context is cancelled or 8 s have passed, and says
      which. */
  ghost predicate Bounded(attempts: nat -> Attempt, cancelAt: Option<nat>, starts: seq<nat>, outcome: Outcome, end: nat) {
    && 1 <= |starts| <= 33 && starts[0] == 0
    && (forall i :: 0 <= i < |starts| ==> starts[i] <= 8_000_000_000)
    && (forall i :: 0 <= i < |starts| - 1 ==>
          !attempts(i).ok && starts[i + 1] == starts[i] + attempts(i).duration + 250_000_000)
    && (cancelAt.Some? ==> forall i :: 1 <= i < |starts| ==> starts[i] <= cancelAt.value)
    && (outcome == BucketReady <==> attempts(|starts| - 1).ok)
    && var finished := starts[|starts| - 1] + attempts(|starts| - 1).duration;
       && finished <= end
       && (outcome == BucketReady ==> end == finished)
       && (outcome != BucketReady ==>
             && end <= finished + 250_000_000
             && (end == finished || end <= 8_000_000_000)
             && (cancelAt.Some? ==> end == finished || end <= cancelAt.value))
       && (outcome == ContextDone ==> cancelAt.Some? && cancelAt.value <= end)
       && (outcome == DeadlinePassed ==> 8_000_000_000 <= end)
  }

  /** What holds of each attempt that leads to another. */
  lemma {:induction false} TriesInTime(attempts: nat -> Attempt, cancelAt: Option<nat>, starts: seq<nat>, i: nat)
    requires Tries(attempts, cancelAt, starts) && i < |starts|
    ensures i * WAIT <= starts[i] <= DEADLINE
    ensures i > 0 && cancelAt.Some? ==> starts[i] <= cancelAt.value
    ensures i + 1 < |starts| ==> !attempts(i).ok && starts[i + 1] == starts[i] + attempts(i).duration + WAIT
  {
    if i + 1 < |starts| {
      assert Again(attempts, cancelAt, starts, i);
    }
    if i == 0 {
    } else {
      TriesInTime(attempts, cancelAt, starts, i - 1);
      assert Again(attempts, cancelAt, starts, i - 1);
    }
  }

  /** Whatever the loop does is bounded like this. */
  lemma LoopIsBounded(attempts: nat -> Attempt, cancelAt: Option<nat>, starts: seq<nat>, outcome: Outcome, end: nat)
    requires LoopRun(attempts, cancelAt, starts, outcome, end)
    ensures Bounded(attempts, cancelAt, starts, outcome, end)
  {
    forall i | 0 <= i < |starts|
      ensures starts[i] <= DEADLINE && (i >= 1 && cancelAt.Some? ==> starts[i] <= cancelAt.value)
    {
      TriesInTime(attempts, cancelAt, starts, i);
    }
    forall i | 0 <= i < |starts| - 1
      ensures !attempts(i).ok && starts[i + 1] == starts[i] + attempts(i).duration + WAIT
    {
      TriesInTime(attempts, cancelAt, starts, i);
    }
    TriesInTime(attempts, cancelAt, starts, |starts| - 1);
  }

  /** And whatever is bounded like this the loop can do. */
  lemma BoundedIsLoop(attempts: nat -> Attempt, cancelAt: Option<nat>, starts: seq<nat>, outcome: Outcome, end: nat)
    requires Bounded(attempts, cancelAt, starts, outcome, end)
    ensures LoopRun(attempts, cancelAt, starts, outcome, end)
  {
    forall i: nat | i + 1 < |starts| ensures Again(attempts, cancelAt, starts, i) {
      assert !attempts(i).ok && starts[i + 1] == starts[i] + attempts(i).duration + WAIT;
      assert starts[i + 1] <= DEADLINE && (cancelAt.Some? ==> starts[i + 1] <= cancelAt.value);
    }
  }

  /** ensureBucket, lines 256-274, with timers that fire on time: `attempts` says how long
      each call of EnsureBucket takes and whether it succeeds, `cancelAt` when the context
      is cancelled.  The select takes any case that is ready when the first one is. */
  method EnsureBucket(attempts: nat -> Attempt, cancelAt: Option<nat>)
    returns (outcome: Outcome, starts: seq<nat>, end: nat)
    ensures LoopRun(attempts, cancelAt, starts, outcome, end)
    ensures Bounded(attempts, cancelAt, starts, outcome, end)
  {
    var now := 0;
    starts := [];
    while true
      invariant Tries(attempts, cancelAt, starts + [now]) && now <= DEADLINE
      decreases DEADLINE - now
    {
      var attempt := attempts(|starts|);
      starts := starts + [now];
      var finished := now + attempt.duration;
      if attempt.ok {
        LoopIsBounded(attempts, cancelAt, starts, BucketReady, finished);
        return BucketReady, starts, finished;
      }
      var waitOver := finished + WAIT;
      now := Wake(finished, waitOver, cancelAt);
      if {
        case cancelAt.Some? && cancelAt.value <= now =>
          LoopIsBounded(attempts, cancelAt, starts, ContextDone, now);
          return ContextDone, starts, now;
        case DEADLINE <= now =>
          LoopIsBounded(attempts, cancelAt, starts, DeadlinePassed, now);
          return DeadlinePassed, starts, now;
        case waitOver <= now =>
          OneMoreTry(attempts, cancelAt, starts, now);
      }
    }
  }

  /** Attempts that all fail and all take as long. */
  function Steady(duration: nat): nat -> Attempt { _ => Attempt(duration, false) }

  /** When attempt number `i` of these starts. */
  function SteadyStart(duration: nat, i: nat): nat { i * (duration + WAIT) }

  /** How many attempts of that duration fit: 33 if they fail at once. */
  function SteadyAttempts(duration: nat): nat { DEADLINE / (duration + WAIT) + 1 }

  lemma SteadyFits(duration: nat)
    ensures SteadyStart(duration, SteadyAttempts(duration) - 1) <= DEADLINE < SteadyStart(duration, SteadyAttempts(duration))
    ensures SteadyAttempts(0) == MOST_ATTEMPTS
  {
    var fits := DEADLINE / (duration + WAIT);
    assert DEADLINE == fits * (duration + WAIT) + DEADLINE % (duration + WAIT);
    assert SteadyStart(duration, fits + 1) == fits * (duration + WAIT) + (duration + WAIT);
  }

  lemma SteadyOrder(duration: nat, i: nat, j: nat)
    requires i <= j
    ensures SteadyStart(duration, i) <= SteadyStart(duration, j)
    ensures SteadyStart(duration, i + 1) == SteadyStart(duration, i) + duration + WAIT
  {
  }

  /** A failing attempt that leaves time for another leads to it. */
  lemma SteadyRetries(duration: nat, i: nat)
    requires SteadyStart(duration, i + 1) <= DEADLINE
    ensures Retries(Attempt(duration, false), None, SteadyStart(duration, i), SteadyStart(duration, i + 1))
  {
    SteadyOrder(duration, i, i);
  }

  lemma SteadyEnds(duration: nat, i: nat) returns (end: nat)
    requires SteadyStart(duration, i) <= DEADLINE < SteadyStart(duration, i + 1)
    ensures Ends(Attempt(duration, false), None, SteadyStart(duration, i), DeadlinePassed, end)
    ensures var finished := SteadyStart(duration, i) + duration; end == if DEADLINE < finished then finished else DEADLINE
  {
    SteadyOrder(duration, i, i);
    var finished := SteadyStart(duration, i) + duration;
    end := Wake(finished, finished + WAIT, None);
  }

  /** The bound is reached, with the wait winning the tie with the deadline: failing
      attempts that all take `duration` can be made as often as they fit (and no more
      often, see NeverMoreAttempts), and the loop gives up at the deadline or when the
      attempt then under way is over. */
  lemma MostAttemptsReached(duration: nat) returns (starts: seq<nat>, end: nat)
    ensures LoopRun(Steady(duration), None, starts, DeadlinePassed, end)
    ensures |starts| == SteadyAttempts(duration)
    ensures end == if DEADLINE < starts[|starts| - 1] + duration then starts[|starts| - 1] + duration else DEADLINE
  {
    var n := SteadyAttempts(duration);
    SteadyFits(duration);
    starts := seq(n, i requires 0 <= i => SteadyStart(duration, i));
    forall i: nat | i + 1 < n ensures Again(Steady(duration), None, starts, i) {
      SteadyOrder(duration, i + 1, n - 1);
      SteadyRetries(duration, i);
    }
    end := SteadyEnds(duration, n - 1);
  }

  lemma {:induction false} LongTries(
    least: nat, attempts: nat -> Attempt, cancelAt: Option<nat>, starts: seq<nat>, i: nat)
    requires Tries(attempts, cancelAt, starts) && i < |starts|
    requires forall j :: 0 <= j < |starts| - 1 ==> least <= attempts(j).duration
    ensures SteadyStart(least, i) <= starts[i] <= DEADLINE
  {
    TriesInTime(attempts, cancelAt, starts, i);
    if i == 0 {
    } else {
      LongTries(least, attempts, cancelAt, starts, i - 1);
      TriesInTime(attempts, cancelAt, starts, i - 1);
      SteadyOrder(least, i - 1, i);
    }
  }

  /** Whenever the context is cancelled and whatever comes of the attempts: if all but the
      last take at least `least`, there are at most as many as fit.  A loop that ends with
      a failed attempt and was not cancelled has given up at the deadline. */
  lemma NeverMoreAttempts(
    least: nat, attempts: nat -> Attempt, cancelAt: Option<nat>, starts: seq<nat>, outcome: Outcome, end: nat)
    requires LoopRun(attempts, cancelAt, starts, outcome, end)
    requires forall i :: 0 <= i < |starts| - 1 ==> least <= attempts(i).duration
    ensures |starts| <= SteadyAttempts(least) <= MOST_ATTEMPTS
    ensures !attempts(|starts| - 1).ok && cancelAt.None? ==> outcome == DeadlinePassed
  {
    var last := |starts| - 1;
    LongTries(least, attempts, cancelAt, starts, last);
    SteadyFits(least);
    if last >= SteadyAttempts(least) {
      SteadyOrder(least, SteadyAttempts(least), last);
    }
    MostAtOnce(least);
  }

  lemma MostAtOnce(duration: nat)
    ensures SteadyAttempts(duration) <= MOST_ATTEMPTS
  {
    var fits := DEADLINE / (duration + WAIT);
    SteadyFits(duration);
    SteadyOrder(duration, fits, fits);
    assert fits * WAIT <= fits * (duration + WAIT);
  }

  // ----- routeAliases and the path test of authRateLimit -----

  predicate HasPrefix(s: string, prefix: string) { prefix <= s }

  function TrimPrefix(s: string, prefix: string): string {
    if prefix <= s then s[|prefix|..] else s
  }

  function Alias(path: string): string {
    if path == "/seller-admin" || HasPrefix(path, "/seller-admin/") then "/seller" + TrimPrefix(path, "/seller-admin")
    else if path == "/support-portal" || HasPrefix(path, "/support-portal/") then "/support" + TrimPrefix(path, "/support-portal")
    else if path == "/admin" then "/admin/sellers"
    else if path == "/account" then "/account/sessions"
    else path
  }

  /** The paths whose POST requests are rate limited, line 365. */
  predicate Limited(path: string) {
    path == "/login" || path == "/register" || path == "/forgot-password" || path == "/reset-password"
    || path == "/verify-email" || HasPrefix(path, "/api/v1/auth/")
  }

  /** The path after "/seller" or "/support" is empty or starts with a slash. */
  lemma AliasShape(path: string)
    ensures Alias(path) != path ==>
              || (exists rest :: Alias(path) == "/seller" + rest && path == "/seller-admin" + rest && (rest == "" || rest[0] == '/'))
              || (exists rest :: Alias(path) == "/support" + rest && path == "/support-portal" + rest && (rest == "" || rest[0] == '/'))
              || (path == "/admin" && Alias(path) == "/admin/sellers")
              || (path == "/account" && Alias(path) == "/account/sessions")
  {
  }

  /** Which paths are aliased, and to what. */
  lemma AliasExactly(path: string)
    ensures forall rest: string :: (rest == "" || rest[0] == '/') ==>
              && (path == "/seller-admin" + rest ==> Alias(path) == "/seller" + rest)
              && (path == "/support-portal" + rest ==> Alias(path) == "/support" + rest)
    ensures path == "/admin" ==> Alias(path) == "/admin/sellers"
    ensures path == "/account" ==> Alias(path) == "/account/sessions"
    ensures path != "/admin" && path != "/account"
            && (forall rest: string :: (rest == "" || rest[0] == '/') ==>
                  path != "/seller-admin" + rest && path != "/support-portal" + rest)
            ==> Alias(path) == path
  {
    forall rest: string | rest == "" || rest[0] == '/'
      ensures path == "/seller-admin" + rest ==> Alias(path) == "/seller" + rest
      ensures path == "/support-portal" + rest ==> Alias(path) == "/support" + rest
    {
      SellerAliased(rest);
      SupportAliased(rest);
    }
    if path == "/seller-admin" || HasPrefix(path, "/seller-admin/") {
      WithRest(path, "/seller-admin");
    } else if path == "/support-portal" || HasPrefix(path, "/support-portal/") {
      WithRest(path, "/support-portal");
    }
    if path == "/admin" || path == "/account" {
      assert path[1] == 'a' && "/seller-admin"[1] == 's' && "/support-portal"[1] == 's';
      assert "/seller-admin/"[1] == 's' && "/support-portal/"[1] == 's';
    }
  }

  lemma WithRest(path: string, prefix: string)
    requires path == prefix || prefix + "/" <= path
    ensures var rest := path[|prefix|..]; path == prefix + rest && (rest == "" || rest[0] == '/')
  {
    if prefix + "/" <= path {
      assert path[|prefix|] == (prefix + "/")[|prefix|];
    }
  }

  lemma SellerAliased(rest: string)
    requires rest == "" || rest[0] == '/'
    ensures Alias("/seller-admin" + rest) == "/seller" + rest
  {
    var path := "/seller-admin" + rest;
    assert TrimPrefix(path, "/seller-admin") == rest;
    if rest != "" {
      assert path[..14] == "/seller-admin/";
    } else {
      assert path == "/seller-admin";
    }
  }

  lemma SupportAliased(rest: string)
    requires rest == "" || rest[0] == '/'
    ensures Alias("/support-portal" + rest) == "/support" + rest
  {
    var path := "/support-portal" + rest;
    assert TrimPrefix(path, "/support-portal") == rest;
    assert path[2] == 'u' && "/seller-admin"[2] == 'e' && "/seller-admin/"[2] == 'e';
    if rest != "" {
      assert path[..16] == "/support-portal/";
    } else {
      assert path == "/support-portal";
    }
  }

  lemma SellerIsFixed(rest: string)
    requires rest == "" || rest[0] == '/'
    ensures Alias("/seller" + rest) == "/seller" + rest
  {
    var a := "/seller" + rest;
    assert a[1] == 's' && a[2] == 'e' && (|a| > 7 ==> a[7] == '/');
    assert "/seller-admin"[7] == '-' && "/seller-admin/"[7] == '-' && "/support-portal"[2] == 'u' && "/support-portal/"[2] == 'u';
  }

  lemma SupportIsFixed(rest: string)
    requires rest == "" || rest[0] == '/'
    ensures Alias("/support" + rest) == "/support" + rest
  {
    var a := "/support" + rest;
    assert a[1] == 's' && a[2] == 'u' && (|a| > 8 ==> a[8] == '/');
    assert "/support-portal"[8] == '-' && "/support-portal/"[8] == '-' && "/seller-admin"[2] == 'e' && "/seller-admin/"[2] == 'e';
  }

  /** Aliasing a path twice is aliasing it once. */
  lemma AliasIdempotent(path: string)
    ensures Alias(Alias(path)) == Alias(path)
  {
    if path == "/seller-admin" || HasPrefix(path, "/seller-admin/") {
      var rest := TrimPrefix(path, "/seller-admin");
      assert rest == "" || rest[0] == path[13];
      SellerIsFixed(rest);
    } else if path == "/support-portal" || HasPrefix(path, "/support-portal/") {
      var rest := TrimPrefix(path, "/support-portal");
      assert rest == "" || rest[0] == path[15];
      SupportIsFixed(rest);
    } else if path == "/admin" {
      FixedLiterals();
    } else if path == "/account" {
      FixedLiterals();
    }
  }

  lemma FixedLiterals()
    ensures Alias("/admin/sellers") == "/admin/sellers" && Alias("/account/sessions") == "/account/sessions"
  {
    assert "/admin/sellers"[1] == 'a' && "/account/sessions"[1] == 'a';
    assert "/seller-admin"[1] == 's' && "/support-portal"[1] == 's';
    assert "/seller-admin/"[1] == 's' && "/support-portal/"[1] == 's';
    assert |"/admin"| != |"/admin/sellers"| && |"/account"| != |"/account/sessions"|;
    assert "/account"[2] == 'c' && "/admin/sellers"[2] == 'd' && "/admin"[2] == 'd' && "/account/sessions"[2] == 'c';
  }

  lemma LimitedPaths(path: string)
    ensures Limited(path)
       <==> path in {"/login", "/register", "/forgot-password", "/reset-password", "/verify-email"}
            || exists rest :: path == "/api/v1/auth/" + rest
  {
    if HasPrefix(path, "/api/v1/auth/") {
      assert path == "/api/v1/auth/" + path[|"/api/v1/auth/"|..];
    }
  }

  /** A rate limited path does not start like any path the aliases touch or produce. */
  lemma LimitedStart(path: string)
    requires Limited(path)
    ensures |path| > 2 && path[1] != 's' && (path[1] == 'a' ==> path[2] == 'p')
  {
  }

  /** The rate limiter sees the path before the aliases do, and would decide the same after. */
  lemma LimitIgnoresAliases(path: string)
    ensures Limited(Alias(path)) == Limited(path)
  {
    if Alias(path) != path {
      AliasStart(path);
      if Limited(path) {
        LimitedStart(path);
      }
      if Limited(Alias(path)) {
        LimitedStart(Alias(path));
      }
    }
  }

  lemma AliasStart(path: string)
    requires Alias(path) != path
    ensures forall p :: p in {path, Alias(path)} ==> |p| > 2 && (p[1] == 's' || (p[1] == 'a' && p[2] != 'p'))
  {
  }

  class Request {
    var path: string
    constructor (path: string)
      ensures this.path == path
    {
      this.path := path;
    }
  }

  /** routeAliases, lines 346-361: the path is overwritten in the request. */
  method RouteAliases(r: Request)
    modifies r
    ensures forall rest: string :: (rest == "" || rest[0] == '/') ==>
              && (old(r.path) == "/seller-admin" + rest ==> r.path == "/seller" + rest)
              && (old(r.path) == "/support-portal" + rest ==> r.path == "/support" + rest)
    ensures old(r.path) == "/admin" ==> r.path == "/admin/sellers"
    ensures old(r.path) == "/account" ==> r.path == "/account/sessions"
    ensures old(r.path) != "/admin" && old(r.path) != "/account"
            && (forall rest: string :: (rest == "" || rest[0] == '/') ==>
                  old(r.path) != "/seller-admin" + rest && old(r.path) != "/support-portal" + rest)
            ==> r.path == old(r.path)
    ensures r.path == Alias(old(r.path)) == Alias(r.path)
    ensures Limited(r.path) == Limited(old(r.path))
  {
    var path := r.path;
    AliasExactly(path);
    AliasIdempotent(path);
    LimitIgnoresAliases(path);
    if path == "/seller-admin" || HasPrefix(path, "/seller-admin/") {
      r.path := "/seller" + TrimPrefix(path, "/seller-admin");
    } else if path == "/support-portal" || HasPrefix(path, "/support-portal/") {
      r.path := "/support" + TrimPrefix(path, "/support-portal");
    } else if path == "/admin" {
      r.path := "/admin/sellers";
    } else if path == "/account" {
      r.path := "/account/sessions";
    }
  }
}
