/** The circuit breaker shared by all replicas through Redis (src/delivery/circuit-breaker). */
module CircuitBreaker {
  import opened Redis
  import opened Sets

  datatype Circuit = Closed | Open | HalfOpen

  const FAILURE_THRESHOLD := 5
  const SUCCESS_THRESHOLD := 2
  const OPEN_DURATION := 60_000
  const FAILURE_WINDOW := 60_000
  const SUCCESS_TTL := 30_000

  /** The four Redis keys of one provider. */
  datatype Breaker = Breaker(
    stored: Option<Circuit>, lastAttempt: Option<int>, failures: Cell<int>, successes: Cell<int>)
  {
    function State(): Circuit {
      if stored.Some? then stored.value else Closed
    }
  }

  const INITIAL := Breaker(None, None, Absent, Absent)

  function MoveTo(b: Breaker, state: Circuit, now: int): Breaker {
    if b.State() == state then b else b.(stored := Some(state), lastAttempt := Some(now))
  }

  /** Is a request refused? Only while OPEN, and only until the open time is over. */
  predicate Refuses(b: Breaker, now: int) {
    b.State() == Open && b.lastAttempt.Some? && now - b.lastAttempt.value < OPEN_DURATION
  }

  function Allowed(b: Breaker, now: int): Breaker {
    if b.State() == Open && !Refuses(b, now) then MoveTo(b, HalfOpen, now) else b
  }

  function Succeeded(b: Breaker, now: int): Breaker {
    var counted :=
      if b.State() == HalfOpen then
        var successes := Incr(b.successes, now, SUCCESS_TTL);
        if successes.value >= SUCCESS_THRESHOLD then MoveTo(b, Closed, now).(successes := Absent)
        else b.(successes := successes)
      else b;
    counted.(failures := Absent)
  }

  function Failed(b: Breaker, now: int): Breaker {
    match b.State()
    case HalfOpen => MoveTo(b, Open, now)
    case Open => b
    case Closed =>
      var counted := b.(failures := Incr(b.failures, now, FAILURE_WINDOW));
      if counted.failures.value >= FAILURE_THRESHOLD then MoveTo(counted, Open, now) else counted
  }

  datatype CounterKey = Failures(provider: string) | HalfOpenSuccesses(provider: string)

  class CircuitBreakerService {
    var states: map<string, Circuit>
    var lastAttempts: map<string, int>
    const counters: Counters<CounterKey>

    constructor ()
      ensures fresh(counters)
      ensures forall p :: View(p) == INITIAL
    {
      states, lastAttempts := map[], map[];
      counters := new Counters();
    }

    ghost function View(provider: string): Breaker
      reads this, counters
    {
      Breaker(
        if provider in states then Some(states[provider]) else None,
        if provider in lastAttempts then Some(lastAttempts[provider]) else None,
        At(counters.cells, Failures(provider)),
        At(counters.cells, HalfOpenSuccesses(provider)))
    }

    method GetState(provider: string) returns (state: Circuit)
      ensures state == View(provider).State()
    {
      state := if provider in states then states[provider] else Closed;
    }

    method AllowRequest(provider: string, now: int) returns (allowed: bool)
      modifies this
      ensures allowed == !old(Refuses(View(provider), now))
      ensures View(provider) == Allowed(old(View(provider)), now)
      ensures forall p :: p != provider ==> View(p) == old(View(p))
    {
      var state := GetState(provider);
      if state == Open {
        if provider !in lastAttempts {
          TransitionTo(provider, HalfOpen, now);
          return true;
        }
        var elapsed := now - lastAttempts[provider];
        if elapsed >= OPEN_DURATION {
          TransitionTo(provider, HalfOpen, now);
          return true;
        }
        return false;
      }
      return true;
    }

    method RecordSuccess(provider: string, now: int)
      modifies this, counters
      ensures View(provider) == Succeeded(old(View(provider)), now)
      ensures forall p :: p != provider ==> View(p) == old(View(p))
    {
      var state := GetState(provider);
      if state == HalfOpen {
        var successes := counters.Increment(HalfOpenSuccesses(provider), now, SUCCESS_TTL);
        assert forall p :: p != provider ==> View(p) == old(View(p));
        if successes >= SUCCESS_THRESHOLD {
          TransitionTo(provider, Closed, now);
          assert forall p :: p != provider ==> View(p) == old(View(p));
          counters.Delete(HalfOpenSuccesses(provider));
        }
      }
      label counted:
      counters.Delete(Failures(provider));
      assert forall p :: p != provider ==> View(p) == old@counted(View(p));
    }

    method RecordFailure(provider: string, now: int)
      modifies this, counters
      ensures View(provider) == Failed(old(View(provider)), now)
      ensures forall p :: p != provider ==> View(p) == old(View(p))
    {
      var state := GetState(provider);
      if state == HalfOpen {
        TransitionTo(provider, Open, now);
        return;
      }
      if state == Open { return; }
      var failures := counters.Increment(Failures(provider), now, FAILURE_WINDOW);
      if failures >= FAILURE_THRESHOLD {
        TransitionTo(provider, Open, now);
      }
    }

    method TransitionTo(provider: string, newState: Circuit, now: int)
      modifies this
      ensures View(provider) == MoveTo(old(View(provider)), newState, now)
      ensures forall p :: p != provider ==> View(p) == old(View(p))
    {
      var oldState := GetState(provider);
      if oldState == newState { return; }
      states := states[provider := newState];
      lastAttempts := lastAttempts[provider := now];
    }
  }

  // ---- Whole runs: any sequence of the three operations, with a clock that never runs back ----

  datatype Op = Allow(now: int) | Success(now: int) | Failure(now: int)

  function Apply(b: Breaker, op: Op): Breaker {
    match op
    case Allow(now) => Allowed(b, now)
    case Success(now) => Succeeded(b, now)
    case Failure(now) => Failed(b, now)
  }

  /** The breaker just before operation `n`. */
  function Before(ops: seq<Op>, n: nat): Breaker
    requires n <= |ops|
  {
    if n == 0 then INITIAL else Apply(Before(ops, n - 1), ops[n - 1])
  }

  ghost predicate Timed(ops: seq<Op>) {
    forall i, j :: 0 <= i <= j < |ops| ==> ops[i].now <= ops[j].now
  }

  /** What holds just before an operation at `now`, whatever came before. */
  ghost predicate Inv(b: Breaker, now: int) {
    && (b.failures.Present? ==> b.failures.expiry.Some?)
    && (b.successes.Present? ==> b.successes.expiry.Some?)
    && match b.State()
       case Closed =>
         (b.failures.Present? ==> b.failures.value < FAILURE_THRESHOLD) && b.successes.Absent?
       case Open =>
         && b.lastAttempt.Some? && b.lastAttempt.value <= now
         && (b.successes.Present? ==> b.successes.expiry.value <= b.lastAttempt.value + SUCCESS_TTL)
       case HalfOpen =>
         && (b.successes.Present? ==> b.successes.expiry.value <= now + SUCCESS_TTL)
         && (Live(b.successes, now) ==> b.successes.value == 1)
  }

  lemma InvKept(b: Breaker, op: Op, later: int)
    requires Inv(b, op.now) && op.now <= later
    ensures Inv(Apply(b, op), later)
  {
    var next := Apply(b, op);
    if b.State() == HalfOpen && next.State() == HalfOpen && op.Success? {
      assert !Live(b.successes, op.now);
      assert next.successes == Present(1, Some(op.now + SUCCESS_TTL));
    }
    if b.State() == Open && next.State() == HalfOpen {
      assert !Live(b.successes, op.now);
    }
  }

  lemma {:induction false} InvHolds(ops: seq<Op>, n: nat, now: int)
    requires Timed(ops) && n <= |ops| && (n > 0 ==> ops[n - 1].now <= now)
    ensures Inv(Before(ops, n), now)
  {
    if n > 0 {
      InvHolds(ops, n - 1, ops[n - 1].now);
      InvKept(Before(ops, n - 1), ops[n - 1], now);
    }
  }

  /** CLOSED means fewer than five live failures, at every instant of every run. */
  lemma ClosedBelowThreshold(ops: seq<Op>, n: nat, now: int)
    requires Timed(ops) && n <= |ops| && (n > 0 ==> ops[n - 1].now <= now)
    requires Before(ops, n).State() == Closed
    ensures Count(Before(ops, n).failures, now) < 5
  {
    InvHolds(ops, n, now);
  }

  ghost predicate Enters(ops: seq<Op>, n: nat, state: Circuit)
    requires n < |ops|
  {
    Before(ops, n).State() != state && Before(ops, n + 1).State() == state
  }

  lemma {:induction false} StaysOpen(ops: seq<Op>, i: nat, k: nat)
    requires Timed(ops) && i < k < |ops| && Enters(ops, i, Open)
    requires ops[k].now < ops[i].now + OPEN_DURATION
    ensures Before(ops, k).State() == Open && Before(ops, k).lastAttempt == Some(ops[i].now)
  {
    if k > i + 1 {
      assert ops[k - 1].now <= ops[k].now;
      StaysOpen(ops, i, k - 1);
    }
  }

  /** From the operation that opens the circuit, every request of the next 60 seconds is refused. */
  lemma OpenRefuses(ops: seq<Op>, i: nat, k: nat)
    requires Timed(ops) && i < k < |ops| && Enters(ops, i, Open)
    requires ops[k].now < ops[i].now + 60_000
    ensures Refuses(Before(ops, k), ops[k].now)
    ensures Before(ops, k + 1).State() == Open
  {
    StaysOpen(ops, i, k);
  }

  /** And nothing else is ever refused: a refusal goes back to an opening less than 60 seconds old. */
  lemma RefusedOnlyAfterOpening(ops: seq<Op>, k: nat) returns (i: nat)
    requires Timed(ops) && k < |ops| && Refuses(Before(ops, k), ops[k].now)
    ensures i < k && Enters(ops, i, Open) && ops[k].now < ops[i].now + 60_000
  {
    if Before(ops, k - 1).State() == Open {
      i := OpeningBefore(ops, k);
    } else {
      i := k - 1;
    }
  }

  lemma {:induction false} OpeningBefore(ops: seq<Op>, k: nat) returns (i: nat)
    requires k <= |ops| && Before(ops, k).State() == Open
    ensures i < k && Enters(ops, i, Open) && Before(ops, k).lastAttempt == Some(ops[i].now)
  {
    if Before(ops, k - 1).State() == Open { i := OpeningBefore(ops, k - 1); } else { i := k - 1; }
  }

  /** The 30-second success counter is always gone when a half-open episode starts. */
  lemma HalfOpenStartsFresh(ops: seq<Op>, n: nat)
    requires Timed(ops) && n < |ops| && Enters(ops, n, HalfOpen)
    ensures ops[n].Allow? && !Live(Before(ops, n + 1).successes, ops[n].now)
  {
    InvHolds(ops, n, ops[n].now);
  }

  /** `j` is a success of the half-open episode that is still running before operation `n`. */
  ghost predicate CountedSuccess(ops: seq<Op>, n: nat, j: nat)
    requires n <= |ops|
  {
    && j < n && ops[j].Success?
    && (forall m {:trigger Before(ops, m)} :: j <= m <= n ==> Before(ops, m).State() == HalfOpen)
    && Before(ops, n).successes == Present(1, Some(ops[j].now + SUCCESS_TTL))
  }

  lemma {:induction false} LiveSuccessWasCounted(ops: seq<Op>, n: nat, now: int) returns (j: nat)
    requires Timed(ops) && 0 < n <= |ops| && ops[n - 1].now <= now
    requires Before(ops, n).State() == HalfOpen && Live(Before(ops, n).successes, now)
    ensures CountedSuccess(ops, n, j)
  {
    var b, op := Before(ops, n - 1), ops[n - 1];
    InvHolds(ops, n - 1, op.now);
    if op.Success? {
      j := n - 1;
    } else {
      j := LiveSuccessWasCounted(ops, n - 1, op.now);
    }
  }

  /** The circuit closes only on the second success of one half-open episode,
      less than 30 seconds after the first and with no failure between them. */
  lemma ClosingNeedsTwoSuccesses(ops: seq<Op>, k: nat) returns (j: nat)
    requires Timed(ops) && k < |ops| && Enters(ops, k, Closed)
    ensures j < k && ops[j].Success? && ops[k].Success?
    ensures ops[k].now < ops[j].now + 30_000
    ensures forall m {:trigger Before(ops, m)} :: j <= m <= k ==> Before(ops, m).State() == HalfOpen
    ensures forall m :: j < m < k ==> !ops[m].Failure?
  {
    InvHolds(ops, k, ops[k].now);
    j := LiveSuccessWasCounted(ops, k, ops[k].now);
    forall m | j < m < k ensures !ops[m].Failure? {
      assert Before(ops, m).State() == HalfOpen && Before(ops, m + 1).State() == HalfOpen;
    }
  }

  // ---- What opens a circuit ----

  /** The failures, by index, since the last success and within 60 seconds of the first of
      them; the failure that comes later starts anew. */
  function Streak(ops: seq<Op>, n: nat): (f: seq<int>)
    requires n <= |ops|
    ensures forall i :: 0 <= i < |f| ==> 0 <= f[i] < n
  {
    if n == 0 then []
    else
      var before := Streak(ops, n - 1);
      match ops[n - 1]
      case Allow(_) => before
      case Success(_) => []
      case Failure(now) => if before != [] && now < ops[before[0]].now + 60_000 then before + [n - 1] else [n - 1]
  }

  /** `f` are all the failures from the first of them on, in order, less than 60 seconds
      apart and with no success among them. */
  ghost predicate FailuresInARow(ops: seq<Op>, n: nat, f: seq<int>)
    requires n <= |ops|
  {
    && (forall i :: 0 <= i < |f| ==> 0 <= f[i] < n && ops[f[i]].Failure?)
    && (forall i :: 0 <= i < |f| ==> ops[f[i]].now < ops[f[0]].now + 60_000)
    && (forall i, j :: 0 <= i < j < |f| ==> f[i] < f[j])
    && (f != [] ==> forall m :: f[0] <= m < n ==> !ops[m].Success? && (ops[m].Failure? ==> m in f))
  }

  lemma RowGoesOn(ops: seq<Op>, n: nat, f: seq<int>)
    requires n < |ops| && FailuresInARow(ops, n, f) && ops[n].Allow?
    ensures FailuresInARow(ops, n + 1, f)
  {
  }

  lemma RowGrows(ops: seq<Op>, n: nat, f: seq<int>)
    requires n < |ops| && FailuresInARow(ops, n, f) && ops[n].Failure?
    requires f != [] && ops[n].now < ops[f[0]].now + 60_000
    ensures FailuresInARow(ops, n + 1, f + [n])
  {
    var g := f + [n];
    assert g[0] == f[0];
    forall m | g[0] <= m < n + 1 ensures !ops[m].Success? && (ops[m].Failure? ==> m in g) {
      if m < n { assert ops[m].Failure? ==> m in f; }
    }
  }

  lemma RowStarts(ops: seq<Op>, n: nat)
    requires n < |ops| && ops[n].Failure?
    ensures FailuresInARow(ops, n + 1, [n])
  {
  }

  lemma {:induction false} StreakIsInARow(ops: seq<Op>, n: nat)
    requires n <= |ops|
    ensures FailuresInARow(ops, n, Streak(ops, n))
  {
    if n > 0 {
      StreakIsInARow(ops, n - 1);
      StreakStep(ops, n - 1, Streak(ops, n - 1), Streak(ops, n));
    }
  }

  lemma StreakStep(ops: seq<Op>, n: nat, before: seq<int>, after: seq<int>)
    requires n < |ops| && FailuresInARow(ops, n, before)
    requires before != [] ==> 0 <= before[0] < |ops|
    requires after == match ops[n]
                      case Allow(_) => before
                      case Success(_) => []
                      case Failure(now) =>
                        if before != [] && now < ops[before[0]].now + 60_000 then before + [n] else [n]
    ensures FailuresInARow(ops, n + 1, after)
  {
    match ops[n]
    case Allow(_) => RowGoesOn(ops, n, before);
    case Success(_) =>
    case Failure(now) =>
      if after == [n] { RowStarts(ops, n); } else { RowGrows(ops, n, before); }
  }

  /** The failure counter of a CLOSED circuit is the length of the streak. */
  lemma {:induction false} CounterIsStreak(ops: seq<Op>, n: nat)
    requires Timed(ops) && n <= |ops|
    ensures Before(ops, n).State() == Closed ==>
              var f := Streak(ops, n);
              && |f| < 5
              && Before(ops, n).failures == if f == [] then Absent else Present(|f|, Some(ops[f[0]].now + 60_000))
  {
    if n > 0 { CounterIsStreak(ops, n - 1); }
  }

  /** A CLOSED circuit opens at the fifth failure of a streak, and only then. */
  lemma OpensIff(ops: seq<Op>, k: nat)
    requires Timed(ops) && k < |ops| && Before(ops, k).State() == Closed
    ensures Enters(ops, k, Open) <==> ops[k].Failure? && |Streak(ops, k + 1)| == 5
    ensures Before(ops, k + 1).State() != HalfOpen
  {
    CounterIsStreak(ops, k);
  }

  /** What that means: the failure is the fifth in a row. */
  lemma OpeningNeedsFiveFailures(ops: seq<Op>, k: nat) returns (f: seq<int>)
    requires Timed(ops) && k < |ops| && Before(ops, k).State() == Closed && Enters(ops, k, Open)
    ensures |f| == 5 && f[4] == k && FailuresInARow(ops, k + 1, f)
  {
    f := Streak(ops, k + 1);
    OpensIff(ops, k);
    StreakIsInARow(ops, k + 1);
    assert f[4] == k;
  }

  /** Between a success, or the start of all, and operation `n` nothing was recorded. */
  ghost predicate Fresh(ops: seq<Op>, start: nat, n: int) {
    && start <= n <= |ops| && (start > 0 ==> ops[start - 1].Success?)
    && forall m :: start <= m < n ==> ops[m].Allow?
  }

  lemma {:induction false} NoStreak(ops: seq<Op>, start: nat, n: nat)
    requires Fresh(ops, start, n)
    ensures Streak(ops, n) == []
  {
    if n > start { NoStreak(ops, start, n - 1); }
  }

  lemma RowShrinks(ops: seq<Op>, n: nat, f: seq<int>)
    requires n < |ops| && FailuresInARow(ops, n + 1, f) && f != []
    ensures !ops[n].Success?
    ensures ops[n].Failure? ==> f[|f| - 1] == n && FailuresInARow(ops, n, f[..|f| - 1])
    ensures ops[n].Allow? ==> FailuresInARow(ops, n, f)
  {
    if ops[n].Failure? {
      assert n in f;
      var g := f[..|f| - 1];
      forall m | g != [] && g[0] <= m < n ensures !ops[m].Success? && (ops[m].Failure? ==> m in g) {
        if ops[m].Failure? { assert m in f && m != f[|f| - 1]; }
      }
    }
  }

  lemma StreakGrows(ops: seq<Op>, n: nat, f: seq<int>)
    requires n < |ops| && Streak(ops, n) == f && ops[n].Failure?
    requires f != [] ==> ops[n].now < ops[f[0]].now + 60_000
    ensures Streak(ops, n + 1) == f + [n]
  {
  }

  /** The first failures after a success, or of all, are a streak. */
  lemma {:induction false} StreakAfter(ops: seq<Op>, start: nat, n: nat, f: seq<int>)
    requires n <= |ops| && FailuresInARow(ops, n, f) && f != [] && Fresh(ops, start, f[0])
    ensures Streak(ops, n) == f
  {
    var last := n - 1;
    RowShrinks(ops, last, f);
    if ops[last].Allow? {
      StreakAfter(ops, start, last, f);
    } else {
      var g := f[..|f| - 1];
      if g == [] {
        NoStreak(ops, start, last);
      } else {
        assert g[0] == f[0];
        StreakAfter(ops, start, last, g);
      }
      assert f == g + [last] && ops[last].now < ops[f[0]].now + 60_000;
      StreakGrows(ops, last, g);
    }
  }

  /** So the first five failures after a success, or of all, open the circuit if they come
      within 60 seconds of the first. */
  lemma FiveFailuresOpen(ops: seq<Op>, start: nat, k: nat, f: seq<int>)
    requires Timed(ops) && k < |ops| && FailuresInARow(ops, k + 1, f) && |f| == 5 && f[4] == k
    requires Fresh(ops, start, f[0])
    ensures Before(ops, k).State() == Closed ==> Enters(ops, k, Open)
  {
    StreakAfter(ops, start, k + 1, f);
    if Before(ops, k).State() == Closed { OpensIff(ops, k); }
  }

  // ---- Not a sliding window ----

  lemma {:induction false} ClosedBefore(ops: seq<Op>, m: nat, n: nat)
    requires m <= n <= |ops| && Before(ops, n).State() == Closed
    requires forall k :: m <= k < n ==> !ops[k].Success?
    ensures Before(ops, m).State() == Closed
    decreases n - m
  {
    if m < n { ClosedBefore(ops, m, n - 1); }
  }

  lemma {:induction false} StreakNotEmpty(ops: seq<Op>, m: nat, n: nat)
    requires m < n <= |ops| && ops[m].Failure? && forall k :: m <= k < n ==> !ops[k].Success?
    ensures Streak(ops, n) != []
    decreases n
  {
    if m < n - 1 { StreakNotEmpty(ops, m, n - 1); }
  }

  /** A streak begins after a success, or a minute or more after the one before it began. */
  lemma {:induction false} StreakBegins(ops: seq<Op>, n: nat)
    requires n <= |ops| && Streak(ops, n) != []
    ensures var first := Streak(ops, n)[0];
            var before := Streak(ops, first);
            before == [] || ops[first].now >= ops[before[0]].now + 60_000
  {
    if ops[n - 1].Allow? || Streak(ops, n) != [n - 1] { StreakBegins(ops, n - 1); }
  }

  lemma {:induction false} Elements(f: seq<int>)
    ensures |set x | x in f| <= |f|
  {
    if f != [] {
      Elements(f[1..]);
      assert (set x | x in f) == (set x | x in f[1..]) + {f[0]};
    }
  }

  lemma FiveOf(f: seq<int>, lo: nat, g: seq<int>)
    requires lo + 5 <= |f| && (forall i, j :: 0 <= i < j < |f| ==> f[i] < f[j])
    requires forall i :: lo <= i < lo + 5 ==> f[i] in g
    ensures |g| >= 5
  {
    var five := {f[lo], f[lo + 1], f[lo + 2], f[lo + 3], f[lo + 4]};
    Elements(g);
    SubsetSize(five, set x | x in g);
  }

  ghost predicate Failures(ops: seq<Op>, f: seq<int>) {
    && (forall i :: 0 <= i < |f| ==> 0 <= f[i] < |ops| && ops[f[i]].Failure?)
    && (forall i, j :: 0 <= i < j < |f| ==> f[i] < f[j])
  }

  lemma FiveInStreak(ops: seq<Op>, n: nat, f: seq<int>, lo: nat)
    requires n <= |ops| && Failures(ops, f) && lo + 5 <= |f| && f[lo + 4] < n
    requires Streak(ops, n) != [] && Streak(ops, n)[0] <= f[lo]
    ensures |Streak(ops, n)| >= 5
  {
    var g := Streak(ops, n);
    StreakIsInARow(ops, n);
    forall i | lo <= i < lo + 5 ensures f[i] in g {
      assert g[0] <= f[i] < n;
    }
    FiveOf(f, lo, g);
  }

  /** Nine failures within 60 seconds, with no success among them, never leave it CLOSED. */
  lemma NineFailuresOpen(ops: seq<Op>, f: seq<int>)
    requires Timed(ops) && Failures(ops, f) && |f| == 9
    requires ops[f[8]].now < ops[f[0]].now + 60_000 && forall m :: f[0] <= m <= f[8] ==> !ops[m].Success?
    ensures Before(ops, f[8] + 1).State() != Closed
  {
    var n := f[8] + 1;
    if Before(ops, n).State() == Closed {
      StreakNotEmpty(ops, f[8], n);
      StreakBegins(ops, n);
      CounterIsStreak(ops, n);
      var second := Streak(ops, n)[0];
      if second <= f[4] {
        FiveInStreak(ops, n, f, 4);
      } else {
        ClosedBefore(ops, second, n);
        StreakNotEmpty(ops, f[4], second);
        CounterIsStreak(ops, second);
        if Streak(ops, second)[0] <= f[0] { FiveInStreak(ops, second, f, 0); }
      }
    }
  }

  const EIGHT := [Failure(0), Failure(59_997), Failure(59_998), Failure(59_999),
                  Failure(60_000), Failure(60_001), Failure(60_002), Failure(60_003)]

  lemma Counts(n: nat, before: Cell<int>, after: Cell<int>)
    requires n < 8 && Before(EIGHT, n) == Breaker(None, None, before, Absent)
    requires after == Incr(before, EIGHT[n].now, 60_000) && after.value < 5
    ensures Before(EIGHT, n + 1) == Breaker(None, None, after, Absent)
  {
    assert EIGHT[n].Failure?;
  }

  /** Eight can, seven of them in six milliseconds: the window is not the sliding one its configuration names. */
  lemma EightFailuresStayClosed()
    ensures Timed(EIGHT) && Before(EIGHT, 8).State() == Closed
  {
    Counts(0, Absent, Present(1, Some(60_000)));
    Counts(1, Present(1, Some(60_000)), Present(2, Some(60_000)));
    Counts(2, Present(2, Some(60_000)), Present(3, Some(60_000)));
    Counts(3, Present(3, Some(60_000)), Present(4, Some(60_000)));
    Counts(4, Present(4, Some(60_000)), Present(1, Some(120_000)));
    Counts(5, Present(1, Some(120_000)), Present(2, Some(120_000)));
    Counts(6, Present(2, Some(120_000)), Present(3, Some(120_000)));
    Counts(7, Present(3, Some(120_000)), Present(4, Some(120_000)));
  }

  // ---- What closes one ----

  lemma {:induction false} CountedOnce(ops: seq<Op>, j: nat, k: nat)
    requires Timed(ops) && j < k < |ops| && ops[j].Success? && ops[k].now < ops[j].now + 30_000
    requires forall m {:trigger Before(ops, m)} :: j <= m <= k ==> Before(ops, m).State() == HalfOpen
    ensures Before(ops, k).successes == Present(1, Some(ops[j].now + 30_000))
  {
    InvHolds(ops, k - 1, ops[k - 1].now);
    assert Before(ops, k - 1).State() == Before(ops, k).State() == HalfOpen;
    if k > j + 1 {
      assert ops[k - 1].now <= ops[k].now;
      CountedOnce(ops, j, k - 1);
    }
  }

  /** Two successes of one half-open episode within 30 seconds close it. */
  lemma TwoSuccessesClose(ops: seq<Op>, j: nat, k: nat)
    requires Timed(ops) && j < k < |ops| && ops[j].Success? && ops[k].Success?
    requires ops[k].now < ops[j].now + 30_000
    requires forall m {:trigger Before(ops, m)} :: j <= m <= k ==> Before(ops, m).State() == HalfOpen
    ensures Enters(ops, k, Closed)
  {
    CountedOnce(ops, j, k);
  }
}
