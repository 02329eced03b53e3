/** Send-time optimisation (src/notifications/engine/send-time-optimization.service.ts) for
    one user at a fixed offset from UTC. Scores are exact reals here. */
module SendTime {
  import opened Redis
  import opened Events
  import QuietHours

  const MIN_SAMPLES := 10.0
  const MAX_DELAY := 14_400_000
  const DECAY := 0.9
  const SCORES_TTL := 15_552_000_000

  type Hour = h: int | 0 <= h < 24

  type Scores = map<Hour, real>

  function Score(s: Scores, h: Hour): real {
    if h in s then s[h] else 0.0
  }

  /** The sum of the scores of the hours before `n`. */
  function Total(s: Scores, n: nat): real
    requires n <= 24
  {
    if n == 0 then 0.0 else Total(s, n - 1) + Score(s, n - 1)
  }

  /** A read scores its own hour and lets every other hour fade. */
  function Engaged(s: Scores, hour: Hour): Scores {
    map h | h in s.Keys + {hour} :: if h == hour then Score(s, h) + 1.0 else s[h] * 0.9
  }

  /** The hash dies 180 days after the last read. */
  function ScoresAt(cell: Cell<Scores>, now: int): Scores {
    if Live(cell, now) then cell.value else map[]
  }

  datatype Reason = PriorityBypass | InsufficientData | NoClearPreference | TargetHourTooFar | AlreadyAtOptimalHour

  datatype Decision = Immediately(reason: Reason) | Delay(hour: Hour, delay: int)

  /** HIGH and CRITICAL priorities, and CRITICAL events of any priority, never wait. */
  predicate Bypasses(e: EventType, p: Priority) {
    e in CRITICAL_EVENTS || p == Critical || p == High
  }

  /** The earliest of the hours with the highest score, if any score is positive. */
  predicate IsBest(s: Scores, best: Option<Hour>) {
    match best
    case None => forall h: Hour :: Score(s, h) <= 0.0
    case Some(b) =>
      && Score(s, b) > 0.0
      && (forall h: Hour :: Score(s, h) <= Score(s, b))
      && (forall h: Hour :: h < b ==> Score(s, h) < Score(s, b))
  }

  lemma BestIsUnique(s: Scores, a: Hour, b: Hour)
    requires IsBest(s, Some(a)) && IsBest(s, Some(b))
    ensures a == b
  {
  }

  /** Milliseconds until the user's wall clock next begins `target`. */
  function Wait(target: Hour, now: int, offset: int): int {
    var userNow := (now + offset) / 1000 * 1000;
    var at := userNow / QuietHours.DAY * QuietHours.DAY + target * 60 * QuietHours.MINUTE;
    (if at <= userNow then at + QuietHours.DAY else at) - userNow
  }

  lemma WaitEndsAtTheHour(target: Hour, now: int, offset: int)
    ensures QuietHours.EndsWindow(now, offset, target * 60, now + Wait(target, now, offset))
  {
    QuietHours.TargetEndsWindow(now, offset, target * 60);
  }

  /** The user's best hour begins within four hours. */
  predicate WorthWaiting(s: Scores, hour: Hour, now: int, offset: int) {
    IsBest(s, Some(hour)) && Wait(hour, now, offset) <= 14_400_000
  }

  class SendTimeOptimizationService {
    var cell: Cell<Scores>

    constructor ()
      ensures cell == Absent
    {
      cell := Absent;
    }

    method RecordEngagement(hour: Hour, now: int)
      modifies this
      ensures cell == SetEx(Engaged(ScoresAt(old(cell), now), hour), now, 15_552_000_000)
    {
      var all := ScoresAt(cell, now);
      var current := Score(all, hour);
      var scores := all;
      for h := 0 to 24
        invariant scores.Keys == all.Keys
        invariant forall i: Hour :: i in scores ==>
                    scores[i] == if i < h && i != hour then all[i] * DECAY else all[i]
      {
        if h == hour || h !in all { continue; }
        scores := scores[h := all[h] * DECAY];
      }
      scores := scores[hour := current + 1.0];
      assert scores == Engaged(all, hour);
      cell := SetEx(scores, now, SCORES_TTL);
    }

    method GetBestHour(scores: Scores) returns (best: Option<Hour>)
      ensures IsBest(scores, best)
    {
      best := None;
      var bestScore := 0.0;
      for h := 0 to 24
        invariant best.None? ==> bestScore == 0.0 && forall i: Hour :: i < h ==> Score(scores, i) <= 0.0
        invariant best.Some? ==>
                    && best.value < h && bestScore == Score(scores, best.value) > 0.0
                    && (forall i: Hour :: i < h ==> Score(scores, i) <= bestScore)
                    && (forall i: Hour :: i < best.value ==> Score(scores, i) < bestScore)
      {
        if h in scores && scores[h] > bestScore {
          bestScore := scores[h];
          best := Some(h);
        }
      }
    }

    method ComputeDelay(target: Hour, now: int, offset: int) returns (delay: int)
      ensures delay == Wait(target, now, offset)
      ensures QuietHours.EndsWindow(now, offset, target * 60, now + delay)
    {
      var userNow := (now + offset) / 1000 * 1000;
      var at := userNow / QuietHours.DAY * QuietHours.DAY + target * 60 * QuietHours.MINUTE;
      if at <= userNow { at := at + QuietHours.DAY; }
      var offsetMs := now - userNow;
      delay := at + offsetMs - now;
      QuietHours.TargetEndsWindow(now, offset, target * 60);
    }

    /** A delay is the time until the user's best hour begins, four hours at most. The
        branch for "already there" is dead: inside the best hour the next one is a day off. */
    method Decide(e: EventType, p: Priority, now: int, offset: int) returns (r: Decision)
      ensures r.Delay? <==>
                && !Bypasses(e, p) && Total(ScoresAt(cell, now), 24) >= 10.0
                && exists h: Hour :: WorthWaiting(ScoresAt(cell, now), h, now, offset)
      ensures r.Delay? ==>
          WorthWaiting(ScoresAt(cell, now), r.hour, now, offset) && r.delay == Wait(r.hour, now, offset) > 0
      ensures r.Delay? ==> QuietHours.EndsWindow(now, offset, r.hour * 60, now + r.delay)
      ensures r.Immediately? ==> !r.reason.AlreadyAtOptimalHour? && !r.reason.NoClearPreference?
    {
      if e in CRITICAL_EVENTS || p == Critical || p == High { return Immediately(PriorityBypass); }
      var scores := ScoresAt(cell, now);
      var total := 0.0;
      for h := 0 to 24
        invariant total == Total(scores, h)
      {
        total := total + Score(scores, h);
      }
      if total < MIN_SAMPLES { return Immediately(InsufficientData); }
      var best := GetBestHour(scores);
      if best.None? {
        NothingPositive(scores, 24);
        assert false;
        return Immediately(NoClearPreference);
      }
      var delay := ComputeDelay(best.value, now, offset);
      if delay > MAX_DELAY {
        forall h: Hour | WorthWaiting(scores, h, now, offset) ensures false { BestIsUnique(scores, h, best.value); }
        return Immediately(TargetHourTooFar);
      }
      if delay <= 0 { return Immediately(AlreadyAtOptimalHour); }
      assert WorthWaiting(scores, best.value, now, offset);
      r := Delay(best.value, delay);
    }
  }

  lemma {:induction false} NothingPositive(s: Scores, n: nat)
    requires n <= 24 && forall h: Hour :: Score(s, h) <= 0.0
    ensures Total(s, n) <= 0.0
  {
    if n > 0 { NothingPositive(s, n - 1); }
  }

  // ---- Histories ----

  datatype Seen = Seen(hour: Hour, at: int)

  function After(seen: seq<Seen>): Cell<Scores> {
    if seen == [] then Absent
    else
      var last := seen[|seen| - 1];
      SetEx(Engaged(ScoresAt(After(seen[..|seen| - 1]), last.at), last.hour), last.at, SCORES_TTL)
  }

  /** How many of the last reads came without a pause of 180 days. */
  function Streak(seen: seq<Seen>): nat {
    if seen == [] then 0
    else if |seen| == 1 || seen[|seen| - 1].at >= seen[|seen| - 2].at + SCORES_TTL then 1
    else Streak(seen[..|seen| - 1]) + 1
  }

  function Power(n: nat): real {
    if n == 0 then 1.0 else DECAY * Power(n - 1)
  }

  /** One read adds one and takes a tenth off every other hour. */
  lemma {:induction false} TotalAfterRead(s: Scores, hour: Hour, n: nat)
    requires n <= 24
    ensures Total(Engaged(s, hour), n) ==
            DECAY * Total(s, n) + if hour < n then 1.0 + (1.0 - DECAY) * Score(s, hour) else 0.0
  {
    if n > 0 { TotalAfterRead(s, hour, n - 1); }
  }

  lemma {:induction false} OneOfTotal(s: Scores, hour: Hour, n: nat)
    requires n <= 24 && forall h: Hour :: Score(s, h) >= 0.0
    ensures Total(s, n) >= if hour < n then Score(s, hour) else 0.0
  {
    if n > 0 { OneOfTotal(s, hour, n - 1); }
  }

  predicate NonNegative(s: Scores) {
    forall h: Hour :: Score(s, h) >= 0.0
  }

  /** `s` is what a streak of `n` reads can leave. */
  predicate Within(s: Scores, n: nat) {
    NonNegative(s) && 10.0 * (1.0 - Power(n)) <= Total(s, 24) <= n as real
  }

  lemma EngagedStaysWithin(s: Scores, hour: Hour, n: nat)
    requires Within(s, n)
    ensures Within(Engaged(s, hour), n + 1)
  {
    OneOfTotal(s, hour, 24);
    TotalAfterRead(s, hour, 24);
    forall h: Hour ensures Score(Engaged(s, hour), h) >= 0.0 {
      assert Score(s, h) >= 0.0;
    }
    assert Power(n + 1) == DECAY * Power(n);
  }

  /** The total lies between 10 (1 - 0.9^n), reached when no hour repeats, and the number n
      of reads since the last pause of 180 days, reached when one hour takes them all. */
  lemma {:induction false} TotalIsBounded(seen: seq<Seen>)
    requires seen != []
    ensures After(seen).Present? && Within(After(seen).value, Streak(seen))
  {
    var before, last := seen[..|seen| - 1], seen[|seen| - 1];
    NoScores(24);
    assert Within(map[], 0);
    if before != [] {
      TotalIsBounded(before);
      assert before[|before| - 1] == seen[|seen| - 2];
      if Live(After(before), last.at) {
        EngagedStaysWithin(After(before).value, last.hour, Streak(before));
      } else {
        EngagedStaysWithin(map[], last.hour, 0);
      }
    } else {
      EngagedStaysWithin(map[], last.hour, 0);
    }
  }

  lemma {:induction false} NoScores(n: nat)
    requires n <= 24
    ensures Total(map[], n) == 0.0
  {
    if n > 0 { NoScores(n - 1); }
  }

  /** So a decision to wait rests on at least ten reads without such a pause. */
  lemma TenReadsAreNeeded(seen: seq<Seen>, now: int)
    requires Total(ScoresAt(After(seen), now), 24) >= MIN_SAMPLES
    ensures Streak(seen) >= 10 && Live(After(seen), now)
  {
    NoScores(24);
    if seen != [] { TotalIsBounded(seen); }
  }
}
