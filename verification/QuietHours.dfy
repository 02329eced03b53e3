/** Quiet hours (src/compliance/quiet-hours) for a user at a fixed offset from UTC.
    Instants are milliseconds, times of day are minutes since local midnight. */
module QuietHours {
  import opened Redis

  const MINUTE := 60_000
  const DAY_MINUTES := 1440
  const DAY := 86_400_000

  type TimeOfDay = m: int | 0 <= m < 1440

  datatype User = User(offset: int, quietStart: TimeOfDay, quietEnd: TimeOfDay)

  /** Absolute minutes of the user's wall clock. */
  function LocalMinute(now: int, offset: int): int {
    (now + offset) / MINUTE
  }

  function MinuteOfDay(now: int, offset: int): TimeOfDay {
    LocalMinute(now, offset) % DAY_MINUTES
  }

  /** Overnight windows wrap past midnight. */
  predicate IsWithin(current: TimeOfDay, start: TimeOfDay, end: TimeOfDay) {
    if start > end then current >= start || current < end
    else current >= start && current < end
  }

  function WindowLength(start: TimeOfDay, end: TimeOfDay): TimeOfDay {
    (end - start + 1440) % 1440
  }

  /** The branches are modular arithmetic: how far the clock is past the start of the
      window, against how long the window is. */
  lemma BranchesAreModular(current: TimeOfDay, start: TimeOfDay, end: TimeOfDay)
    ensures IsWithin(current, start, end) <==> (current - start) % 1440 < (end - start) % 1440
  {
    Residue(current - start, if current < start then -1 else 0);
    Residue(end - start, if end < start then -1 else 0);
  }

  lemma Residue(x: int, q: int)
    requires 0 <= x - 1440 * q < 1440
    ensures x % 1440 == x - 1440 * q
  {
    var r := x - 1440 * q;
    assert x == 1440 * q + r;
  }

  ghost predicate Quiet(now: int, user: User) {
    IsWithin(MinuteOfDay(now, user.offset), user.quietStart, user.quietEnd)
  }

  /** The part of a second that the wall clock does not show. */
  function Fraction(now: int, offset: int): int {
    (now + offset) % 1000
  }

  datatype Check = NotQuiet | Suppressed(deliverAt: int)

  class QuietHoursService {
    /** The next instant the user's window ends. */
    method NextActiveWindowStart(now: int, offset: int, end: TimeOfDay) returns (at: int)
      ensures EndsWindow(now, offset, end, at)
    {
      var userNow := (now + offset) / 1000 * 1000;
      var target := userNow / DAY * DAY + end * MINUTE;
      if target <= userNow { target := target + DAY; }
      var offsetMs := now - userNow;
      at := target + offsetMs;
      TargetEndsWindow(now, offset, end);
    }

    method CheckWindow(user: Option<User>, now: int) returns (r: Check)
      ensures r.Suppressed? <==> user.Some? && Quiet(now, user.value)
      ensures r.Suppressed? ==> EndsWindow(now, user.value.offset, user.value.quietEnd, r.deliverAt)
    {
      if user.None? { return NotQuiet; }
      var u := user.value;
      var current := MinuteOfDay(now, u.offset);
      if !IsWithin(current, u.quietStart, u.quietEnd) { return NotQuiet; }
      var at := NextActiveWindowStart(now, u.offset, u.quietEnd);
      r := Suppressed(at);
    }
  }

  /** `at` is the first later instant at which the displayed clock reads `end`, keeping
      the fraction of the second of `now`. */
  ghost predicate EndsWindow(now: int, offset: int, end: TimeOfDay, at: int) {
    && now < at <= now + DAY
    && Fraction(at, offset) == Fraction(now, offset)
    && (at + offset - Fraction(at, offset)) % MINUTE == 0
    && MinuteOfDay(at, offset) == end
    && forall t :: now <= t < at - Fraction(now, offset) ==> LocalMinute(t, offset) < LocalMinute(at, offset)
  }

  lemma TargetEndsWindow(now: int, offset: int, end: TimeOfDay)
    ensures var userNow := (now + offset) / 1000 * 1000;
            var today := userNow / DAY * DAY + end * MINUTE;
            var target := if today <= userNow then today + DAY else today;
            EndsWindow(now, offset, end, target + (now - userNow))
  {
    var userNow := (now + offset) / 1000 * 1000;
    var day := userNow / DAY;
    var today := day * DAY + end * MINUTE;
    var minute := if today <= userNow then (day + 1) * 1440 + end else day * 1440 + end;
    var target := minute * MINUTE;
    var f := Fraction(now, offset);
    assert now - userNow == f - offset;
    var at := target + f - offset;
    assert at + offset == 60 * minute * 1000 + f;
    assert (at + offset) % 1000 == f;
    assert (at + offset) / MINUTE == minute;
    Residue(minute, if today <= userNow then day + 1 else day);
    forall t | now <= t < at - f ensures LocalMinute(t, offset) < minute {
      assert t + offset < minute * MINUTE;
    }
  }

  /** While the user is in quiet hours, `deliverAt` is at most the rest of the window
      away; every instant before it is quiet, and it is not. */
  lemma DeliveredAsWindowEnds(user: User, now: int, at: int)
    requires Quiet(now, user) && EndsWindow(now, user.offset, user.quietEnd, at)
    ensures now < at <= now + WindowLength(user.quietStart, user.quietEnd) * MINUTE
    ensures forall t :: now <= t < at - Fraction(now, user.offset) ==> Quiet(t, user)
    ensures !Quiet(at, user) && 0 <= Fraction(now, user.offset) < 1000
  {
    forall t | now <= t < at - Fraction(now, user.offset) ensures Quiet(t, user) {
      QuietUntilEnd(user, now, at, t);
    }
    WaitIsWithinWindow(user, now, at);
  }

  lemma QuietUntilEnd(user: User, now: int, at: int, t: int)
    requires Quiet(now, user) && EndsWindow(now, user.offset, user.quietEnd, at)
    requires now <= t < at - Fraction(now, user.offset)
    ensures Quiet(t, user)
  {
    var m, x := LocalMinute(now, user.offset), LocalMinute(t, user.offset);
    var past := MinutesToEnd(user, now, at);
    assert m <= x < LocalMinute(at, user.offset);
    PositionShift(m, user.quietStart, x - m, past);
    BranchesAreModular(x % 1440, user.quietStart, user.quietEnd);
    Residue(user.quietEnd - user.quietStart, if user.quietEnd < user.quietStart then -1 else 0);
    Residue(user.quietEnd - user.quietStart + 1440, if user.quietEnd < user.quietStart then 0 else 1);
  }

  lemma WaitIsWithinWindow(user: User, now: int, at: int)
    requires Quiet(now, user) && EndsWindow(now, user.offset, user.quietEnd, at)
    ensures at <= now + WindowLength(user.quietStart, user.quietEnd) * MINUTE
  {
    var past := MinutesToEnd(user, now, at);
    var m, last, f := LocalMinute(now, user.offset), LocalMinute(at, user.offset), Fraction(now, user.offset);
    SecondsShown(now, user.offset);
    SecondsShown(at, user.offset);
    assert last - m <= WindowLength(user.quietStart, user.quietEnd);
  }

  /** The fraction of a second is part of the fraction of a minute. */
  lemma SecondsShown(now: int, offset: int)
    ensures LocalMinute(now, offset) * MINUTE + Fraction(now, offset) <= now + offset
    ensures (now + offset - Fraction(now, offset)) % MINUTE == 0 ==>
              LocalMinute(now, offset) * MINUTE + Fraction(now, offset) == now + offset
  {
  }

  /** How far `now` is past the start of the window, against the whole minutes that are left. */
  lemma MinutesToEnd(user: User, now: int, at: int) returns (past: int)
    requires Quiet(now, user) && EndsWindow(now, user.offset, user.quietEnd, at)
    ensures past == (MinuteOfDay(now, user.offset) - user.quietStart) % 1440
    ensures var len := WindowLength(user.quietStart, user.quietEnd);
            past < len && LocalMinute(at, user.offset) == LocalMinute(now, user.offset) + len - past
  {
    var m, last := LocalMinute(now, user.offset), LocalMinute(at, user.offset);
    var len := WindowLength(user.quietStart, user.quietEnd);
    past := (m % 1440 - user.quietStart) % 1440;
    BranchesAreModular(m % 1440, user.quietStart, user.quietEnd);
    Residue(user.quietEnd - user.quietStart, if user.quietEnd < user.quietStart then -1 else 0);
    Residue(user.quietEnd - user.quietStart + 1440, if user.quietEnd < user.quietStart then 0 else 1);
    assert past < len;
    // last is the first minute after m that reads quietEnd, and so is m + len - past
    assert m < last <= m + 1440 by {
      assert at + user.offset <= now + user.offset + DAY;
      assert LocalMinute(now, user.offset) < LocalMinute(at, user.offset) by {
        FirstInstant(now, user.offset, at);
      }
    }
    Congruent(m + len - past, last, user.quietEnd, m, user.quietStart, len, past);
  }

  lemma FirstInstant(now: int, offset: int, at: int)
    requires now < at && Fraction(at, offset) == Fraction(now, offset)
    requires (at + offset - Fraction(at, offset)) % MINUTE == 0
    ensures LocalMinute(now, offset) < LocalMinute(at, offset)
  {
    var f := Fraction(now, offset);
    var second := (now + offset) / 1000;
    var minute := (at + offset - f) / MINUTE;
    assert now + offset == 1000 * second + f && at + offset == 60 * minute * 1000 + f;
    assert second < 60 * minute;
    assert now + offset < minute * MINUTE;
  }

  lemma Congruent(x: int, y: int, end: TimeOfDay, m: int, start: TimeOfDay, len: int, past: int)
    requires y % 1440 == end && m < y <= m + 1440
    requires past == (m % 1440 - start) % 1440 && len == WindowLength(start, end) && past < len
    requires x == m + len - past
    ensures x == y
  {
  }

  /** Moving forward inside the window moves the position by the same amount. */
  lemma PositionShift(m: int, start: TimeOfDay, step: int, past: int)
    requires past == (m % 1440 - start) % 1440 && 0 <= step && past + step < 1440
    ensures ((m + step) % 1440 - start) % 1440 == past + step
  {
  }
}
