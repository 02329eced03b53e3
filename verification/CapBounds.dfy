/** Runs of the frequency caps that fill a rolling window to the bound of FrequencyCap. */
module CapBounds {
  import opened Redis
  import opened Sets
  import opened Events
  import opened FixedWindow
  import opened FrequencyCap

  /** A mandated event: no cooldown and no channel cap, but both other caps apply. */
  const MANDATED := Event(Txnx, 1)

  function Sends(user: string, times: seq<int>): seq<Step> {
    seq(|times|, i requires 0 <= i < |times| => Step(user, MANDATED, [Sms], times[i], true))
  }

  function AllChecked(times: seq<int>): seq<Hit> {
    seq(|times|, i requires 0 <= i < |times| => Hit(times[i], true))
  }

  predicate BelowCaps(times: seq<int>, i: nat)
    requires i < |times|
  {
    && Count(Replay(AllChecked(times), HOUR, i), times[i]) < CATEGORY_HOURLY_CAP
    && Count(Replay(AllChecked(times), FrequencyCap.DAY, i), times[i]) < GLOBAL_DAILY_CAP
  }

  /** Each send meets its hourly counter below 3 and its daily counter below 12. */
  ghost predicate Fits(times: seq<int>) {
    && (forall i, j :: 0 <= i < j < |times| ==> times[i] <= times[j])
    && forall i {:trigger BelowCaps(times, i)} :: 0 <= i < |times| ==> BelowCaps(times, i)
  }

  lemma FitsPrefix(times: seq<int>)
    requires Fits(times) && times != []
    ensures Fits(times[..|times| - 1])
    ensures AllChecked(times) == AllChecked(times[..|times| - 1]) + [Hit(times[|times| - 1], true)]
  {
    var before := times[..|times| - 1];
    assert AllChecked(times) == AllChecked(before) + [Hit(times[|times| - 1], true)];
    forall i | 0 <= i < |before| ensures BelowCaps(before, i) {
      assert BelowCaps(times, i);
      ReplayPrefix(AllChecked(before), [Hit(times[|times| - 1], true)], HOUR, i);
      ReplayPrefix(AllChecked(before), [Hit(times[|times| - 1], true)], FrequencyCap.DAY, i);
    }
  }

  lemma MandatedPasses(cells: map<Key, Cell<int>>, user: string, now: int)
    requires Count(At(cells, CategoryHourly(user, Txnx)), now) < CATEGORY_HOURLY_CAP
    requires Count(At(cells, GlobalDaily(user)), now) < GLOBAL_DAILY_CAP
    ensures Passing(cells, user, MANDATED, [Sms], now) == [Sms]
  {
    assert [Sms][1..] == [];
    assert MANDATED in REGULATORY_MANDATORY_EVENTS && MANDATED !in CRITICAL_EVENTS;
    assert Passes(cells, user, MANDATED, Sms, now);
  }

  lemma NextIsHit(user: string, before: seq<Step>, now: int, key: Key)
    requires Passing(Run(before), user, MANDATED, [Sms], now) == [Sms]
    requires key == GlobalDaily(user) || key == CategoryHourly(user, Txnx)
    ensures Hits(before + [Step(user, MANDATED, [Sms], now, true)], key) == Hits(before, key) + [Hit(now, true)]
  {
    var s := Step(user, MANDATED, [Sms], now, true);
    assert (before + [s])[..|before|] == before;
    assert !Exempt(MANDATED, key);
    assert Reaches(s, [Sms], key);
  }

  lemma NextIsTimed(before: seq<Step>, s: Step)
    requires WellTimed(before) && s.channels == [Sms]
    requires before != [] ==> before[|before| - 1].now <= s.now
    ensures WellTimed(before + [s])
  {
    assert (before + [s])[..|before|] == before;
  }

  /** So every send goes through, and both counters see exactly these hits. */
  lemma {:induction false} EverySendPasses(user: string, times: seq<int>)
    requires Fits(times)
    ensures WellTimed(Sends(user, times))
    ensures Hits(Sends(user, times), GlobalDaily(user)) == AllChecked(times)
    ensures Hits(Sends(user, times), CategoryHourly(user, Txnx)) == AllChecked(times)
  {
    if times != [] {
      FitsPrefix(times);
      EverySendPasses(user, times[..|times| - 1]);
      NextSendPasses(user, times, Sends(user, times[..|times| - 1]));
    }
  }

  lemma NextSendPasses(user: string, times: seq<int>, before: seq<Step>)
    requires Fits(times) && times != [] && before == Sends(user, times[..|times| - 1]) && WellTimed(before)
    requires Hits(before, GlobalDaily(user)) == AllChecked(times[..|times| - 1])
    requires Hits(before, CategoryHourly(user, Txnx)) == AllChecked(times[..|times| - 1])
    ensures WellTimed(Sends(user, times))
    ensures Hits(Sends(user, times), GlobalDaily(user)) == AllChecked(times)
    ensures Hits(Sends(user, times), CategoryHourly(user, Txnx)) == AllChecked(times)
  {
    var now := times[|times| - 1];
    FitsPrefix(times);
    PassesNext(user, times, before);
    assert Sends(user, times) == before + [Step(user, MANDATED, [Sms], now, true)];
    NextIsTimed(before, Step(user, MANDATED, [Sms], now, true));
    NextIsHit(user, before, now, GlobalDaily(user));
    NextIsHit(user, before, now, CategoryHourly(user, Txnx));
  }

  lemma PassesNext(user: string, times: seq<int>, before: seq<Step>)
    requires Fits(times) && times != [] && before == Sends(user, times[..|times| - 1]) && WellTimed(before)
    requires Hits(before, GlobalDaily(user)) == AllChecked(times[..|times| - 1])
    requires Hits(before, CategoryHourly(user, Txnx)) == AllChecked(times[..|times| - 1])
    ensures Passing(Run(before), user, MANDATED, [Sms], times[|times| - 1]) == [Sms]
  {
    var n := |times| - 1;
    var h, last := AllChecked(times[..n]), [Hit(times[n], true)];
    FitsPrefix(times);
    assert BelowCaps(times, n);
    ReplayPrefix(h, last, HOUR, n);
    ReplayPrefix(h, last, FrequencyCap.DAY, n);
    CountersReplayHits(before, GlobalDaily(user));
    CountersReplayHits(before, CategoryHourly(user, Txnx));
    MandatedPasses(Run(before), user, times[n]);
  }

  // ---- The daily cap: 23 in a day ----

  /** One send at midnight, eleven from noon, three an hour, and twelve from the next midnight. */
  function DayTime(i: int): int {
    if i == 0 then 0
    else if i < 12 then (12 + (i - 1) / 3) * HOUR
    else (24 + (i - 12) / 3) * HOUR
  }

  function DayTimes(): seq<int> {
    seq(24, i requires 0 <= i < 24 => DayTime(i))
  }

  /** Hit `i` opens a counter or falls on that of the hit before, whichever `o` says. */
  predicate OpensAt(times: seq<int>, window: int, o: seq<int>, i: int)
    requires |o| == |times| && 0 <= i < |times|
  {
    if i == 0 then o[0] == 0
    else
      && 0 <= o[i - 1] < i
      && o[i] == if times[i] >= times[o[i - 1]] + window then i else o[i - 1]
  }

  ghost predicate Opens(times: seq<int>, window: int, o: seq<int>) {
    |o| == |times| && forall i {:trigger OpensAt(times, window, o, i)} :: 0 <= i < |times| ==>
        OpensAt(times, window, o, i)
  }

  lemma {:induction false} OpenersAre(times: seq<int>, window: int, o: seq<int>, i: nat)
    requires Opens(times, window, o) && i < |times|
    ensures Opener(AllChecked(times), window, i) == o[i]
  {
    assert OpensAt(times, window, o, i);
    if i > 0 { OpenersAre(times, window, o, i - 1); }
  }

  lemma BelowFromOpeners(times: seq<int>, hourly: seq<int>, daily: seq<int>, i: nat)
    requires Opens(times, HOUR, hourly) && Opens(times, FrequencyCap.DAY, daily) && i < |times|
    requires i - hourly[i] < CATEGORY_HOURLY_CAP && i - daily[i] < GLOBAL_DAILY_CAP
    ensures BelowCaps(times, i)
  {
    OpenersAre(times, HOUR, hourly, i);
    OpenersAre(times, FrequencyCap.DAY, daily, i);
    CountBefore(AllChecked(times), HOUR, i);
    CountBefore(AllChecked(times), FrequencyCap.DAY, i);
  }

  /** The hit that opens the hourly counter hit `i` falls on. */
  function HourlyOpener(i: int): int {
    if i <= 0 then 0 else if i < 12 then 1 + (i - 1) / 3 * 3 else 12 + (i - 12) / 3 * 3
  }

  lemma HourlyOpens(i: int)
    requires 0 < i < 24
    ensures 0 <= HourlyOpener(i - 1) < i
    ensures HourlyOpener(i) == if DayTime(i) >= DayTime(HourlyOpener(i - 1)) + HOUR then i else HourlyOpener(i - 1)
  {
    if 1 < i < 12 {
      var q, r := (i - 2) / 3, (i - 2) % 3;
      assert i - 1 == 1 + 3 * q + r;
    } else if i > 12 {
      var q, r := (i - 13) / 3, (i - 13) % 3;
      assert i - 1 == 12 + 3 * q + r;
    }
  }

  lemma DayOpens(times: seq<int>, hourly: seq<int>, daily: seq<int>)
    requires |times| == 24 && forall i :: 0 <= i < 24 ==> times[i] == DayTime(i)
    requires |hourly| == 24 && forall i :: 0 <= i < 24 ==> hourly[i] == HourlyOpener(i)
    requires |daily| == 24 && forall i :: 0 <= i < 24 ==> daily[i] == if i < 12 then 0 else 12
    ensures Opens(times, HOUR, hourly) && Opens(times, FrequencyCap.DAY, daily)
  {
    forall i | 0 <= i < 24 ensures OpensAt(times, HOUR, hourly, i) {
      if i > 0 { HourlyOpens(i); }
    }
    forall i | 0 <= i < 24 ensures OpensAt(times, FrequencyCap.DAY, daily, i) {
      assert DayTime(0) == 0 && DayTime(12) == FrequencyCap.DAY;
    }
  }

  lemma DayTimesGrow(i: int, j: int)
    requires 0 <= i < j < 24
    ensures DayTime(i) <= DayTime(j)
  {
  }

  lemma DayFits(times: seq<int>, hourly: seq<int>, daily: seq<int>)
    requires |times| == 24 && forall i :: 0 <= i < 24 ==> times[i] == DayTime(i)
    requires |hourly| == 24 && forall i :: 0 <= i < 24 ==> hourly[i] == HourlyOpener(i)
    requires |daily| == 24 && forall i :: 0 <= i < 24 ==> daily[i] == if i < 12 then 0 else 12
    ensures Fits(times)
  {
    DayOpens(times, hourly, daily);
    forall i | 0 <= i < 24 ensures BelowCaps(times, i) {
      BelowFromOpeners(times, hourly, daily, i);
    }
    forall i, j | 0 <= i < j < 24 ensures times[i] <= times[j] { DayTimesGrow(i, j); }
  }

  lemma FromNoon(times: seq<int>)
    requires |times| == 24 && forall i :: 0 <= i < 24 ==> times[i] == DayTime(i)
    ensures |CheckedIn(AllChecked(times), 43_200_000, 129_600_000)| == 23
  {
    var h := AllChecked(times);
    forall i | 0 <= i < 24 ensures 43_200_000 <= h[i].time < 129_600_000 <==> 1 <= i { DayTimeFromNoon(i); }
    assert CheckedIn(h, 43_200_000, 129_600_000) == Range(1, 24);
  }

  lemma DayTimeFromNoon(i: int)
    requires 0 <= i < 24
    ensures 43_200_000 <= DayTime(i) < 129_600_000 <==> 1 <= i
  {
  }

  /** A run of twenty-four checked sends, of which twenty-three fall into one day from noon to noon. */
  lemma TwentyThreeInADay(user: string)
    ensures var steps := Sends(user, DayTimes());
            && WellTimed(steps)
            && |CheckedIn(Hits(steps, GlobalDaily(user)), 43_200_000, 43_200_000 + 86_400_000)| == 23
  {
    DayFits(DayTimes(), seq(24, i => HourlyOpener(i)), seq(24, i => if i < 12 then 0 else 12));
    EverySendPasses(user, DayTimes());
    FromNoon(DayTimes());
  }

  // ---- The hourly cap: 5 in an hour ----

  /** One send, two just before the hour is over, three as it ends. */
  function HourTimes(): seq<int> {
    [0, HOUR - 1, HOUR - 1, HOUR, HOUR, HOUR]
  }

  lemma HourFits()
    ensures Fits(HourTimes())
  {
    var times := HourTimes();
    var hourly, daily := [0, 0, 0, 3, 3, 3], [0, 0, 0, 0, 0, 0];
    forall i | 0 <= i < 6 ensures OpensAt(times, HOUR, hourly, i) && OpensAt(times, FrequencyCap.DAY, daily, i) { }
    forall i | 0 <= i < 6 ensures BelowCaps(times, i) {
      BelowFromOpeners(times, hourly, daily, i);
    }
  }

  /** A run of six checked sends of one category, five of them within an hour. */
  lemma FiveInAnHour(user: string)
    ensures var steps := Sends(user, HourTimes());
            && WellTimed(steps)
            && |CheckedIn(Hits(steps, CategoryHourly(user, Txnx)), 3_599_999, 3_599_999 + 3_600_000)| == 5
  {
    HourFits();
    EverySendPasses(user, HourTimes());
    JustBeforeTheHour(HourTimes());
  }

  lemma JustBeforeTheHour(times: seq<int>)
    requires times == [0, 3_599_999, 3_599_999, 3_600_000, 3_600_000, 3_600_000]
    ensures |CheckedIn(AllChecked(times), 3_599_999, 7_199_999)| == 5
  {
    var h := AllChecked(times);
    assert forall i :: 0 <= i < 6 ==> (3_599_999 <= h[i].time < 7_199_999 <==> 1 <= i);
    assert CheckedIn(h, 3_599_999, 7_199_999) == Range(1, 6);
  }
}
