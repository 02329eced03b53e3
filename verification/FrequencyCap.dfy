/** Frequency caps (src/compliance/frequency-cap): fixed-window counters per user,
    channel and category, and a cooldown per event type. */
module FrequencyCap {
  import opened Redis
  import opened Events
  import opened FixedWindow

  datatype Key =
    | GlobalDaily(user: string)
    | ChannelDaily(user: string, channel: Channel)
    | CategoryHourly(user: string, category: Category)
    | TypeCooldown(user: string, event: EventType)

  const GLOBAL_DAILY_CAP := 12
  const CATEGORY_HOURLY_CAP := 3
  const DAY := 86_400_000
  const HOUR := 3_600_000
  const COOLDOWN := 900_000

  function ChannelCap(channel: Channel): int {
    match channel
    case Sms => 5
    case Push => 8
    case Email => 3
    case WhatsApp => 5
    case InApp => 20
    case Other(_) => 5
  }

  function Cap(key: Key): int {
    match key
    case GlobalDaily(_) => GLOBAL_DAILY_CAP
    case ChannelDaily(_, channel) => ChannelCap(channel)
    case CategoryHourly(_, _) => CATEGORY_HOURLY_CAP
    case TypeCooldown(_, _) => 1
  }

  function Window(key: Key): int {
    match key
    case GlobalDaily(_) => DAY
    case ChannelDaily(_, _) => DAY
    case CategoryHourly(_, _) => HOUR
    case TypeCooldown(_, _) => COOLDOWN
  }

  /** The dimensions in the order in which they are consulted, most specific first. */
  function Dimensions(user: string, event: EventType, channel: Channel): seq<Key> {
    [TypeCooldown(user, event), CategoryHourly(user, event.category),
     ChannelDaily(user, channel), GlobalDaily(user)]
  }

  /** CRITICAL events skip every dimension, mandated ones the cooldown and the channel cap. */
  predicate Exempt(event: EventType, key: Key) {
    || event in CRITICAL_EVENTS
    || (event in REGULATORY_MANDATORY_EVENTS && (key.TypeCooldown? || key.ChannelDaily?))
  }

  predicate Full(cells: map<Key, Cell<int>>, key: Key, now: int) {
    if key.TypeCooldown? then Live(At(cells, key), now) else Count(At(cells, key), now) >= Cap(key)
  }

  predicate Blocks(cells: map<Key, Cell<int>>, event: EventType, key: Key, now: int) {
    !Exempt(event, key) && Full(cells, key, now)
  }

  predicate Passes(cells: map<Key, Cell<int>>, user: string, event: EventType, channel: Channel, now: int) {
    forall k :: k in Dimensions(user, event, channel) ==> !Blocks(cells, event, k, now)
  }

  datatype CapCheck = Uncapped | Capped(key: Key)

  /** The counters one recorded send advances; only the first channel of an event counts the event. */
  function Touched(user: string, event: EventType, channel: Channel, countEvent: bool): set<Key> {
    {ChannelDaily(user, channel)} +
    if countEvent then {GlobalDaily(user), CategoryHourly(user, event.category), TypeCooldown(user, event)}
    else {}
  }

  function Advance(cell: Cell<int>, key: Key, now: int): Cell<int> {
    if key.TypeCooldown? then SetEx(1, now, Window(key)) else Incr(cell, now, Window(key))
  }

  function Record(cells: map<Key, Cell<int>>, user: string, event: EventType, channel: Channel,
                  countEvent: bool, now: int): map<Key, Cell<int>> {
    var touched := Touched(user, event, channel, countEvent);
    map k | k in cells.Keys + touched ::
      if k in touched then Advance(At(cells, k), k, now) else cells[k]
  }

  /** Fan-out records the channels in order, counting the event on the first of them. */
  function RecordAll(cells: map<Key, Cell<int>>, user: string, event: EventType, channels: seq<Channel>,
                     first: bool, now: int): map<Key, Cell<int>>
    decreases channels
  {
    if channels == [] then cells
    else RecordAll(Record(cells, user, event, channels[0], first, now), user, event, channels[1..], false, now)
  }

  function Passing(cells: map<Key, Cell<int>>, user: string, event: EventType, channels: seq<Channel>,
                   now: int): seq<Channel> {
    if channels == [] then []
    else
      (if Passes(cells, user, event, channels[0], now) then [channels[0]] else []) +
      Passing(cells, user, event, channels[1..], now)
  }

  lemma {:induction false} PassingAppend(cells: map<Key, Cell<int>>, user: string, event: EventType,
                                         a: seq<Channel>, c: Channel, now: int)
    ensures Passing(cells, user, event, a + [c], now)
         == Passing(cells, user, event, a, now) + if Passes(cells, user, event, c, now) then [c] else []
  {
    if a == [] {
      assert a + [c] == [c];
    } else {
      assert (a + [c])[1..] == a[1..] + [c];
      PassingAppend(cells, user, event, a[1..], c, now);
    }
  }

  predicate BelowChannelCap(n: int, channel: Channel) {
    && (channel in {Sms, WhatsApp} || channel.Other? ==> n < 5)
    && (channel == Push ==> n < 8)
    && (channel == Email ==> n < 3)
    && (channel == InApp ==> n < 20)
  }

  /** The caps in numbers, and who is exempt from which. */
  lemma PassesIff(cells: map<Key, Cell<int>>, user: string, event: EventType, channel: Channel, now: int)
    ensures Passes(cells, user, event, channel, now) <==>
              || event in CRITICAL_EVENTS
              || (&& Count(At(cells, CategoryHourly(user, event.category)), now) < 3
                  && Count(At(cells, GlobalDaily(user)), now) < 12
                  && (event !in REGULATORY_MANDATORY_EVENTS ==>
                        && !Live(At(cells, TypeCooldown(user, event)), now)
                        && BelowChannelCap(Count(At(cells, ChannelDaily(user, channel)), now), channel)))
  {
    var ds := Dimensions(user, event, channel);
    assert ds[0] in ds && ds[1] in ds && ds[2] in ds && ds[3] in ds;
  }

  lemma EventCounted(cells: map<Key, Cell<int>>, user: string, event: EventType, channel: Channel, now: int)
    ensures var all := Record(cells, user, event, channel, false, now)
              [GlobalDaily(user) := Incr(At(cells, GlobalDaily(user)), now, DAY)]
              [CategoryHourly(user, event.category) := Incr(At(cells, CategoryHourly(user, event.category)), now, HOUR)]
              [TypeCooldown(user, event) := SetEx(1, now, COOLDOWN)];
            all == Record(cells, user, event, channel, true, now)
  {
  }

  class FrequencyCapService {
    const redis: Counters<Key>

    constructor ()
      ensures fresh(redis) && redis.cells == map[]
    {
      redis := new Counters();
    }

    /** Stops at the first dimension that blocks. */
    method Check(user: string, event: EventType, channel: Channel, now: int) returns (r: CapCheck)
      ensures r.Uncapped? <==> Passes(redis.cells, user, event, channel, now)
      ensures r.Capped? ==>
                exists i :: 0 <= i < 4 &&
                  var ds := Dimensions(user, event, channel);
                  && r.key == ds[i] && Blocks(redis.cells, event, ds[i], now)
                  && forall j :: 0 <= j < i ==> !Blocks(redis.cells, event, ds[j], now)
    {
      if event in CRITICAL_EVENTS { return Uncapped; }
      var mandated := event in REGULATORY_MANDATORY_EVENTS;
      ghost var ds := Dimensions(user, event, channel);
      if !mandated {
        var cooldown := redis.Get(TypeCooldown(user, event), now);
        if cooldown.Some? {
          assert Blocks(redis.cells, event, ds[0], now);
          return Capped(TypeCooldown(user, event));
        }
      }
      assert !Blocks(redis.cells, event, ds[0], now);
      var category := redis.Get(CategoryHourly(user, event.category), now);
      if category.Some? && category.value >= CATEGORY_HOURLY_CAP {
        assert Blocks(redis.cells, event, ds[1], now);
        return Capped(CategoryHourly(user, event.category));
      }
      assert !Blocks(redis.cells, event, ds[1], now);
      if !mandated {
        var channelCount := redis.Get(ChannelDaily(user, channel), now);
        if channelCount.Some? && channelCount.value >= ChannelCap(channel) {
          assert Blocks(redis.cells, event, ds[2], now);
          return Capped(ChannelDaily(user, channel));
        }
      }
      assert !Blocks(redis.cells, event, ds[2], now);
      var global := redis.Get(GlobalDaily(user), now);
      if global.Some? && global.value >= GLOBAL_DAILY_CAP {
        assert Blocks(redis.cells, event, ds[3], now);
        return Capped(GlobalDaily(user));
      }
      assert !Blocks(redis.cells, event, ds[3], now);
      return Uncapped;
    }

    method RecordSend(user: string, event: EventType, channel: Channel, countEvent: bool, now: int)
      modifies redis
      ensures redis.cells == Record(old(redis.cells), user, event, channel, countEvent, now)
    {
      ghost var before := redis.cells;
      var _ := redis.Increment(ChannelDaily(user, channel), now, DAY);
      assert redis.cells == Record(before, user, event, channel, false, now);
      if countEvent {
        var _ := redis.Increment(GlobalDaily(user), now, DAY);
        var _ := redis.Increment(CategoryHourly(user, event.category), now, HOUR);
        redis.Put(TypeCooldown(user, event), 1, now, COOLDOWN);
        EventCounted(before, user, event, channel, now);
      }
    }

    /** Routing checks every candidate channel, then fan-out records those that are left. */
    method Admit(user: string, event: EventType, channels: seq<Channel>, now: int)
      returns (passed: seq<Channel>)
      modifies redis
      ensures passed == Passing(old(redis.cells), user, event, channels, now)
      ensures redis.cells == RecordAll(old(redis.cells), user, event, passed, true, now)
    {
      passed := [];
      for i := 0 to |channels|
        invariant redis.cells == old(redis.cells)
        invariant passed == Passing(redis.cells, user, event, channels[..i], now)
      {
        var verdict := Check(user, event, channels[i], now);
        PassingAppend(redis.cells, user, event, channels[..i], channels[i], now);
        assert channels[..i + 1] == channels[..i] + [channels[i]];
        if verdict.Uncapped? { passed := passed + [channels[i]]; }
      }
      assert channels[..|channels|] == channels;
      for i := 0 to |passed|
        invariant RecordAll(redis.cells, user, event, passed[i..], i == 0, now)
               == RecordAll(old(redis.cells), user, event, passed, true, now)
      {
        assert passed[i..][1..] == passed[i + 1..];
        RecordSend(user, event, passed[i], i == 0, now);
      }
    }
  }

  // ---- Whole runs ----

  /** One event fanned out. Deferred releases and digests are recorded without a check. */
  datatype Step = Step(user: string, event: EventType, channels: seq<Channel>, now: int, checked: bool)

  function Accepted(cells: map<Key, Cell<int>>, s: Step): seq<Channel> {
    if s.checked then Passing(cells, s.user, s.event, s.channels, s.now) else s.channels
  }

  function Run(steps: seq<Step>): map<Key, Cell<int>> {
    if steps == [] then map[]
    else
      var s := steps[|steps| - 1];
      Next(Run(steps[..|steps| - 1]), s)
  }

  predicate Reaches(s: Step, accepted: seq<Channel>, key: Key) {
    match key
    case GlobalDaily(user) => user == s.user && accepted != []
    case CategoryHourly(user, category) => user == s.user && category == s.event.category && accepted != []
    case ChannelDaily(user, channel) => user == s.user && channel in accepted
    case TypeCooldown(user, event) => user == s.user && event == s.event && accepted != []
  }

  /** Every event that advanced `key`, in order, and whether the check of `key` had let it through. */
  function Hits(steps: seq<Step>, key: Key): seq<Hit> {
    if steps == [] then []
    else
      var before := steps[..|steps| - 1];
      var s := steps[|steps| - 1];
      Hits(before, key) +
      if Reaches(s, Accepted(Run(before), s), key) then [Hit(s.now, s.checked && !Exempt(s.event, key))]
      else []
  }

  ghost predicate Distinct(channels: seq<Channel>) {
    forall i, j :: 0 <= i < j < |channels| ==> channels[i] != channels[j]
  }

  /** The clock never runs back, and no event names a channel twice. */
  ghost predicate WellTimed(steps: seq<Step>) {
    steps == [] ||
    var before, s := steps[..|steps| - 1], steps[|steps| - 1];
    && WellTimed(before)
    && Distinct(s.channels)
    && (before != [] ==> before[|before| - 1].now <= s.now)
  }

  lemma {:induction false} PassingDistinct(cells: map<Key, Cell<int>>, user: string, event: EventType,
                                           channels: seq<Channel>, now: int)
    requires Distinct(channels)
    ensures var p := Passing(cells, user, event, channels, now);
            && Distinct(p)
            && forall c :: c in p <==> c in channels && Passes(cells, user, event, c, now)
  {
    if channels != [] {
      assert forall c :: c in channels <==> c == channels[0] || c in channels[1..];
      PassingDistinct(cells, user, event, channels[1..], now);
    }
  }

  lemma {:induction false} RecordAllAt(cells: map<Key, Cell<int>>, user: string, event: EventType,
                                       channels: seq<Channel>, first: bool, now: int, key: Key)
    requires Distinct(channels)
    decreases channels
    ensures At(RecordAll(cells, user, event, channels, first, now), key)
         == if (key.ChannelDaily? && key.user == user && key.channel in channels) ||
               (first && channels != [] && key in Touched(user, event, channels[0], true))
            then Advance(At(cells, key), key, now) else At(cells, key)
  {
    if channels != [] {
      var next := Record(cells, user, event, channels[0], first, now);
      RecordAllAt(next, user, event, channels[1..], false, now, key);
      assert forall c :: c in channels <==> c == channels[0] || c in channels[1..];
    }
  }

  /** The counter is what its hits leave behind, and the checked ones came below the cap. */
  ghost predicate Follows(h: seq<Hit>, cell: Cell<int>, key: Key) {
    && cell == Replay(h, Window(key), |h|)
    && Respects(h, Window(key), Cap(key))
    && Ordered(h)
  }

  lemma FollowsHit(h: seq<Hit>, cell: Cell<int>, key: Key, hit: Hit)
    requires Follows(h, cell, key) && !key.TypeCooldown?
    requires h != [] ==> h[|h| - 1].time <= hit.time
    requires hit.checked ==> Count(cell, hit.time) < Cap(key)
    ensures Follows(h + [hit], Advance(cell, key, hit.time), key)
  {
    AppendHit(h, hit, Window(key), Cap(key));
  }

  lemma {:induction false} HitsAreOver(steps: seq<Step>, key: Key)
    requires WellTimed(steps)
    ensures var h := Hits(steps, key); h != [] ==> steps != [] && h[|h| - 1].time <= steps[|steps| - 1].now
  {
    if steps != [] { HitsAreOver(steps[..|steps| - 1], key); }
  }

  function Next(cells: map<Key, Cell<int>>, s: Step): map<Key, Cell<int>> {
    RecordAll(cells, s.user, s.event, Accepted(cells, s), true, s.now)
  }

  lemma CellAfterStep(cells: map<Key, Cell<int>>, s: Step, key: Key)
    requires Distinct(s.channels)
    ensures At(Next(cells, s), key)
         == if Reaches(s, Accepted(cells, s), key) then Advance(At(cells, key), key, s.now) else At(cells, key)
  {
    if s.checked { PassingDistinct(cells, s.user, s.event, s.channels, s.now); }
    RecordAllAt(cells, s.user, s.event, Accepted(cells, s), true, s.now, key);
  }

  lemma FollowsNext(h: seq<Hit>, cells: map<Key, Cell<int>>, s: Step, key: Key,
                    longer: seq<Hit>, next: map<Key, Cell<int>>)
    requires Follows(h, At(cells, key), key) && !key.TypeCooldown? && Distinct(s.channels)
    requires h != [] ==> h[|h| - 1].time <= s.now
    requires longer == h +
             if Reaches(s, Accepted(cells, s), key) then [Hit(s.now, s.checked && !Exempt(s.event, key))] else []
    requires next == Next(cells, s)
    ensures Follows(longer, At(next, key), key)
  {
    CellAfterStep(cells, s, key);
    if Reaches(s, Accepted(cells, s), key) {
      var hit := Hit(s.now, s.checked && !Exempt(s.event, key));
      if hit.checked { AdmittedBelowCap(cells, s, key); }
      FollowsHit(h, At(cells, key), key, hit);
    } else {
      assert longer == h;
    }
  }

  lemma LastTimed(steps: seq<Step>)
    requires steps != [] && WellTimed(steps)
    ensures WellTimed(steps[..|steps| - 1]) && Distinct(steps[|steps| - 1].channels)
    ensures |steps| > 1 ==> steps[|steps| - 2].now <= steps[|steps| - 1].now
  {
  }

  /** In every run each counter is the replay of its hits, and its hits respect its cap. */
  lemma {:induction false} CountersReplayHits(steps: seq<Step>, key: Key)
    requires WellTimed(steps) && !key.TypeCooldown?
    ensures Follows(Hits(steps, key), At(Run(steps), key), key)
  {
    if steps != [] {
      var before, s := steps[..|steps| - 1], steps[|steps| - 1];
      LastTimed(steps);
      CountersReplayHits(before, key);
      HitsAreOver(before, key);
      FollowsNext(Hits(before, key), Run(before), s, key, Hits(steps, key), Run(steps));
    }
  }

  lemma AdmittedBelowCap(cells: map<Key, Cell<int>>, s: Step, key: Key)
    requires Distinct(s.channels) && s.checked && !Exempt(s.event, key)
    requires Reaches(s, Accepted(cells, s), key) && !key.TypeCooldown?
    ensures Count(At(cells, key), s.now) < Cap(key)
  {
    PassingDistinct(cells, s.user, s.event, s.channels, s.now);
    var accepted := Accepted(cells, s);
    var c := if key.ChannelDaily? then key.channel else accepted[0];
    assert c in accepted;
    assert Passes(cells, s.user, s.event, c, s.now);
    assert key in Dimensions(s.user, s.event, c) by {
      var ds := Dimensions(s.user, s.event, c);
      assert key == ds[1] || key == ds[2] || key == ds[3];
    }
  }

  /** Over any run, with any mixture of unchecked sends, a rolling window holds at
      most 2 * cap - 1 events that the cap let through, and the life of one
      counter at most cap of them. */
  lemma RollingCaps(steps: seq<Step>, key: Key, from: int, opener: nat)
    requires WellTimed(steps) && !key.TypeCooldown?
    ensures |CheckedIn(Hits(steps, key), from, from + Window(key))| <= 2 * Cap(key) - 1
    ensures |CheckedOf(Hits(steps, key), Window(key), opener)| <= Cap(key)
  {
    CountersReplayHits(steps, key);
    RollingBound(Hits(steps, key), Window(key), Cap(key), from);
    LifetimeBound(Hits(steps, key), Window(key), Cap(key), opener);
  }

  /** 23 capped events in any 24 hours per user, 5 in any hour per category. */
  lemma RollingCapsInNumbers(steps: seq<Step>, user: string, category: Category, from: int)
    requires WellTimed(steps)
    ensures |CheckedIn(Hits(steps, GlobalDaily(user)), from, from + 86_400_000)| <= 23
    ensures |CheckedIn(Hits(steps, CategoryHourly(user, category)), from, from + 3_600_000)| <= 5
  {
    RollingCaps(steps, GlobalDaily(user), from, 0);
    RollingCaps(steps, CategoryHourly(user, category), from, 0);
  }

  /** Per channel and day: 9 by sms, WhatsApp or a channel without a cap of its own, 15 by
      push, 5 by email and 39 in-app. */
  lemma ChannelCapsInNumbers(steps: seq<Step>, user: string, channel: Channel, from: int)
    requires WellTimed(steps)
    ensures var most := |CheckedIn(Hits(steps, ChannelDaily(user, channel)), from, from + 86_400_000)|;
            && (channel in {Sms, WhatsApp} || channel.Other? ==> most <= 9)
            && (channel == Push ==> most <= 15)
            && (channel == Email ==> most <= 5)
            && (channel == InApp ==> most <= 39)
  {
    RollingCaps(steps, ChannelDaily(user, channel), from, 0);
  }

  lemma {:induction false} TimesGrow(steps: seq<Step>, i: nat)
    requires WellTimed(steps) && i < |steps|
    ensures steps[i].now <= steps[|steps| - 1].now
  {
    if i < |steps| - 1 { TimesGrow(steps[..|steps| - 1], i); }
  }

  lemma {:induction false} PrefixTimed(steps: seq<Step>, n: nat)
    requires WellTimed(steps) && n <= |steps|
    ensures WellTimed(steps[..n])
  {
    if n < |steps| {
      PrefixTimed(steps[..|steps| - 1], n);
      assert steps[..|steps| - 1][..n] == steps[..n];
    } else {
      assert steps[..n] == steps;
    }
  }

  ghost predicate Sent(steps: seq<Step>, i: nat)
    requires i < |steps|
  {
    Accepted(Run(steps[..i]), steps[i]) != []
  }

  /** Every send opens a cooldown of exactly fifteen minutes, replacing the one before. */
  lemma CooldownSet(steps: seq<Step>)
    requires steps != [] && WellTimed(steps) && Sent(steps, |steps| - 1)
    ensures var s := steps[|steps| - 1];
            At(Run(steps), TypeCooldown(s.user, s.event)) == Present(1, Some(s.now + 900_000))
  {
    var s := steps[|steps| - 1];
    LastTimed(steps);
    CellAfterStep(Run(steps[..|steps| - 1]), s, TypeCooldown(s.user, s.event));
  }

  ghost predicate CoolsUntil(cells: map<Key, Cell<int>>, key: Key, until: int) {
    var cell := At(cells, key);
    cell.Present? && cell.expiry.Some? && cell.expiry.value >= until
  }

  lemma {:induction false} CooldownSince(steps: seq<Step>, i: nat, key: Key)
    requires WellTimed(steps) && i < |steps| && key == TypeCooldown(steps[i].user, steps[i].event)
    requires Sent(steps, i)
    ensures CoolsUntil(Run(steps), key, steps[i].now + COOLDOWN)
  {
    var before, s := steps[..|steps| - 1], steps[|steps| - 1];
    if i == |before| {
      CooldownSet(steps);
    } else {
      assert before[..i] == steps[..i];
      assert Sent(before, i);
      CooldownSince(before, i, key);
      TimesGrow(steps, i);
      LastTimed(steps);
      CooldownStays(Run(before), s, key, steps[i].now + COOLDOWN);
    }
  }

  lemma CooldownStays(cells: map<Key, Cell<int>>, s: Step, key: Key, until: int)
    requires key.TypeCooldown? && CoolsUntil(cells, key, until) && until <= s.now + COOLDOWN && Distinct(s.channels)
    ensures CoolsUntil(Next(cells, s), key, until)
  {
    CellAfterStep(cells, s, key);
  }

  lemma CooldownBlocks(cells: map<Key, Cell<int>>, s: Step)
    requires Distinct(s.channels) && s.checked && Accepted(cells, s) != []
    requires s.event !in REGULATORY_MANDATORY_EVENTS && s.event !in CRITICAL_EVENTS
    ensures !Live(At(cells, TypeCooldown(s.user, s.event)), s.now)
  {
    PassingDistinct(cells, s.user, s.event, s.channels, s.now);
    var c := Accepted(cells, s)[0];
    assert Passes(cells, s.user, s.event, c, s.now);
    var key := Dimensions(s.user, s.event, c)[0];
    assert !Blocks(cells, s.event, key, s.now);
  }

  /** A checked, non-exempt event comes at least 15 minutes after every earlier
      send of the same type to the same user. */
  lemma CooldownGap(steps: seq<Step>, i: nat, j: nat)
    requires WellTimed(steps) && i < j < |steps|
    requires steps[i].user == steps[j].user && steps[i].event == steps[j].event
    requires Sent(steps, i) && Sent(steps, j)
    requires steps[j].checked
    requires steps[j].event !in REGULATORY_MANDATORY_EVENTS && steps[j].event !in CRITICAL_EVENTS
    ensures steps[j].now >= steps[i].now + 900_000
  {
    PrefixTimed(steps, j);
    DistinctAt(steps, j);
    SentBefore(steps, i, j);
    GapAfter(steps[..j], i, steps[j]);
  }

  lemma {:induction false} DistinctAt(steps: seq<Step>, j: nat)
    requires WellTimed(steps) && j < |steps|
    ensures Distinct(steps[j].channels)
  {
    if j < |steps| - 1 { DistinctAt(steps[..|steps| - 1], j); }
  }

  lemma SentBefore(steps: seq<Step>, i: nat, j: nat)
    requires i < j <= |steps|
    ensures Sent(steps[..j], i) == Sent(steps, i)
  {
    assert steps[..j][..i] == steps[..i];
  }

  lemma GapAfter(before: seq<Step>, i: nat, s: Step)
    requires WellTimed(before) && i < |before| && Sent(before, i) && Distinct(s.channels)
    requires before[i].user == s.user && before[i].event == s.event
    requires s.checked && Accepted(Run(before), s) != []
    requires s.event !in REGULATORY_MANDATORY_EVENTS && s.event !in CRITICAL_EVENTS
    ensures s.now >= before[i].now + COOLDOWN
  {
    CooldownSince(before, i, TypeCooldown(s.user, s.event));
    CooldownBlocks(Run(before), s);
  }
}
