/** Choosing and ranking channels (src/notifications/routing/routing-engine.service.ts). */
module Routing {
  import opened Redis
  import opened Events
  import opened Preferences
  import opened FrequencyCap
  import QuietHours

  datatype Reason = CapReached | InQuietHours

  datatype Suppressed = Suppressed(channel: Channel, reason: Reason)

  datatype Decision = Decision(
    channels: seq<Channel>, suppressed: seq<Suppressed>, quietUntil: Option<int>,
    digest: Option<DigestMode>, regulatory: bool)

  // ---- Scoring ----

  function DeliveryRate(c: Channel): real {
    match c
    case Sms => 0.97
    case Email => 0.9
    case Push => 0.7
    case WhatsApp => 0.93
    case InApp => 0.99
    case Other(_) => 0.5
  }

  function CostPaisa(c: Channel): real {
    match c
    case Sms => 20.0
    case Email => 3.0
    case Push => 0.0
    case WhatsApp => 55.0
    case InApp => 0.0
    case Other(_) => 100.0
  }

  function Score(c: Channel, e: EventType, p: Priority): real {
    (if e in CRITICAL_EVENTS then 1000.0 else 0.0)
    + (if (p == Critical || p == High) && (c == Sms || c == Push) then 400.0 else 200.0)
    + DeliveryRate(c) * 300.0
    + (1.0 - CostPaisa(c) / 300.0) * 200.0
  }

  function Scorer(e: EventType, p: Priority): Channel -> real {
    c => Score(c, e, p)
  }

  /** A stable sort, highest score first: `x` goes behind everything that scores as much. */
  function Insert<T>(ranked: seq<T>, x: T, score: T -> real): seq<T> {
    if ranked == [] then [x]
    else if score(ranked[0]) >= score(x) then [ranked[0]] + Insert(ranked[1..], x, score)
    else [x] + ranked
  }

  function Sorted<T>(items: seq<T>, score: T -> real): seq<T> {
    if items == [] then [] else Insert(Sorted(items[..|items| - 1], score), items[|items| - 1], score)
  }

  function Ranked(channels: seq<Channel>, e: EventType, p: Priority): seq<Channel> {
    Sorted(channels, Scorer(e, p))
  }

  predicate Descending<T>(ranked: seq<T>, score: T -> real) {
    forall i, j :: 0 <= i < j < |ranked| ==> score(ranked[i]) >= score(ranked[j])
  }

  lemma {:induction false} InsertPermutes<T>(ranked: seq<T>, x: T, score: T -> real)
    ensures multiset(Insert(ranked, x, score)) == multiset(ranked) + multiset{x}
  {
    if ranked != [] {
      InsertPermutes(ranked[1..], x, score);
      assert ranked == [ranked[0]] + ranked[1..];
    }
  }

  /** Nothing in the list scores more than `top`. */
  predicate Below<T>(ranked: seq<T>, top: real, score: T -> real) {
    forall i :: 0 <= i < |ranked| ==> score(ranked[i]) <= top
  }

  lemma {:induction false} InsertBelow<T>(ranked: seq<T>, x: T, top: real, score: T -> real)
    requires Below(ranked, top, score) && score(x) <= top
    ensures Below(Insert(ranked, x, score), top, score)
  {
    if ranked != [] { InsertBelow(ranked[1..], x, top, score); }
  }

  lemma {:induction false} InsertKeeps<T>(ranked: seq<T>, x: T, score: T -> real)
    requires Descending(ranked, score)
    ensures Descending(Insert(ranked, x, score), score)
  {
    if ranked != [] && score(ranked[0]) >= score(x) {
      InsertKeeps(ranked[1..], x, score);
      InsertBelow(ranked[1..], x, score(ranked[0]), score);
    }
  }

  lemma {:induction false} SortedSorts<T>(items: seq<T>, score: T -> real)
    ensures Descending(Sorted(items, score), score)
    ensures multiset(Sorted(items, score)) == multiset(items)
  {
    if items != [] {
      var before := items[..|items| - 1];
      SortedSorts(before, score);
      InsertKeeps(Sorted(before, score), items[|items| - 1], score);
      InsertPermutes(Sorted(before, score), items[|items| - 1], score);
      assert items == before + [items[|items| - 1]];
    }
  }

  /** Ranking reorders the channels by descending score and neither drops nor adds one. */
  lemma RankingIsASort(channels: seq<Channel>, e: EventType, p: Priority)
    ensures var r := Ranked(channels, e, p);
            && (forall i, j :: 0 <= i < j < |r| ==> Score(r[i], e, p) >= Score(r[j], e, p))
            && multiset(r) == multiset(channels)
            && (forall c :: c in r <==> c in channels)
  {
    var r := Ranked(channels, e, p);
    SortedSorts(channels, Scorer(e, p));
    forall i, j | 0 <= i < j < |r| ensures Score(r[i], e, p) >= Score(r[j], e, p) {
      assert Scorer(e, p)(r[i]) >= Scorer(e, p)(r[j]);
    }
    forall c ensures c in r <==> c in channels {
      assert c in r <==> c in multiset(r);
    }
  }

  /** No two channels ever score the same ... */
  lemma NoTies(a: Channel, b: Channel, e: EventType, p: Priority)
    requires a in ALL_CHANNELS && b in ALL_CHANNELS && a != b
    ensures Score(a, e, p) != Score(b, e, p)
  {
  }

  lemma BestFirst(a: seq<Channel>, b: seq<Channel>, e: EventType, p: Priority)
    requires a != [] && b != [] && multiset(a) == multiset(b) && Descending(a, Scorer(e, p))
    ensures Score(a[0], e, p) >= Score(b[0], e, p)
  {
    assert b[0] in multiset(a);
    var i :| 0 <= i < |a| && a[i] == b[0];
    assert Scorer(e, p)(a[0]) >= Scorer(e, p)(a[i]);
  }

  lemma SameRest(a: seq<Channel>, b: seq<Channel>)
    requires a != [] && b != [] && a[0] == b[0] && multiset(a) == multiset(b)
    ensures multiset(a[1..]) == multiset(b[1..])
  {
    assert a == [a[0]] + a[1..] && b == [b[0]] + b[1..];
    assert multiset(a[1..]) == multiset(a) - multiset{a[0]} && multiset(b[1..]) == multiset(b) - multiset{b[0]};
  }

  /** ... so there is only one way to rank them. */
  lemma {:induction false} RankingIsUnique(a: seq<Channel>, b: seq<Channel>, e: EventType, p: Priority)
    requires multiset(a) == multiset(b) && Distinct(a) && forall c :: c in a ==> c in ALL_CHANNELS
    requires Descending(a, Scorer(e, p)) && Descending(b, Scorer(e, p))
    ensures a == b
  {
    assert |a| == |multiset(a)| == |multiset(b)| == |b|;
    if a != [] {
      BestFirst(a, b, e, p);
      BestFirst(b, a, e, p);
      assert b[0] in multiset(a);
      if a[0] != b[0] { NoTies(a[0], b[0], e, p); }
      SameRest(a, b);
      assert a == [a[0]] + a[1..] && b == [b[0]] + b[1..];
      RankingIsUnique(a[1..], b[1..], e, p);
    }
  }

  /** Best first, whatever the event: only the urgency of the priority matters. */
  function Order(p: Priority): seq<Channel> {
    if p == Critical || p == High then [Sms, Push, InApp, Email, WhatsApp] else [InApp, Sms, Email, WhatsApp, Push]
  }

  lemma ScoresFall(e: EventType, p: Priority, i: nat, j: nat)
    requires i < j < |Order(p)|
    ensures Score(Order(p)[i], e, p) > Score(Order(p)[j], e, p)
  {
  }

  /** Of two ranked channels the one that stands first in this order comes first. */
  lemma RankingIsFixed(channels: seq<Channel>, e: EventType, p: Priority, a: nat, b: nat)
    requires Distinct(channels) && a < b < |Ranked(channels, e, p)|
    requires Ranked(channels, e, p)[a] in ALL_CHANNELS && Ranked(channels, e, p)[b] in ALL_CHANNELS
    ensures var r := Ranked(channels, e, p);
            exists i, j :: 0 <= i < j < |Order(p)| && Order(p)[i] == r[a] && Order(p)[j] == r[b]
  {
    var r, order := Ranked(channels, e, p), Order(p);
    RankingIsASort(channels, e, p);
    SortedDistinct(channels, r);
    assert order[0] in order && order[1] in order && order[2] in order && order[3] in order && order[4] in order;
    assert r[a] in order && r[b] in order;
    var i :| 0 <= i < |order| && order[i] == r[a];
    var j :| 0 <= j < |order| && order[j] == r[b];
    if j < i { ScoresFall(e, p, j, i); }
    assert r[a] != r[b];
  }

  lemma SortedDistinct(a: seq<Channel>, b: seq<Channel>)
    requires Distinct(a) && multiset(a) == multiset(b)
    ensures Distinct(b)
  {
    forall i, j | 0 <= i < j < |b| ensures b[i] != b[j] {
      if b[i] == b[j] {
        assert b == b[..i] + [b[i]] + b[i + 1..j] + [b[j]] + b[j + 1..];
        assert multiset(a)[b[i]] >= 2;
        Once(a, b[i]);
      }
    }
  }

  lemma {:induction false} Once(a: seq<Channel>, c: Channel)
    requires Distinct(a)
    ensures multiset(a)[c] <= 1
  {
    if a != [] {
      assert a == [a[0]] + a[1..];
      Once(a[1..], c);
      if c == a[0] { assert c !in a[1..]; }
    }
  }

  /** The regulatory weight goes to every channel of a CRITICAL event, so it never decides
      the order: that is the order of the other weights ... */
  lemma RegulatoryWeightIsUniform(a: Channel, b: Channel, critical: EventType, ordinary: EventType, p: Priority)
    requires critical in CRITICAL_EVENTS && ordinary !in CRITICAL_EVENTS
    ensures Score(a, critical, p) - Score(b, critical, p) == Score(a, ordinary, p) - Score(b, ordinary, p)
  {
  }

  predicate Urgent(p: Priority) {
    p == Critical || p == High
  }

  /** No channel of `b` outscores one the regulator asks for, whatever the candidates. */
  ghost predicate NeverOutscored(e: EventType, p: Priority) {
    forall a, b :: a in RegulatoryChannels(e) && b !in RegulatoryChannels(e) ==> Score(a, e, p) >= Score(b, e, p)
  }

  /** Only sms and push at an urgent priority stand above every other channel. */
  predicate SmsAndPushOnly(e: EventType) {
    e == Event(Risk, 1) || e == Event(Mktx, 2)
  }

  lemma CriticalMandates(e: EventType, c: Channel)
    requires e in CRITICAL_EVENTS
    ensures c in RegulatoryChannels(e) <==> c == Sms || c == Push || (c == Email && !SmsAndPushOnly(e))
  {
  }

  /** ... so "regulatory channels cannot be outscored" holds exactly for the two events that
      mandate only sms and push, at an urgent priority. */
  lemma OutscoringIff(e: EventType, p: Priority)
    requires e in CRITICAL_EVENTS
    ensures NeverOutscored(e, p) <==> SmsAndPushOnly(e) && Urgent(p)
  {
    forall c ensures c in RegulatoryChannels(e) <==> c == Sms || c == Push || (c == Email && !SmsAndPushOnly(e)) {
      CriticalMandates(e, c);
    }
    if SmsAndPushOnly(e) && Urgent(p) {
      forall a, b | a in RegulatoryChannels(e) && b !in RegulatoryChannels(e) ensures Score(a, e, p) >= Score(b, e, p) {
        assert Score(a, e, p) >= 1810.0 > Score(b, e, p);
      }
    } else if SmsAndPushOnly(e) {
      assert Score(InApp, e, p) > Score(Sms, e, p);
    } else {
      assert Score(InApp, e, p) > Score(Email, e, p);
    }
  }

  /** In the ranking, what the regulator asks for comes before everything else. */
  ghost predicate MandatedFirst(ranked: seq<Channel>, e: EventType) {
    forall i, j :: 0 <= i < j < |ranked| && ranked[j] in RegulatoryChannels(e) ==> ranked[i] in RegulatoryChannels(e)
  }

  /** For the channels of one event: which of the optional ones push a mandated one back. */
  predicate PushesBack(c: Channel, e: EventType, p: Priority) {
    if SmsAndPushOnly(e) then !Urgent(p) && (c == Email || c == WhatsApp || c == InApp)
    else c == InApp || (c == WhatsApp && !Urgent(p))
  }

  lemma PushedBackIff(b: Channel, e: EventType, p: Priority)
    requires e in CRITICAL_EVENTS && b !in RegulatoryChannels(e)
    ensures PushesBack(b, e, p) ==> exists a :: a in RegulatoryChannels(e) && Score(b, e, p) > Score(a, e, p)
    ensures !PushesBack(b, e, p) ==> forall a :: a in RegulatoryChannels(e) ==> Score(a, e, p) > Score(b, e, p)
  {
    CriticalMandates(e, b);
    if PushesBack(b, e, p) {
      var a := if b == InApp && !SmsAndPushOnly(e) then Email else Push;
      CriticalMandates(e, a);
      assert Score(b, e, p) > Score(a, e, p);
    } else {
      forall a | a in RegulatoryChannels(e) ensures Score(a, e, p) > Score(b, e, p) { CriticalMandates(e, a); }
    }
  }

  /** For a candidate list that holds all mandated channels, as every resolved one does: they
      come first in the ranking exactly if no candidate pushes one of them back. */
  lemma MandatedFirstIff(channels: seq<Channel>, e: EventType, p: Priority)
    requires e in CRITICAL_EVENTS && forall c :: c in RegulatoryChannels(e) ==> c in channels
    ensures MandatedFirst(Ranked(channels, e, p), e) <==>
            forall b :: b in channels && b !in RegulatoryChannels(e) ==> !PushesBack(b, e, p)
  {
    var r := Ranked(channels, e, p);
    RankingIsASort(channels, e, p);
    if b :| b in channels && b !in RegulatoryChannels(e) && PushesBack(b, e, p) {
      PushedBackInRanking(r, b, e, p);
    } else {
      forall i, j | 0 <= i < j < |r| && r[j] in RegulatoryChannels(e) ensures r[i] in RegulatoryChannels(e) {
        if r[i] !in RegulatoryChannels(e) { PushedBackIff(r[i], e, p); }
      }
    }
  }

  lemma PushedBackInRanking(r: seq<Channel>, b: Channel, e: EventType, p: Priority)
    requires e in CRITICAL_EVENTS && b in r && b !in RegulatoryChannels(e) && PushesBack(b, e, p)
    requires forall c :: c in RegulatoryChannels(e) ==> c in r
    requires forall i, j :: 0 <= i < j < |r| ==> Score(r[i], e, p) >= Score(r[j], e, p)
    ensures !MandatedFirst(r, e)
  {
    PushedBackIff(b, e, p);
    var a :| a in RegulatoryChannels(e) && Score(b, e, p) > Score(a, e, p);
    var i :| 0 <= i < |r| && r[i] == b;
    var j :| 0 <= j < |r| && r[j] == a;
    assert i < j;
  }

  /** For instance, in-app comes before a mandated sms at a medium priority. */
  lemma RegulatoryChannelIsOutscored()
    ensures InApp !in RegulatoryChannels(Event(Risk, 1)) && Sms in RegulatoryChannels(Event(Risk, 1))
    ensures Ranked([Sms, InApp], Event(Risk, 1), Medium) == [InApp, Sms]
  {
    assert [Sms, InApp][..1] == [Sms];
    assert [Sms][..0] == [];
    assert Ranked([Sms], Event(Risk, 1), Medium) == [Sms];
    assert Scorer(Event(Risk, 1), Medium)(InApp) > Scorer(Event(Risk, 1), Medium)(Sms);
  }

  // ---- Routing ----

  /** Neither CRITICAL nor mandated events are ever held back for a digest. */
  predicate Digestable(e: EventType) {
    e !in CRITICAL_EVENTS && e !in REGULATORY_MANDATORY_EVENTS
  }

  function Blocked(cells: map<Key, Cell<int>>, user: string, e: EventType, channels: seq<Channel>, now: int)
    : seq<Suppressed>
  {
    if channels == [] then []
    else
      Blocked(cells, user, e, channels[..|channels| - 1], now) +
      if Passes(cells, user, e, channels[|channels| - 1], now) then []
          else [Suppressed(channels[|channels| - 1], CapReached)]
  }

  function Because(channels: seq<Channel>, reason: Reason): (r: seq<Suppressed>)
    ensures |r| == |channels| && forall i :: 0 <= i < |r| ==> r[i] == Suppressed(channels[i], reason)
  {
    seq(|channels|, i requires 0 <= i < |channels| => Suppressed(channels[i], reason))
  }

  function RouteFor(resolved: Resolved, cells: map<Key, Cell<int>>, user: string, e: EventType, p: Priority,
                  quiet: QuietHours.Check, now: int): Decision {
    var passing := Passing(cells, user, e, resolved.channels, now);
    if Digestable(e) && resolved.channels != [] && resolved.digest != Immediate then
      Decision([], [], None, Some(resolved.digest), false)
    else if passing != [] && e !in CRITICAL_EVENTS && quiet.Suppressed? then
      Decision([], Because(passing, InQuietHours), Some(quiet.deliverAt), None, RegulatoryChannels(e) != [])
    else
      Decision(Ranked(passing, e, p), Blocked(cells, user, e, resolved.channels, now), None, None,
          RegulatoryChannels(e) != [])
  }

  class RoutingEngineService {
    const preferences: PreferencesService
    const caps: FrequencyCapService
    const quietHours: QuietHours.QuietHoursService

    constructor (preferences: PreferencesService, caps: FrequencyCapService, quietHours: QuietHours.QuietHoursService)
      ensures this.preferences == preferences && this.caps == caps && this.quietHours == quietHours
    {
      this.preferences, this.caps, this.quietHours := preferences, caps, quietHours;
    }

    method CheckCaps(user: string, e: EventType, candidates: seq<Channel>, now: int)
      returns (after: seq<Channel>, suppressed: seq<Suppressed>)
      ensures after == Passing(caps.redis.cells, user, e, candidates, now)
      ensures suppressed == Blocked(caps.redis.cells, user, e, candidates, now)
    {
      after, suppressed := [], [];
      for i := 0 to |candidates|
        invariant after == Passing(caps.redis.cells, user, e, candidates[..i], now)
        invariant suppressed == Blocked(caps.redis.cells, user, e, candidates[..i], now)
      {
        var verdict := caps.Check(user, e, candidates[i], now);
        PassingAppend(caps.redis.cells, user, e, candidates[..i], candidates[i], now);
        assert candidates[..i + 1] == candidates[..i] + [candidates[i]];
        if verdict.Capped? {
          suppressed := suppressed + [Suppressed(candidates[i], CapReached)];
        } else {
          after := after + [candidates[i]];
        }
      }
      assert candidates[..|candidates|] == candidates;
    }

    /** `preferences` are those of `user`; `offset` is the user's time zone. */
    method Route(user: string, e: EventType, account: AccountType, p: Priority, offset: int, now: int, later: int,
                 order: seq<Row>)
      returns (d: Decision, ghost resolved: Resolved, ghost quiet: QuietHours.Check)
      requires IsOrder(order, preferences.rows)
      modifies preferences
      ensures preferences.State() == Warmed(old(preferences.State()), now, order)
      ensures resolved.channels == Channels(preferences.cache.value, e, account)
      ensures resolved.digest == if Live(preferences.cache, later) then DigestFor(preferences.cache.value, e)
          else Immediate
      ensures var clock := QuietHours.User(offset, preferences.quietStart, preferences.quietEnd);
              && (quiet.Suppressed? <==> QuietHours.Quiet(now, clock))
              && (quiet.Suppressed? ==> QuietHours.EndsWindow(now, offset, clock.quietEnd, quiet.deliverAt))
      ensures d == RouteFor(resolved, caps.redis.cells, user, e, p, quiet, now)
    {
      var settings := preferences.Resolve(e, account, now, later, order);
      resolved := settings;
      var clock := QuietHours.User(offset, preferences.quietStart, preferences.quietEnd);
      var window := quietHours.CheckWindow(Some(clock), now);
      quiet := window;
      var candidates := settings.channels;
      if Digestable(e) && candidates != [] && settings.digest != Immediate {
        return Decision([], [], None, Some(settings.digest), false), resolved, quiet;
      }
      var after, suppressed := CheckCaps(user, e, candidates, now);
      if after != [] && e !in CRITICAL_EVENTS && window.Suppressed? {
        d := Decision([], Because(after, InQuietHours), Some(window.deliverAt), None, RegulatoryChannels(e) != []);
        return;
      }
      d := Decision(Ranked(after, e, p), suppressed, None, None, RegulatoryChannels(e) != []);
    }
  }

  lemma {:induction false} PassingElements(cells: map<Key, Cell<int>>, user: string, e: EventType,
      channels: seq<Channel>, now: int)
    ensures forall c :: c in Passing(cells, user, e, channels, now) <==> c in channels && Passes(cells, user, e, c, now)
  {
    if channels != [] {
      PassingElements(cells, user, e, channels[1..], now);
      assert forall c :: c in channels <==> c == channels[0] || c in channels[1..];
    }
  }

  lemma {:induction false} BlockedElements(cells: map<Key, Cell<int>>, user: string, e: EventType,
      channels: seq<Channel>, now: int)
    ensures forall s :: s in Blocked(cells, user, e, channels, now) <==>
                        s.reason == CapReached && s.channel in channels && !Passes(cells, user, e, s.channel, now)
  {
    if channels != [] {
      BlockedElements(cells, user, e, channels[..|channels| - 1], now);
      assert forall c :: c in channels <==> c == channels[|channels| - 1] || c in channels[..|channels| - 1];
    }
  }

  /** Unless quiet hours hold the event, every wanted channel is either sent to or recorded
      as suppressed, never both; in quiet hours the capped ones leave no record. */
  lemma EveryChannelAccountedFor(resolved: Resolved, cells: map<Key, Cell<int>>, user: string, e: EventType,
                                 p: Priority, quiet: QuietHours.Check, now: int, c: Channel)
    requires c in resolved.channels
    ensures var d := RouteFor(resolved, cells, user, e, p, quiet, now);
            && (d.digest.None? && d.quietUntil.None? ==>
                  (c in d.channels <==> Passes(cells, user, e, c, now))
                  && (Suppressed(c, CapReached) in d.suppressed <==> !Passes(cells, user, e, c, now)))
            && (d.quietUntil.Some? ==>
                  d.channels == []
                  && (Suppressed(c, InQuietHours) in d.suppressed <==> Passes(cells, user, e, c, now))
                  && Suppressed(c, CapReached) !in d.suppressed)
            && (d.digest.Some? ==> Digestable(e))
  {
    var passing := Passing(cells, user, e, resolved.channels, now);
    PassingElements(cells, user, e, resolved.channels, now);
    BlockedElements(cells, user, e, resolved.channels, now);
    RankingIsASort(passing, e, p);
    var d := RouteFor(resolved, cells, user, e, p, quiet, now);
    if d.quietUntil.Some? {
      if c in passing {
        var i :| 0 <= i < |passing| && passing[i] == c;
        assert d.suppressed[i] == Suppressed(c, InQuietHours);
      }
    }
  }

  /** A CRITICAL event keeps all its channels: no digest, no cap, no quiet hours. */
  lemma CriticalIsNeverHeld(resolved: Resolved, cells: map<Key, Cell<int>>, user: string, e: EventType,
                            p: Priority, quiet: QuietHours.Check, now: int)
    requires e in CRITICAL_EVENTS
    ensures var d := RouteFor(resolved, cells, user, e, p, quiet, now);
            && d.digest.None? && d.quietUntil.None? && d.suppressed == []
            && multiset(d.channels) == multiset(resolved.channels)
            && forall c :: c in d.channels <==> c in resolved.channels
  {
    NothingIsCapped(cells, user, e, resolved.channels, now);
    RankingIsASort(resolved.channels, e, p);
  }

  lemma {:induction false} NothingIsCapped(cells: map<Key, Cell<int>>, user: string, e: EventType,
      channels: seq<Channel>, now: int)
    requires e in CRITICAL_EVENTS
    ensures Passing(cells, user, e, channels, now) == channels
    ensures Blocked(cells, user, e, channels, now) == []
    decreases |channels|
  {
    if channels != [] {
      var last := |channels| - 1;
      NothingIsCapped(cells, user, e, channels[..last], now);
      PassingAppend(cells, user, e, channels[..last], channels[last], now);
      assert channels == channels[..last] + [channels[last]];
    }
  }
}
