/** What becomes of one event (src/notifications/engine/notification-engine.service.ts):
    routing, template support, and send-time optimisation combined. */
module Pipeline {
  import opened Redis
  import opened Events
  import opened States
  import opened Routing
  import P = Preferences
  import F = FrequencyCap
  import SendTime
  import QuietHours

  datatype DuplicateCheck = Unique | DuplicateOf(existing: Option<string>)

  datatype Disposition =
    | Duplicate
    | AlreadyProcessed
    | NoUser
    | IntoDigest(mode: P.DigestMode)
    | Deferred(until: int, channels: seq<Channel>)
    | Unsent(counted: bool)              // `counted` ones go into the capped digest bucket
    | Delayed(until: int, channels: seq<Channel>)
    | FannedOut(channels: seq<Channel>)
  {
    predicate Ended() { Duplicate? || AlreadyProcessed? || NoUser? }
  }

  /** The channels for which the event has a template. */
  function Only(channels: seq<Channel>, supported: set<Channel>): (r: seq<Channel>)
    ensures forall c :: c in r <==> c in channels && c in supported
  {
    if channels == [] then []
    else Only(channels[..|channels| - 1], supported) +
         if channels[|channels| - 1] in supported then [channels[|channels| - 1]] else []
  }

  function HeldChannels(suppressed: seq<Suppressed>): (r: seq<Channel>)
    ensures forall c :: c in r <==> Suppressed(c, InQuietHours) in suppressed
  {
    if suppressed == [] then []
    else
      var last := suppressed[|suppressed| - 1];
      HeldChannels(suppressed[..|suppressed| - 1]) + if last.reason == InQuietHours then [last.channel] else []
  }

  function Disposed(d: Decision, supported: set<Channel>, now: int, sto: SendTime.Decision): Disposition {
    var channels := Only(d.channels, supported);
    var deferred := Only(HeldChannels(d.suppressed), supported);
    if d.digest.Some? then IntoDigest(d.digest.value)
    else if d.quietUntil.Some? && deferred != [] then Deferred(d.quietUntil.value, deferred)
    else if channels == [] then Unsent(d.suppressed != [])
    else if sto.Delay? then Delayed(now + sto.delay, channels)
    else FannedOut(channels)
  }

  /** A CRITICAL event is fanned out, by sms and by push as far as its template has them. */
  predicate CriticalGoes(r: Disposition, e: EventType, supported: set<Channel>) {
    e in CRITICAL_EVENTS && (Sms in supported || Push in supported) ==>
      && r.FannedOut?
      && (Sms in supported ==> Sms in r.channels)
      && (Push in supported ==> Push in r.channels)
  }

  function StatusOf(d: Disposition): Status
    requires !d.Ended()
  {
    match d
    case IntoDigest(_) => DigestPending
    case Deferred(_, _) => Quiet
    case Unsent(_) => Capped
    case Delayed(_, _) => Routed
    case FannedOut(_) => Routed
  }

  /** The status tells what became of the event. */
  predicate Leaves(d: Disposition, status: Status) {
    && (d.IntoDigest? <==> status == DigestPending)
    && (d.Deferred? <==> status == Quiet)
    && (d.Unsent? <==> status == Capped)
    && (d.Delayed? || d.FannedOut? <==> status == Routed)
  }

  function NewRow(user: string, e: EventType, p: Priority): Row {
    Row(user, e, Classify(e), Other("pending"), p, Created, 0, [], [], None)
  }

  class NotificationEngine {
    const routing: RoutingEngineService
    const states: StateService
    const sendTime: SendTime.SendTimeOptimizationService

    constructor (routing: RoutingEngineService, states: StateService, sendTime: SendTime.SendTimeOptimizationService)
      ensures this.routing == routing && this.states == states && this.sendTime == sendTime
    {
      this.routing, this.states, this.sendTime := routing, states, sendTime;
    }

    /** Template support, deferral and send-time optimisation, in this order. */
    method Settle(d: Decision, e: EventType, p: Priority, supported: set<Channel>, now: int, offset: int)
      returns (r: Disposition, ghost sto: SendTime.Decision)
      ensures r == Disposed(d, supported, now, sto)
      ensures sto.Delay? ==> !SendTime.Bypasses(e, p) && 0 < sto.delay <= SendTime.MAX_DELAY
    {
      sto := SendTime.Immediately(SendTime.PriorityBypass);
      var channels := Only(d.channels, supported);
      var deferred := Only(HeldChannels(d.suppressed), supported);
      if d.digest.Some? { return IntoDigest(d.digest.value), sto; }
      if d.quietUntil.Some? && deferred != [] { return Deferred(d.quietUntil.value, deferred), sto; }
      if channels == [] { return Unsent(d.suppressed != []), sto; }
      var decision := sendTime.Decide(e, p, now, offset);
      sto := decision;
      r := if decision.Delay? then Delayed(now + decision.delay, channels) else FannedOut(channels);
    }

    /** The disposition of what the preferences, caps, clock and reading habits say right now. */
    method Dispose(user: string, e: EventType, account: P.AccountType, p: Priority, supported: set<Channel>,
                   offset: int, now: int, later: int, order: seq<P.Row>)
      returns (r: Disposition, ghost resolved: P.Resolved, ghost quiet: QuietHours.Check, ghost sto: SendTime.Decision)
      requires P.IsOrder(order, routing.preferences.rows)
      modifies routing.preferences
      ensures r == Disposed(RouteFor(resolved, routing.caps.redis.cells, user, e, p, quiet, now), supported, now, sto)
      ensures routing.preferences.cache.Present?
      ensures resolved.channels == P.Channels(routing.preferences.cache.value, e, account)
      ensures quiet.Suppressed? ==>
                QuietHours.EndsWindow(now, offset, routing.preferences.quietEnd, quiet.deliverAt)
      ensures sto.Delay? ==> !SendTime.Bypasses(e, p) && 0 < sto.delay <= SendTime.MAX_DELAY
    {
      var d;
      d, resolved, quiet := routing.Route(user, e, account, p, offset, now, later, order);
      r, sto := Settle(d, e, p, supported, now, offset);
    }

    method DisposeLawfully(user: string, e: EventType, account: P.AccountType, p: Priority, supported: set<Channel>,
                           offset: int, now: int, later: int, order: seq<P.Row>)
      returns (r: Disposition)
      requires P.IsOrder(order, routing.preferences.rows)
      modifies routing.preferences
      ensures !r.Ended()
      ensures CriticalGoes(r, e, supported)
    {
      ghost var resolved, quiet, sto;
      r, resolved, quiet, sto := Dispose(user, e, account, p, supported, offset, now, later, order);
      Lawful(resolved, routing.preferences.cache.value, account, routing.caps.redis.cells, user, e, p, quiet,
             supported, now, sto);
    }

    /** The row is created here unless ingestion has done so already. */
    method Enter(id: string, user: string, e: EventType, p: Priority)
      modifies states.db
      ensures states.db.rows ==
                old(states.db.rows)[id :=
                  if id in old(states.db.rows) then old(states.db.rows)[id] else NewRow(user, e, p)]
    {
      var db := states.db;
      if id !in db.rows {
        db.rows := db.rows[id := Row(user, e, Classify(e), Other("pending"), p, Created, 0, [], [], None)];
      }
      assert db.rows == db.rows[id := db.rows[id]];
    }

    /** CREATED to ENRICHED to where the disposition leaves the event, each step checked. */
    method Advance(id: string, to: Status)
      requires id in states.db.rows && states.db.rows[id].status == Created
      requires to in {DigestPending, Quiet, Capped, Routed}
      modifies states.db
      ensures var was := old(states.db.rows)[id];
              && states.db.rows == old(states.db.rows)[id := Write(Write(was, Created, Enriched), Enriched, to)]
              && (IsPath(was.log, Created) ==> IsPath(states.db.rows[id].log, to))
    {
      ghost var was := states.db.rows[id];
      var enriched := states.Transition(id, Enriched);
      var moved := states.Transition(id, to);
      TwoSteps(was, to);
    }

    /** From the duplicate check to the status the event is left in; FanOut has what follows.
        `dup` is the answer of that check: a duplicate of another id ends here. An event that
        has moved on from CREATED is a redelivery. */
    method Process(id: string, user: string, e: EventType, account: P.AccountType, p: Priority, supported: set<Channel>,
                   offset: int, now: int, later: int, order: seq<P.Row>, dup: DuplicateCheck, userFound: bool)
      returns (r: Disposition)
      requires P.IsOrder(order, routing.preferences.rows)
      modifies states.db, routing.preferences
      ensures r.Duplicate? <==> dup.DuplicateOf? && dup.existing != Some(id)
      ensures r.AlreadyProcessed? <==>
                !r.Duplicate? && id in old(states.db.rows) && old(states.db.rows)[id].status != Created
      ensures r.NoUser? <==> !r.Duplicate? && !r.AlreadyProcessed? && !userFound
      ensures r.Ended() ==> states.db.rows == old(states.db.rows)
      ensures !r.Ended() ==>
                var was := if id in old(states.db.rows) then old(states.db.rows)[id] else NewRow(user, e, p);
                && states.db.rows ==
                     old(states.db.rows)[id := Write(Write(was, Created, Enriched), Enriched, StatusOf(r))]
                && (IsPath(was.log, Created) ==> IsPath(states.db.rows[id].log, states.db.rows[id].status))
      ensures !r.Ended() ==> Leaves(r, states.db.rows[id].status)
      ensures !r.Ended() ==> CriticalGoes(r, e, supported)
    {
      if dup.DuplicateOf? && dup.existing != Some(id) { return Duplicate; }
      if id in states.db.rows && states.db.rows[id].status != Created { return AlreadyProcessed; }
      if !userFound { return NoUser; }
      Enter(id, user, e, p);
      r := DisposeLawfully(user, e, account, p, supported, offset, now, later, order);
      Advance(id, StatusOf(r));
      assert states.db.rows[id].status == StatusOf(r);
      StatusTells(r);
    }
  }

  lemma StatusTells(d: Disposition)
    requires !d.Ended()
    ensures Leaves(d, StatusOf(d))
  {
  }

  /** What no disposition breaks: CRITICAL events go out by sms and push, only digestable ones
      wait for a digest, and every wait is for later. */
  lemma Lawful(resolved: P.Resolved, prefs: P.Cached, account: P.AccountType, cells: map<F.Key, Cell<int>>,
               user: string, e: EventType, p: Priority, quiet: QuietHours.Check, supported: set<Channel>,
               now: int, sto: SendTime.Decision)
    requires resolved.channels == P.Channels(prefs, e, account)
    requires sto.Delay? ==> !SendTime.Bypasses(e, p) && 0 < sto.delay <= SendTime.MAX_DELAY
    requires quiet.Suppressed? ==> now < quiet.deliverAt
    ensures var r := Disposed(RouteFor(resolved, cells, user, e, p, quiet, now), supported, now, sto);
            && !r.Ended()
            && CriticalGoes(r, e, supported)
            && (r.IntoDigest? ==> Digestable(e))
            && (r.Deferred? ==> e !in CRITICAL_EVENTS && r.channels != [] && now < r.until)
            && (r.Delayed? ==>
                !SendTime.Bypasses(e, p) && r.channels != [] && now < r.until <= now + SendTime.MAX_DELAY)
  {
    var d := RouteFor(resolved, cells, user, e, p, quiet, now);
    HoldsLawfully(resolved, cells, user, e, p, quiet, now);
    WaitsLawfully(d, e, p, supported, now, sto);
    if e in CRITICAL_EVENTS {
      CriticalGoesOut(resolved, prefs, account, cells, user, e, p, quiet, supported, now, sto);
    }
  }

  lemma HoldsLawfully(resolved: P.Resolved, cells: map<F.Key, Cell<int>>, user: string, e: EventType, p: Priority,
                      quiet: QuietHours.Check, now: int)
    ensures var d := RouteFor(resolved, cells, user, e, p, quiet, now);
            && (d.digest.Some? ==> Digestable(e))
            && (d.quietUntil.Some? ==> e !in CRITICAL_EVENTS)
            && (d.quietUntil.Some? ==> quiet.Suppressed? && d.quietUntil.value == quiet.deliverAt)
  {
  }

  lemma WaitsLawfully(d: Decision, e: EventType, p: Priority, supported: set<Channel>, now: int, sto: SendTime.Decision)
    requires d.quietUntil.Some? ==> now < d.quietUntil.value
    requires sto.Delay? ==> !SendTime.Bypasses(e, p) && 0 < sto.delay <= SendTime.MAX_DELAY
    ensures var r := Disposed(d, supported, now, sto);
            && !r.Ended()
            && (r.IntoDigest? ==> d.digest.Some?)
            && (r.Deferred? ==> d.quietUntil.Some? && r.channels != [] && now < r.until)
            && (r.Delayed? ==>
                  !SendTime.Bypasses(e, p) && r.channels != [] && now < r.until <= now + SendTime.MAX_DELAY)
  {
  }

  lemma TwoSteps(row: Row, to: Status)
    requires row.status == Created && to in {DigestPending, Quiet, Capped, Routed}
    ensures IsPath(row.log, Created) ==> IsPath(Write(Write(row, Created, Enriched), Enriched, to).log, to)
  {
    if IsPath(row.log, Created) {
      Step(row.log, Created, Enriched);
      Step(row.log + [Entry(Some(Created), Enriched)], Enriched, to);
    }
  }

  /** Sms and push are among the regulator's channels of every CRITICAL event. */
  lemma CriticalIsMandatedBySmsAndPush(e: EventType)
    requires e in CRITICAL_EVENTS
    ensures Sms in P.RegulatoryChannels(e) && Push in P.RegulatoryChannels(e)
  {
  }

  /** For every preference, cap, quiet-hours and engagement state, a CRITICAL event is
      fanned out at once, to every channel it wants that has a template; sms and push are
      always among the wanted. Without any template it is left unsent. */
  lemma CriticalGoesOut(resolved: P.Resolved, prefs: P.Cached, account: P.AccountType, cells: map<F.Key, Cell<int>>,
                        user: string, e: EventType, p: Priority, quiet: QuietHours.Check, supported: set<Channel>,
                        now: int, sto: SendTime.Decision)
    requires e in CRITICAL_EVENTS && resolved.channels == P.Channels(prefs, e, account)
    requires sto.Delay? ==> !SendTime.Bypasses(e, p)
    ensures var r := Disposed(RouteFor(resolved, cells, user, e, p, quiet, now), supported, now, sto);
            && Sms in resolved.channels && Push in resolved.channels
            && (r.FannedOut? <==> exists c :: c in resolved.channels && c in supported)
            && (r.FannedOut? ==> forall c :: c in r.channels <==> c in resolved.channels && c in supported)
            && (!r.FannedOut? ==> r == Unsent(false))
  {
    CriticalIsMandatedBySmsAndPush(e);
    P.RegulatoryChannelsSurvive(prefs, e, account, Sms);
    P.RegulatoryChannelsSurvive(prefs, e, account, Push);
    CriticalIsNeverHeld(resolved, cells, user, e, p, quiet, now);
    var d := RouteFor(resolved, cells, user, e, p, quiet, now);
    var channels := Only(d.channels, supported);
    if channels != [] {
      assert channels[0] in channels;
      assert channels[0] in resolved.channels && channels[0] in supported;
    }
  }

  predicate CanUse(cells: map<F.Key, Cell<int>>, user: string, e: EventType, channels: seq<Channel>,
                   supported: set<Channel>, now: int)
  {
    exists c :: c in channels && F.Passes(cells, user, e, c, now) && c in supported
  }

  /** The routing decision, by what is left to send on. */
  lemma RouteUsable(resolved: P.Resolved, cells: map<F.Key, Cell<int>>, user: string, e: EventType, p: Priority,
                    quiet: QuietHours.Check, supported: set<Channel>, now: int)
    ensures var d := RouteFor(resolved, cells, user, e, p, quiet, now);
            var held := e !in CRITICAL_EVENTS && quiet.Suppressed?;
            var usable := CanUse(cells, user, e, resolved.channels, supported, now);
            && (d.digest.Some? <==> Digestable(e) && resolved.channels != [] && resolved.digest != P.Immediate)
            && (d.digest.None? ==>
                  && (d.quietUntil.Some? && Only(HeldChannels(d.suppressed), supported) != [] <==> held && usable)
                  && (Only(d.channels, supported) != [] <==> !held && usable))
  {
    var passing := F.Passing(cells, user, e, resolved.channels, now);
    PassingElements(cells, user, e, resolved.channels, now);
    RankingIsASort(passing, e, p);
    HeldArePassing(passing);
    Usable(HeldChannels(Because(passing, InQuietHours)), supported, passing);
    Usable(Ranked(passing, e, p), supported, passing);
  }

  /** What sends an event where: a digest if its category asks for one and nothing forbids
      it, else quiet hours if any permitted channel is left to wait for, else out, now or at
      the user's best hour. */
  lemma DispositionIff(resolved: P.Resolved, cells: map<F.Key, Cell<int>>, user: string, e: EventType, p: Priority,
                       quiet: QuietHours.Check, supported: set<Channel>, now: int, sto: SendTime.Decision)
    ensures var r := Disposed(RouteFor(resolved, cells, user, e, p, quiet, now), supported, now, sto);
            var digests :=
              e !in REGULATORY_MANDATORY_EVENTS && resolved.channels != [] && resolved.digest != P.Immediate;
            var held := e !in CRITICAL_EVENTS && quiet.Suppressed?;
            var usable := CanUse(cells, user, e, resolved.channels, supported, now);
            && (r.IntoDigest? <==> digests)
            && (r.Deferred? <==> !digests && held && usable)
            && (r.Delayed? <==> !digests && !held && usable && sto.Delay?)
            && (r.FannedOut? <==> !digests && !held && usable && sto.Immediately?)
            && (r.Unsent? <==> !digests && !usable)
            && !r.Ended()
  {
    RouteUsable(resolved, cells, user, e, p, quiet, supported, now);
    ByDecision(RouteFor(resolved, cells, user, e, p, quiet, now), supported, now, sto);
  }

  /** `channels` are the wanted ones that no cap stops and that have a template. */
  ghost predicate AllUsable(channels: seq<Channel>, cells: map<F.Key, Cell<int>>, user: string, e: EventType,
                            wanted: seq<Channel>, supported: set<Channel>, now: int) {
    forall c :: c in channels <==> c in wanted && F.Passes(cells, user, e, c, now) && c in supported
  }

  /** And with what: the digest mode asked for, all the usable channels, at the end of the
      quiet window or the best hour; what is not sent counts as capped if anything but a
      missing template stopped a channel. */
  lemma DispositionContents(resolved: P.Resolved, cells: map<F.Key, Cell<int>>, user: string, e: EventType, p: Priority,
                            quiet: QuietHours.Check, supported: set<Channel>, now: int, sto: SendTime.Decision)
    ensures var r := Disposed(RouteFor(resolved, cells, user, e, p, quiet, now), supported, now, sto);
            var held := e !in CRITICAL_EVENTS && quiet.Suppressed?;
            && (r.IntoDigest? ==> r.mode == resolved.digest)
            && (r.Deferred? ==> quiet.Suppressed? && r.until == quiet.deliverAt)
            && (r.Delayed? ==> sto.Delay? && r.until == now + sto.delay)
            && (r.Deferred? || r.Delayed? || r.FannedOut? ==>
                  AllUsable(r.channels, cells, user, e, resolved.channels, supported, now))
            && (r.Unsent? ==>
                  (r.counted <==> exists c :: c in resolved.channels && (held || !F.Passes(cells, user, e, c, now))))
  {
    ContentsByDecision(RouteFor(resolved, cells, user, e, p, quiet, now), supported, now, sto);
    RouteContents(resolved, cells, user, e, p, quiet, now);
  }

  lemma ContentsByDecision(d: Decision, supported: set<Channel>, now: int, sto: SendTime.Decision)
    ensures var r := Disposed(d, supported, now, sto);
            && (r.IntoDigest? ==> d.digest == Some(r.mode))
            && (!r.IntoDigest? ==> d.digest.None?)
            && (r.Deferred? ==>
                  d.quietUntil == Some(r.until) && r.channels == Only(HeldChannels(d.suppressed), supported))
            && (r.Delayed? ==> sto.Delay? && r.until == now + sto.delay)
            && (r.Delayed? || r.FannedOut? ==> r.channels != [] && r.channels == Only(d.channels, supported))
            && (r.Unsent? ==> r.counted == (d.suppressed != []))
  {
  }

  lemma RouteContents(resolved: P.Resolved, cells: map<F.Key, Cell<int>>, user: string, e: EventType, p: Priority,
                      quiet: QuietHours.Check, now: int)
    ensures var d := RouteFor(resolved, cells, user, e, p, quiet, now);
            var held := e !in CRITICAL_EVENTS && quiet.Suppressed?;
            && (d.digest.Some? ==> d.digest.value == resolved.digest)
            && (d.quietUntil.Some? ==>
                  && quiet.Suppressed? && d.quietUntil.value == quiet.deliverAt && d.channels == []
                  && forall c :: c in HeldChannels(d.suppressed) <==>
                                   c in resolved.channels && F.Passes(cells, user, e, c, now))
            && (d.digest.None? && d.quietUntil.None? ==>
                  forall c :: c in d.channels <==> c in resolved.channels && F.Passes(cells, user, e, c, now))
            && (d.digest.None? ==>
                  (d.suppressed != [] <==>
                    exists c :: c in resolved.channels && (held || !F.Passes(cells, user, e, c, now))))
  {
    var passing := F.Passing(cells, user, e, resolved.channels, now);
    PassingElements(cells, user, e, resolved.channels, now);
    RankingIsASort(passing, e, p);
    HeldArePassing(passing);
    StoppedByCaps(cells, user, e, resolved.channels, now);
    if passing != [] { assert passing[0] in passing; }
  }

  lemma StoppedByCaps(cells: map<F.Key, Cell<int>>, user: string, e: EventType, channels: seq<Channel>, now: int)
    ensures Blocked(cells, user, e, channels, now) != [] <==>
              exists c :: c in channels && !F.Passes(cells, user, e, c, now)
  {
    var blocked := Blocked(cells, user, e, channels, now);
    BlockedElements(cells, user, e, channels, now);
    if blocked != [] {
      assert blocked[0] in blocked;
    }
    if c :| c in channels && !F.Passes(cells, user, e, c, now) {
      assert Suppressed(c, CapReached) in blocked;
    }
  }

  lemma ByDecision(d: Decision, supported: set<Channel>, now: int, sto: SendTime.Decision)
    ensures var r := Disposed(d, supported, now, sto);
            var waits := d.quietUntil.Some? && Only(HeldChannels(d.suppressed), supported) != [];
            var sends := Only(d.channels, supported) != [];
            && (r.IntoDigest? <==> d.digest.Some?)
            && (r.Deferred? <==> d.digest.None? && waits)
            && (r.Delayed? <==> d.digest.None? && !waits && sends && sto.Delay?)
            && (r.FannedOut? <==> d.digest.None? && !waits && sends && sto.Immediately?)
            && (r.Unsent? <==> d.digest.None? && !waits && !sends)
            && !r.Ended()
  {
  }

  lemma HeldArePassing(passing: seq<Channel>)
    ensures forall c :: c in HeldChannels(Because(passing, InQuietHours)) <==> c in passing
  {
    var held := Because(passing, InQuietHours);
    forall c | c in passing ensures Suppressed(c, InQuietHours) in held {
      var i :| 0 <= i < |passing| && passing[i] == c;
      assert held[i] == Suppressed(c, InQuietHours);
    }
  }

  lemma Usable(channels: seq<Channel>, supported: set<Channel>, same: seq<Channel>)
    requires forall c :: c in channels <==> c in same
    ensures Only(channels, supported) != [] <==> exists c :: c in same && c in supported
  {
    var r := Only(channels, supported);
    if r != [] { assert r[0] in r; }
  }
}
