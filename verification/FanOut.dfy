/** Fan-out (src/notifications/engine/notification-engine.service.ts) as the steps it takes in
    the world of the delivery workers: one row and one queued message per channel. */
module FanOut {
  import opened Redis
  import opened Events
  import opened States
  import opened Compliance
  import opened Delivery
  import opened DeliveryRuns
  import opened DeliveryPolicy
  import Pipeline
  import Routing
  import P = Preferences
  import F = FrequencyCap
  import SendTime
  import QuietHours

  /** Render, ROUTED to QUEUED, publish. */
  function RenderAndQueue(id: string, channel: Channel): seq<Op> {
    [Render(id, channel), Transition(id, Queued)]
  }

  /** The original row carries the first channel, a sibling row every further one. */
  function Carrier(id: string, siblings: seq<string>, i: nat): string
    requires i <= |siblings|
  {
    if i == 0 then id else siblings[i - 1]
  }

  function SiblingOf(row: Row, id: string, channel: Channel): Op {
    Create(id, row.user, row.event, row.classification, channel, row.priority, true)
  }

  function Steps(row: Row, id: string, siblings: seq<string>, channels: seq<Channel>): seq<Op>
    requires |channels| <= |siblings| + 1
  {
    if channels == [] then []
    else
      var last := |channels| - 1;
      Steps(row, id, siblings, channels[..last]) +
      (if last == 0 then [] else [SiblingOf(row, siblings[last - 1], channels[last])]) +
      RenderAndQueue(Carrier(id, siblings, last), channels[last])
  }

  /** A queued notification with its one message. */
  predicate QueuedFor(w: World, id: string, row: Row, channel: Channel) {
    && id in w.rows && w.rows[id].status == Queued && w.queue[id] == 1
    && w.rows[id].event == row.event && w.rows[id].user == row.user && w.rows[id].channel == channel
    && w.rows[id].priority == row.priority
  }

  lemma OneStep(ops: seq<Op>, a: Op)
    ensures Run(ops + [a]) == Apply(Run(ops), a)
  {
    assert (ops + [a])[..|ops|] == ops;
  }

  lemma TwoSteps(ops: seq<Op>, a: Op, b: Op)
    ensures Run(ops + [a, b]) == Apply(Apply(Run(ops), a), b)
  {
    OneStep(ops, a);
    OneStep(ops + [a], b);
    assert ops + [a] + [b] == ops + [a, b];
  }

  predicate Ready(w: World, id: string, channel: Channel) {
    && id in w.rows && w.rows[id].status == Routed && Idle(w, id)
    && (channel == Sms ==> w.rows[id].event.category != Digest)
  }

  lemma QueuedNow(w: World, id: string, channel: Channel)
    requires Ready(w, id, channel)
    ensures var t := Apply(Apply(w, Render(id, channel)), Transition(id, Queued));
            && t == MovedTo(Rendered(w, id, channel), id, Queued)
            && QueuedFor(t, id, w.rows[id], channel)
  {
    var rendered := Rendered(w, id, channel);
    assert Possible(rendered, Transition(id, Queued));
  }

  lemma QueuesOne(ops: seq<Op>, id: string, channel: Channel)
    requires Ready(Run(ops), id, channel)
    ensures var w, t := Run(ops), Run(ops + RenderAndQueue(id, channel));
            && QueuedFor(t, id, w.rows[id], channel)
            && t.rows.Keys == w.rows.Keys && t.retry == w.retry
            && forall x :: x != id ==> t.queue[x] == w.queue[x] && (x in w.rows ==> t.rows[x] == w.rows[x])
  {
    TwoSteps(ops, Render(id, channel), Transition(id, Queued));
    QueuedNow(Run(ops), id, channel);
  }

  lemma NewSibling(w: World, row: Row, id: string, channel: Channel)
    requires TokensKnown(w) && id !in w.rows
    requires channel == Sms ==> row.event.category != Digest
    requires row.event.category != Digest ==> row.classification == Classify(row.event)
    ensures var op := SiblingOf(row, id, channel);
            && Apply(w, op) == w.(rows := w.rows[id := NewRow(op)])
            && Ready(Apply(w, op), id, channel)
  {
    assert w.queue[id] == 0 && Slots(w.retry, id) == 0;
  }

  /** Ids a fan-out may use: the notification's own, and fresh ones for its siblings. */
  predicate FreshFor(w: World, id: string, siblings: seq<string>) {
    && (forall i :: 0 <= i < |siblings| ==> siblings[i] !in w.rows && siblings[i] != id)
    && (forall i, j :: 0 <= i < j < |siblings| ==> siblings[i] != siblings[j])
  }

  ghost predicate AllQueued(w: World, row: Row, id: string, siblings: seq<string>, channels: seq<Channel>)
    requires |channels| <= |siblings| + 1
  {
    forall i :: 0 <= i < |channels| ==> QueuedFor(w, Carrier(id, siblings, i), row, channels[i])
  }

  /** What of the world a fan-out leaves alone. */
  ghost predicate OthersKept(w: World, t: World, id: string, siblings: seq<string>, n: nat)
    requires n <= |siblings| + 1
  {
    && t.retry == w.retry
    && (forall x :: x != id && x !in siblings ==>
          t.queue[x] == w.queue[x] && (x in t.rows <==> x in w.rows) && (x in w.rows ==> t.rows[x] == w.rows[x]))
    && (forall j :: 0 <= j < |siblings| && j + 1 >= n ==> siblings[j] !in t.rows)
    && (n == 0 ==> t == w)
  }

  lemma FirstQueued(ops: seq<Op>, id: string, siblings: seq<string>, channels: seq<Channel>)
    requires |channels| == 1 && FreshFor(Run(ops), id, siblings) && Ready(Run(ops), id, channels[0])
    ensures var row := Run(ops).rows[id];
            var t := Run(ops + Steps(row, id, siblings, channels));
            && AllQueued(t, row, id, siblings, channels)
            && OthersKept(Run(ops), t, id, siblings, 1)
  {
    QueuesOne(ops, id, channels[0]);
    assert Steps(Run(ops).rows[id], id, siblings, channels[..0]) == [];
    assert Steps(Run(ops).rows[id], id, siblings, channels) == RenderAndQueue(id, channels[0]);
  }

  /** Every channel ends with exactly one carrier of this fan-out, queued once, with the
      event, user and priority of the original; nothing else moves. */
  lemma {:induction false} EveryChannelQueued(ops: seq<Op>, id: string, siblings: seq<string>, channels: seq<Channel>)
    requires |channels| <= |siblings| + 1 && id in Run(ops).rows && FreshFor(Run(ops), id, siblings)
    requires forall c :: c in channels ==> Ready(Run(ops), id, c)
    requires Run(ops).rows[id].event.category != Digest ==>
               Run(ops).rows[id].classification == Classify(Run(ops).rows[id].event)
    ensures var row := Run(ops).rows[id];
            var t := Run(ops + Steps(row, id, siblings, channels));
            && AllQueued(t, row, id, siblings, channels)
            && OthersKept(Run(ops), t, id, siblings, |channels|)
    decreases |channels|
  {
    var row := Run(ops).rows[id];
    if channels == [] {
      assert ops + [] == ops;
    } else {
      var last := |channels| - 1;
      EveryChannelQueued(ops, id, siblings, channels[..last]);
      var before := ops + Steps(row, id, siblings, channels[..last]);
      if last == 0 {
        FirstQueued(ops, id, siblings, channels);
      } else {
        NextSibling(ops, before, row, id, siblings, channels);
      }
    }
  }

  lemma SiblingQueued(before: seq<Op>, row: Row, sibling: string, channel: Channel)
    requires sibling !in Run(before).rows
    requires channel == Sms ==> row.event.category != Digest
    requires row.event.category != Digest ==> row.classification == Classify(row.event)
    ensures var w := Run(before);
            var t := Run(before + [SiblingOf(row, sibling, channel)] + RenderAndQueue(sibling, channel));
            && QueuedFor(t, sibling, row, channel)
            && t.rows.Keys == w.rows.Keys + {sibling} && t.retry == w.retry
            && forall x :: x != sibling ==> t.queue[x] == w.queue[x] && (x in w.rows ==> t.rows[x] == w.rows[x])
  {
    var op := SiblingOf(row, sibling, channel);
    PathInvHolds(before);
    NewSibling(Run(before), row, sibling, channel);
    OneStep(before, op);
    QueuesOne(before + [op], sibling, channel);
  }

  lemma NextSibling(ops: seq<Op>, before: seq<Op>, row: Row, id: string, siblings: seq<string>, channels: seq<Channel>)
    requires 1 < |channels| <= |siblings| + 1 && id in Run(ops).rows && row == Run(ops).rows[id]
    requires FreshFor(Run(ops), id, siblings)
    requires var last := |channels| - 1;
             && before == ops + Steps(row, id, siblings, channels[..last])
             && AllQueued(Run(before), row, id, siblings, channels[..last])
             && OthersKept(Run(ops), Run(before), id, siblings, last)
    requires forall c :: c in channels ==> c == Sms ==> row.event.category != Digest
    requires row.event.category != Digest ==> row.classification == Classify(row.event)
    ensures var t := Run(ops + Steps(row, id, siblings, channels));
            && AllQueued(t, row, id, siblings, channels)
            && OthersKept(Run(ops), t, id, siblings, |channels|)
  {
    var last := |channels| - 1;
    var sibling, channel := siblings[last - 1], channels[last];
    var op := SiblingOf(row, sibling, channel);
    assert channel in channels;
    assert ops + Steps(row, id, siblings, channels) == before + [op] + RenderAndQueue(sibling, channel);
    SiblingQueued(before, row, sibling, channel);
    var t := Run(ops + Steps(row, id, siblings, channels));
    NextOne(Run(ops), Run(before), t, row, id, siblings, channels);
  }

  /** One more carrier: the last sibling, and everything else as it was. */
  lemma NextOne(start: World, w: World, t: World, row: Row, id: string, siblings: seq<string>, channels: seq<Channel>)
    requires 1 < |channels| <= |siblings| + 1 && FreshFor(start, id, siblings)
    requires AllQueued(w, row, id, siblings, channels[..|channels| - 1])
    requires OthersKept(start, w, id, siblings, |channels| - 1)
    requires var sibling := siblings[|channels| - 2];
             && QueuedFor(t, sibling, row, channels[|channels| - 1])
             && t.rows.Keys == w.rows.Keys + {sibling} && t.retry == w.retry
             && forall x :: x != sibling ==> t.queue[x] == w.queue[x] && (x in w.rows ==> t.rows[x] == w.rows[x])
    ensures AllQueued(t, row, id, siblings, channels) && OthersKept(start, t, id, siblings, |channels|)
  {
    var last := |channels| - 1;
    forall i | 0 <= i < |channels| ensures QueuedFor(t, Carrier(id, siblings, i), row, channels[i]) {
      if i < last {
        assert QueuedFor(w, Carrier(id, siblings, i), row, channels[..last][i]);
      }
    }
    forall j | 0 <= j < |siblings| && j + 1 >= |channels| ensures siblings[j] !in t.rows {
      assert siblings[j] !in w.rows;
    }
  }

  // ---- From there to the provider ----

  /** Once queued, a notification never comes back to where its channel is chosen. */
  predicate PastRouting(s: Status) {
    s !in {Created, Enriched, Quiet, Routed}
  }

  predicate StillItself(w: World, id: string, row: Row, channel: Channel) {
    && id in w.rows && PastRouting(w.rows[id].status) && w.rows[id].channel == channel
    && w.rows[id].event == row.event && w.rows[id].user == row.user
  }

  lemma RoundKeepsItself(w: World, id: string, env: Env, x: string, row: Row, channel: Channel)
    requires PathInv(w) && w.queue[id] > 0 && StillItself(w, x, row, channel)
    ensures StillItself(Handled(w, id, env), x, row, channel)
  {
    assert TokenOk(w, id);
    var found, verdict := HandlingIsARound(w, id, env);
    if x == id { RowAfterKeeps(found, verdict, env); }
  }

  lemma RowAfterKeeps(row: Row, verdict: Verdict, env: Env)
    requires row.status == Queued && Justified(row, verdict, env)
    ensures var after := RowAfter(row, verdict);
            && PastRouting(after.status) && after.channel == row.channel
            && after.event == row.event && after.user == row.user
  {
  }

  lemma PastStaysPast(from: Status, to: Status)
    requires PastRouting(from) && IsValidTransition(from, to)
    ensures PastRouting(to)
  {
  }

  lemma MoveKeepsItself(w: World, id: string, to: Status, x: string, row: Row, channel: Channel)
    requires Possible(w, Transition(id, to)) && StillItself(w, x, row, channel)
    ensures StillItself(MovedTo(w, id, to), x, row, channel)
  {
    if x == id { PastStaysPast(w.rows[id].status, to); }
  }

  lemma RequeueKeepsItself(w: World, slot: Slot, x: string, row: Row, channel: Channel)
    requires slot.id in w.rows && StillItself(w, x, row, channel)
    ensures StillItself(Requeued(w, slot), x, row, channel)
  {
  }

  lemma FoldKeepsItself(w: World, id: string, x: string, row: Row, channel: Channel)
    requires id in w.rows && StillItself(w, x, row, channel)
    ensures StillItself(Folded(w, id), x, row, channel)
  {
  }

  lemma StepKeepsItself(w: World, op: Op, x: string, row: Row, channel: Channel)
    requires PathInv(w) && StillItself(w, x, row, channel)
    ensures StillItself(Apply(w, op), x, row, channel)
  {
    if Possible(w, op) {
      match op {
        case Deliver(id, env) => RoundKeepsItself(w, id, env, x, row, channel);
        case Transition(id, to) => MoveKeepsItself(w, id, to, x, row, channel);
        case Requeue(slot) => RequeueKeepsItself(w, slot, x, row, channel);
        case Fold(id) => FoldKeepsItself(w, id, x, row, channel);
        case Render(id, c) => assert x != id;
        case _ =>
      }
    }
  }

  lemma {:induction false} RunKeepsItself(ops: seq<Op>, more: seq<Op>, x: string, row: Row, channel: Channel)
    requires StillItself(Run(ops), x, row, channel)
    ensures StillItself(Run(ops + more), x, row, channel)
    decreases |more|
  {
    if more == [] {
      assert ops + more == ops;
    } else {
      var shorter := more[..|more| - 1];
      RunKeepsItself(ops, shorter, x, row, channel);
      PathInvHolds(ops + shorter);
      assert (ops + more)[..|ops + more| - 1] == ops + shorter;
      StepKeepsItself(Run(ops + shorter), more[|more| - 1], x, row, channel);
    }
  }

  function IndexOf(channels: seq<Channel>, c: Channel): (i: nat)
    requires c in channels
    ensures i < |channels| && channels[i] == c
  {
    if channels[0] == c then 0 else IndexOf(channels[1..], c) + 1
  }

  /** End to end. A CRITICAL event, whatever the preferences, caps, quiet hours and engagement,
      is fanned out to sms and push if its template has them; the carrier of each is queued;
      and when a worker handles that message, whatever happened in between to consent,
      registry and everything else, it calls the channel's provider. */
  lemma CriticalEndToEnd(resolved: P.Resolved, prefs: P.Cached, account: P.AccountType, cells: map<F.Key, Cell<int>>,
                         user: string, e: EventType, p: Priority, quiet: QuietHours.Check, supported: set<Channel>,
                         now: int, sto: SendTime.Decision, c: Channel,
                         ops: seq<Op>, id: string, siblings: seq<string>, more: seq<Op>, env: Env)
    requires e in CRITICAL_EVENTS && resolved.channels == P.Channels(prefs, e, account)
    requires sto.Delay? ==> !SendTime.Bypasses(e, p)
    requires c in {Sms, Push} && c in supported
    requires Disposition(resolved, cells, user, e, p, quiet, supported, now, sto).FannedOut? ==>
               |Disposition(resolved, cells, user, e, p, quiet, supported, now, sto).channels| <= |siblings| + 1
    requires id in Run(ops).rows && Run(ops).rows[id].event == e && Run(ops).rows[id].status == Routed
    requires Idle(Run(ops), id) && FreshFor(Run(ops), id, siblings)
    requires env.contactFound && !env.primary.CircuitOpen?
    ensures var r := Disposition(resolved, cells, user, e, p, quiet, supported, now, sto);
            && r.FannedOut? && c in r.channels
            && var out := ops + Steps(Run(ops).rows[id], id, siblings, r.channels);
               var carrier := Carrier(id, siblings, IndexOf(r.channels, c));
               && QueuedFor(Run(out), carrier, Run(ops).rows[id], c)
               && (Possible(Run(out + more), Deliver(carrier, env)) ==>
                     var w, t := Run(out + more), Handled(Run(out + more), carrier, env);
                     |t.sends| > |w.sends| && t.sends[|w.sends|].channel == c)
  {
    Pipeline.CriticalIsMandatedBySmsAndPush(e);
    Pipeline.CriticalGoesOut(resolved, prefs, account, cells, user, e, p, quiet, supported, now, sto);
    var r := Disposition(resolved, cells, user, e, p, quiet, supported, now, sto);
    PolicyInvHolds(ops);
    assert Classified(Run(ops).rows[id]);
    CarrierReachesProvider(ops, id, siblings, r.channels, c, more, env);
  }

  function Disposition(resolved: P.Resolved, cells: map<F.Key, Cell<int>>, user: string, e: EventType, p: Priority,
                       quiet: QuietHours.Check, supported: set<Channel>, now: int, sto: SendTime.Decision)
    : Pipeline.Disposition
  {
    Pipeline.Disposed(Routing.RouteFor(resolved, cells, user, e, p, quiet, now), supported, now, sto)
  }

  lemma CarrierReachesProvider(ops: seq<Op>, id: string, siblings: seq<string>, channels: seq<Channel>, c: Channel,
                               more: seq<Op>, env: Env)
    requires |channels| <= |siblings| + 1 && id in Run(ops).rows && FreshFor(Run(ops), id, siblings)
    requires Run(ops).rows[id].status == Routed && Idle(Run(ops), id)
    requires Run(ops).rows[id].event in CRITICAL_EVENTS && c in channels && c in {Sms, Push}
    requires Run(ops).rows[id].classification == Classify(Run(ops).rows[id].event)
    requires env.contactFound && !env.primary.CircuitOpen?
    ensures var out := ops + Steps(Run(ops).rows[id], id, siblings, channels);
            var carrier := Carrier(id, siblings, IndexOf(channels, c));
            && QueuedFor(Run(out), carrier, Run(ops).rows[id], c)
            && (Possible(Run(out + more), Deliver(carrier, env)) ==>
                  var w, t := Run(out + more), Handled(Run(out + more), carrier, env);
                  |t.sends| > |w.sends| && t.sends[|w.sends|].channel == c)
  {
    var row := Run(ops).rows[id];
    assert row.event.category != Digest;
    EveryChannelQueued(ops, id, siblings, channels);
    var out := ops + Steps(row, id, siblings, channels);
    var i := IndexOf(channels, c);
    var carrier := Carrier(id, siblings, i);
    assert QueuedFor(Run(out), carrier, row, channels[i]);
    RunKeepsItself(out, more, carrier, row, c);
    if Possible(Run(out + more), Deliver(carrier, env)) {
      CriticalReachesProvider(out + more, carrier, env);
    }
  }
}
