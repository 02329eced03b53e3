/** Whole runs of the pipeline, the delivery workers and the retry worker. */
module DeliveryRuns {
  import opened Redis
  import opened Events
  import opened States
  import opened Compliance
  import opened Delivery
  import DigestFlush

  datatype Op =
    | Create(id: string, user: string, event: EventType, classification: Classification, channel: Channel,
             priority: Priority, sibling: bool)
    | Render(id: string, channel: Channel)   // fan-out gives a routed notification content and channel
    | Transition(id: string, to: Status)     // StateService.transition; a move to QUEUED also publishes
    | Deliver(id: string, env: Env)          // a worker handles one message of the channel queue
    | Requeue(slot: Slot)                    // the retry worker handles one entry of a retry set
    | Fold(id: string)                       // a digest absorbs the notification
    | Consent(record: ConsentRecord)
    | DndChange(user: string, registered: bool)
    | DndRefresh(users: set<string>, now: int)

  const EMPTY := World(map[], multiset{}, map[], {}, {}, [], [], Registry({}, map[]))

  function SlotOf(retry: map<Slot, int>, p: Priority, id: string): nat {
    if Slot(p, id) in retry then 1 else 0
  }

  /** How many entries the retry sets hold for a notification. */
  function Slots(retry: map<Slot, int>, id: string): nat {
    SlotOf(retry, Critical, id) + SlotOf(retry, High, id) + SlotOf(retry, Medium, id) + SlotOf(retry, Low, id)
  }

  /** StateService is used only on notifications that are neither queued nor waiting for a retry. */
  predicate Idle(w: World, id: string) {
    w.queue[id] == 0 && Slots(w.retry, id) == 0
  }

  predicate Possible(w: World, op: Op) {
    match op
    case Create(id, _, event, classification, channel, _, _) =>
      && id !in w.rows
      && (channel == Sms ==> event.category != Digest)
      && (event.category != Digest ==> classification == Classify(event))
    case Render(id, channel) =>
      id in w.rows && w.rows[id].status == Routed && (channel == Sms ==> w.rows[id].event.category != Digest)
    case Transition(id, to) => id in w.rows && Idle(w, id) && IsValidTransition(w.rows[id].status, to)
    case Deliver(id, _) => w.queue[id] > 0
    case Requeue(slot) => slot in w.retry && slot.id in w.rows
    case Fold(id) => id in w.rows && w.rows[id].status in {Capped, DigestPending}
    case Consent(r) => ValidCombination(r.channel, r.kind)
    case _ => true
  }

  function NewRow(op: Op): Row
    requires op.Create?
  {
    Row(op.user, op.event, op.classification, op.channel, op.priority,
        if op.sibling then Routed else Created, 0, [],
        if op.sibling then [Entry(None, Routed)] else [], None)
  }

  function MovedTo(w: World, id: string, to: Status): World
    requires id in w.rows
  {
    w.(rows := w.rows[id := Write(w.rows[id], w.rows[id].status, to)],
       queue := if to == Queued then w.queue + multiset{id} else w.queue)
  }

  function Rendered(w: World, id: string, channel: Channel): World
    requires id in w.rows
  {
    w.(rows := w.rows[id := w.rows[id].(channel := channel)])
  }

  function Folded(w: World, id: string): World
    requires id in w.rows
  {
    w.(rows := w.rows[id := DigestFlush.FoldedRow(w.rows[id])])
  }

  function Apply(w: World, op: Op): World {
    if !Possible(w, op) then w
    else
      match op
      case Create(id, _, _, _, _, _, _) => w.(rows := w.rows[id := NewRow(op)])
      case Render(id, channel) => Rendered(w, id, channel)
      case Transition(id, to) => MovedTo(w, id, to)
      case Deliver(id, env) => Handled(w, id, env)
      case Requeue(slot) => Requeued(w, slot)
      case Fold(id) => Folded(w, id)
      case Consent(r) => w.(consent := w.consent + [r])
      case DndChange(user, registered) => w.(dnd := StatusChanged(w.dnd, user, registered))
      case DndRefresh(users, now) => w.(dnd := Refreshed(w.dnd, users, now))
  }

  function Run(ops: seq<Op>): World {
    if ops == [] then EMPTY else Apply(Run(ops[..|ops| - 1]), ops[|ops| - 1])
  }

  // ---- The state log is a path ----

  ghost predicate TokenOk(w: World, id: string)
    requires id in w.rows
  {
    var row := w.rows[id];
    && IsPath(row.log, row.status)
    && w.queue[id] <= 1
    && (w.queue[id] == 1 ==> row.status in {Queued, Retrying})
    && Slots(w.retry, id) <= 1
    && (Slots(w.retry, id) == 1 ==> row.status == Failed && w.queue[id] == 0)
  }

  /** Only stored notifications are queued or wait for a retry. */
  ghost predicate TokensKnown(w: World) {
    forall id :: w.queue[id] > 0 || Slots(w.retry, id) > 0 ==> id in w.rows
  }

  ghost predicate PathInv(w: World) {
    && TokensKnown(w)
    && (forall id :: id in w.rows ==> TokenOk(w, id))
  }

  lemma ResumedPath(row: Row)
    requires IsPath(row.log, row.status) && row.status in {Queued, Retrying}
    ensures Resumed(row).status == Queued && IsPath(Resumed(row).log, Queued)
  {
    if row.status == Retrying { Step(row.log, Retrying, Queued); }
  }

  lemma FailedPath(row: Row)
    requires IsPath(row.log, Queued)
    ensures IsPath(FailedRow(row).log, FailedRow(row).status)
  {
    Step(row.log, Queued, Failed);
    Step(row.log + [Entry(Some(Queued), Failed)], Failed, Dlq);
  }

  lemma SentPath(row: Row, receipt: bool)
    requires IsPath(row.log, Queued)
    ensures IsPath(SentRow(row, receipt).log, SentRow(row, receipt).status)
  {
    Step(row.log, Queued, Sent);
    Step(row.log + [Entry(Some(Queued), Sent)], Sent, Delivered);
  }

  lemma RowAfterPath(row: Row, verdict: Verdict)
    requires IsPath(row.log, Queued) && row.status == Queued
    requires verdict.Stopped? ==> verdict.status in {NoConsent, Dnd}
    ensures var after := RowAfter(row, verdict); IsPath(after.log, after.status)
  {
    match verdict
    case Stopped(status) => Step(row.log, Queued, status);
    case Success(receipt) => SentPath(row, receipt);
    case Withheld => FailedPath(row);
    case Failure => FailedPath(row);
    case _ =>
  }

  /** `row` is the notification as the round finds it: resumed if it was retrying,
      and with the classification the DND check recorded. */
  predicate FoundAs(stored: Row, row: Row) {
    row.(classification := stored.classification) == Resumed(stored)
  }

  /** What each verdict tells about its cause. */
  predicate Justified(row: Row, verdict: Verdict, env: Env) {
    match verdict
    case Thrown => NeedsContact(row.channel)
    case Stopped(status) => status in {NoConsent, Dnd}
    case Withheld => true
    case _ => verdict == ProviderVerdict(row.channel, env)
  }

  /** One round: `t` is `w` after a worker handled a message for `id`. */
  predicate Round(w: World, t: World, id: string, row: Row, verdict: Verdict, env: Env) {
    && id in w.rows && FoundAs(w.rows[id], row) && Justified(row, verdict, env)
    && t.rows == w.rows[id := RowAfter(row, verdict)]
    && t.queue == w.queue - multiset{id}
    && t.retry == RetryAfter(w.retry, id, row, verdict, env)
    && t.dropped == (if verdict.NoProvider? then w.dropped + {id} else w.dropped)
    && t.rejected == (if verdict.Thrown? then w.rejected + {id} else w.rejected)
    && t.sends == w.sends + CallsMade(id, row, verdict, env)
    && t.consent == w.consent
    && (t.dnd == w.dnd || t.dnd == LookedUp(w.dnd, row.user, env.now))
  }

  lemma JudgeIsJustified(w: World, row: Row, env: Env)
    ensures Justified(row, Judge(w, row, env), env)
    ensures Justified(row.(classification := Classify(row.event)), Judge(w, row, env), env)
  {
  }

  lemma HandledIsDispatched(w: World, id: string, env: Env)
    requires id in w.rows && w.rows[id].status in {Queued, Retrying}
    ensures var found := Resumed(w.rows[id]);
            var done := Dispatched(w.(queue := w.queue - multiset{id}, rows := w.rows[id := found]), id, env);
            Handled(w, id, env) ==
              if Judge(w, found, env).Thrown? then done.(rejected := done.rejected + {id}) else done
  {
    var found := Resumed(w.rows[id]);
    assert Throws(w, id, env) == Judge(w, found, env).Thrown?;
  }

  /** What dispatching does, given the verdict and the row as the DND check leaves it. */
  predicate DispatchedTo(w: World, t: World, id: string, row: Row, verdict: Verdict, env: Env) {
    && t.rows == w.rows[id := RowAfter(row, verdict)]
    && t.queue == w.queue && t.rejected == w.rejected && t.consent == w.consent
    && t.retry == RetryAfter(w.retry, id, row, verdict, env)
    && t.dropped == (if verdict.NoProvider? then w.dropped + {id} else w.dropped)
    && t.sends == w.sends + CallsMade(id, row, verdict, env)
    && (t.dnd == w.dnd || t.dnd == LookedUp(w.dnd, row.user, env.now))
  }

  function CheckedRow(w: World, row: Row, env: Env): Row {
    if ChecksDnd(w, row, env) then row.(classification := Classify(row.event)) else row
  }

  lemma DispatchFields(w: World, id: string, env: Env)
    requires id in w.rows
    ensures DispatchedTo(w, Dispatched(w, id, env), id, CheckedRow(w, w.rows[id], env), Judge(w, w.rows[id], env), env)
  {
  }

  lemma RoundFromDispatch(w: World, done: World, t: World, id: string, row: Row, verdict: Verdict, env: Env)
    requires id in w.rows && FoundAs(w.rows[id], row) && Justified(row, verdict, env)
    requires DispatchedTo(w.(queue := w.queue - multiset{id}, rows := w.rows[id := Resumed(w.rows[id])]), done,
                          id, row, verdict, env)
    requires t == if verdict.Thrown? then done.(rejected := done.rejected + {id}) else done
    ensures Round(w, t, id, row, verdict, env)
  {
    assert w.rows[id := Resumed(w.rows[id])][id := RowAfter(row, verdict)] == w.rows[id := RowAfter(row, verdict)];
  }

  lemma HandlingIsARound(w: World, id: string, env: Env) returns (row: Row, verdict: Verdict)
    requires id in w.rows && w.rows[id].status in {Queued, Retrying}
    ensures Round(w, Handled(w, id, env), id, row, verdict, env)
    ensures row.status == Queued
    ensures row == CheckedRow(w, Resumed(w.rows[id]), env)
    ensures verdict == Judge(w, Resumed(w.rows[id]), env)
  {
    var found := Resumed(w.rows[id]);
    row, verdict := CheckedRow(w, found, env), Judge(w, found, env);
    JudgeIsJustified(w, found, env);
    HandledIsDispatched(w, id, env);
    var taken := w.(queue := w.queue - multiset{id}, rows := w.rows[id := found]);
    DispatchFields(taken, id, env);
    OnlyConsentAndDndDecide(w, taken, found, env);
    FoundRowStands(w.rows[id], found, row);
    RoundFromDispatch(w, Dispatched(taken, id, env), Handled(w, id, env), id, row, verdict, env);
  }

  lemma OnlyConsentAndDndDecide(w: World, t: World, row: Row, env: Env)
    requires t.consent == w.consent && t.dnd == w.dnd
    ensures Judge(t, row, env) == Judge(w, row, env) && ChecksDnd(t, row, env) == ChecksDnd(w, row, env)
  {
  }

  lemma FoundRowStands(stored: Row, found: Row, row: Row)
    requires found == Resumed(stored) && (row == found || row == found.(classification := Classify(found.event)))
    ensures FoundAs(stored, row)
  {
  }

  lemma SlotsAdded(retry: map<Slot, int>, slot: Slot, at: int, x: string)
    requires Slots(retry, slot.id) == 0
    ensures Slots(retry[slot := at], x) == if x == slot.id then 1 else Slots(retry, x)
  {
    assert slot == Slot(slot.priority, slot.id);
    match slot.priority case Critical => case High => case Medium => case Low =>
  }

  lemma SlotsRemoved(retry: map<Slot, int>, slot: Slot, x: string)
    requires slot in retry && Slots(retry, slot.id) == 1
    ensures Slots(retry - {slot}, x) == if x == slot.id then 0 else Slots(retry, x)
  {
    assert slot == Slot(slot.priority, slot.id);
    match slot.priority case Critical => case High => case Medium => case Low =>
  }

  lemma SlotCounts(retry: map<Slot, int>, slot: Slot)
    requires slot in retry
    ensures Slots(retry, slot.id) >= 1
  {
    assert slot == Slot(slot.priority, slot.id);
    match slot.priority case Critical => case High => case Medium => case Low =>
  }

  predicate RetriesAfter(row: Row, verdict: Verdict) {
    (verdict.Withheld? || verdict.Failure?) && !Exhausted(row)
  }

  lemma SlotsAfterRound(w: World, t: World, id: string, row: Row, verdict: Verdict, env: Env, x: string)
    requires Round(w, t, id, row, verdict, env) && Slots(w.retry, id) == 0
    ensures Slots(t.retry, x) == if x == id then (if RetriesAfter(row, verdict) then 1 else 0) else Slots(w.retry, x)
  {
    if RetriesAfter(row, verdict) {
      SlotsAdded(w.retry, Slot(row.priority, id), env.now + RetryDelay(row.priority, row.attempts + 1, env.jitter), x);
    }
  }

  lemma RoundKeepsToken(w: World, t: World, id: string, row: Row, verdict: Verdict, env: Env, x: string)
    requires Round(w, t, id, row, verdict, env) && TokenOk(w, id) && w.queue[id] > 0
    requires x in w.rows && TokenOk(w, x)
    ensures TokenOk(t, x)
  {
    SlotsAfterRound(w, t, id, row, verdict, env, x);
    if x == id {
      ResumedPath(w.rows[id]);
      RowAfterPath(row, verdict);
    }
  }

  lemma DeliverKeepsPaths(w: World, id: string, env: Env)
    requires PathInv(w) && w.queue[id] > 0
    ensures PathInv(Handled(w, id, env))
  {
    assert TokenOk(w, id);
    var row, verdict := HandlingIsARound(w, id, env);
    RoundKeepsPaths(w, Handled(w, id, env), id, row, verdict, env);
  }

  lemma RoundKeepsPaths(w: World, t: World, id: string, row: Row, verdict: Verdict, env: Env)
    requires PathInv(w) && w.queue[id] > 0 && Round(w, t, id, row, verdict, env)
    ensures PathInv(t)
  {
    assert TokenOk(w, id);
    forall x | x in t.rows ensures TokenOk(t, x) {
      RoundKeepsToken(w, t, id, row, verdict, env, x);
    }
    forall x | t.queue[x] > 0 || Slots(t.retry, x) > 0 ensures x in t.rows {
      SlotsAfterRound(w, t, id, row, verdict, env, x);
    }
  }

  lemma RequeueKeepsToken(w: World, slot: Slot, x: string)
    requires slot in w.retry && slot.id in w.rows && TokenOk(w, slot.id) && x in w.rows && TokenOk(w, x)
    ensures TokenOk(Requeued(w, slot), x)
  {
    SlotCounts(w.retry, slot);
    SlotsRemoved(w.retry, slot, x);
    if x == slot.id { Step(w.rows[x].log, Failed, Retrying); }
  }

  lemma RequeueKeepsPaths(w: World, slot: Slot)
    requires PathInv(w) && Possible(w, Requeue(slot))
    ensures PathInv(Requeued(w, slot))
  {
    var t := Requeued(w, slot);
    assert TokenOk(w, slot.id);
    SlotCounts(w.retry, slot);
    forall x | x in t.rows ensures TokenOk(t, x) {
      assert TokenOk(w, x);
      RequeueKeepsToken(w, slot, x);
    }
    forall x | t.queue[x] > 0 || Slots(t.retry, x) > 0 ensures x in t.rows {
      SlotsRemoved(w.retry, slot, x);
    }
  }

  lemma TransitionKeepsPaths(w: World, id: string, to: Status)
    requires PathInv(w) && Possible(w, Transition(id, to))
    ensures PathInv(MovedTo(w, id, to))
  {
    var t := MovedTo(w, id, to);
    assert TokenOk(w, id);
    Step(w.rows[id].log, w.rows[id].status, to);
    forall x | x in t.rows ensures TokenOk(t, x) {
      assert TokenOk(w, x);
    }
  }

  lemma FoldedPath(row: Row)
    requires IsPath(row.log, row.status) && row.status in {Capped, DigestPending}
    ensures IsPath(DigestFlush.FoldedRow(row).log, Digested)
  {
    if row.status == Capped { Step(row.log, Capped, DigestPending); }
    Step(DigestFlush.PromotedRow(row).log, DigestPending, Digested);
  }

  lemma FoldKeepsPaths(w: World, id: string)
    requires PathInv(w) && Possible(w, Fold(id))
    ensures PathInv(Folded(w, id))
  {
    var t := Folded(w, id);
    assert TokenOk(w, id);
    FoldedPath(w.rows[id]);
    forall x | x in t.rows ensures TokenOk(t, x) {
      assert TokenOk(w, x);
    }
  }

  lemma CreateKeepsPaths(w: World, op: Op)
    requires PathInv(w) && op.Create? && Possible(w, op)
    ensures PathInv(Apply(w, op))
  {
    var t := Apply(w, op);
    forall x | x in t.rows ensures TokenOk(t, x) {
      if x != op.id { assert TokenOk(w, x); }
    }
  }

  lemma UnchangedTokens(w: World, t: World)
    requires PathInv(w) && t.rows == w.rows && t.queue == w.queue && t.retry == w.retry
    ensures PathInv(t)
  {
    forall x | x in t.rows ensures TokenOk(t, x) {
      assert TokenOk(w, x);
    }
  }

  lemma RenderKeepsPaths(w: World, id: string, channel: Channel)
    requires PathInv(w) && id in w.rows
    ensures PathInv(Rendered(w, id, channel))
  {
    var t := Rendered(w, id, channel);
    forall x | x in t.rows ensures TokenOk(t, x) {
      assert TokenOk(w, x);
    }
  }

  lemma ApplyKeepsPaths(w: World, op: Op)
    requires PathInv(w)
    ensures PathInv(Apply(w, op))
  {
    if Possible(w, op) {
      match op {
        case Create(_, _, _, _, _, _, _) => CreateKeepsPaths(w, op);
        case Render(id, channel) => RenderKeepsPaths(w, id, channel);
        case Transition(id, to) => TransitionKeepsPaths(w, id, to);
        case Deliver(id, env) => DeliverKeepsPaths(w, id, env);
        case Requeue(slot) => RequeueKeepsPaths(w, slot);
        case Fold(id) => FoldKeepsPaths(w, id);
        case _ => UnchangedTokens(w, Apply(w, op));
      }
    }
  }

  lemma {:induction false} PathInvHolds(ops: seq<Op>)
    ensures PathInv(Run(ops))
  {
    if ops != [] {
      PathInvHolds(ops[..|ops| - 1]);
      ApplyKeepsPaths(Run(ops[..|ops| - 1]), ops[|ops| - 1]);
    }
  }

  /** In every run every state log is a path of legal transitions to the current status,
      although delivery and retry name their "from" states without looking. A digest folds
      in one step here, from the states DigestLogs.WritesStartAtStatus shows it to find. */
  lemma EveryLogIsAPath(ops: seq<Op>, id: string)
    requires id in Run(ops).rows
    ensures IsPath(Run(ops).rows[id].log, Run(ops).rows[id].status)
    ensures var log := Run(ops).rows[id].log;
            && (log != [] ==> log[|log| - 1].to == Run(ops).rows[id].status)
            && (forall i :: 0 < i < |log| ==> log[i].from == Some(log[i - 1].to))
            && (forall i :: 0 <= i < |log| && log[i].from.Some? ==> IsValidTransition(log[i].from.value, log[i].to))
  {
    PathInvHolds(ops);
    assert TokenOk(Run(ops), id);
    if Run(ops).rows[id].log != [] { PathEntries(Run(ops).rows[id].log, Run(ops).rows[id].status); }
  }

  /** Two writes are outside those runs because they do break the log: a retry that
      finds no content sets DLQ without an entry ... */
  lemma NoContentLeavesLogBehind(row: Row)
    requires IsPath(row.log, Failed) && row.status == Failed
    ensures Unsendable(row).status == Dlq && !IsPath(Unsendable(row).log, Dlq)
  {
  }

  /** ... and dead-lettering a notification whose template fails to render is a step
      from ROUTED that the table does not allow. */
  lemma RenderFailureIsNotAStep(row: Row)
    requires IsPath(row.log, Routed) && row.status == Routed
    ensures !IsPath(Write(row, row.status, Dlq).log, Dlq)
  {
  }

  // ---- Conservation ----

  /** StateService as the pipeline and successful delivery receipts use it. */
  predicate PipelineStep(op: Op) {
    op.Transition? ==> op.to in {Enriched, Deduplicated, Routed, Capped, Quiet, DigestPending, Digested,
                                 Queued, Delivered, Bounced, Opened}
  }

  predicate PipelineRun(ops: seq<Op>) {
    forall i :: 0 <= i < |ops| ==> PipelineStep(ops[i])
  }

  predicate BeforeQueue(s: Status) {
    s in {Created, Enriched, Deduplicated, Routed, Capped, Quiet, DigestPending}
  }

  /** The places a notification can be in once it has been queued. */
  function Places(w: World, id: string): int
    requires id in w.rows
  {
    w.queue[id]
    + Slots(w.retry, id)
    + (if AlreadyHandled(w.rows[id].status) then 1 else 0)
    + (if id in w.rejected then 1 else 0)
    + (if id in w.dropped then 1 else 0)
  }

  function Successes(sends: seq<Send>, id: string): nat {
    if sends == [] then 0
    else
      Successes(sends[..|sends| - 1], id) +
      if sends[|sends| - 1].id == id && sends[|sends| - 1].succeeded then 1 else 0
  }

  predicate WasSent(s: Status) {
    s in {Sent, Delivered, Opened, Bounced}
  }

  /** The delivery attempts: numbered from one, and only the last one may have succeeded. */
  predicate TriesOk(row: Row) {
    && |row.tries| == row.attempts
    && (forall i :: 0 <= i < |row.tries| ==> row.tries[i].number == i + 1)
    && (forall i :: 0 <= i < |row.tries| ==>
          (row.tries[i].sent <==> WasSent(row.status) && i == |row.tries| - 1))
    && (WasSent(row.status) ==> row.attempts > 0)
  }

  /** All attempts used up without success, and only that, means the DLQ. */
  predicate AttemptsOk(row: Row) {
    && row.attempts <= MaxRetries(row.priority) + 1
    && (row.status == Dlq <==> row.attempts == MaxRetries(row.priority) + 1 && !WasSent(row.status))
    && (row.status == Dlq ==> row.dlq == Some(row.attempts))
    && (BeforeQueue(row.status) ==> row.attempts == 0)
  }

  predicate PlaceOk(w: World, id: string)
    requires id in w.rows
  {
    var row := w.rows[id];
    && Places(w, id) == (if BeforeQueue(row.status) then 0 else 1)
    && (id in w.rejected || id in w.dropped ==> row.status == Queued)
    && (id in w.dropped ==> row.channel.Other?)
    && (id in w.rejected ==> NeedsContact(row.channel))
  }

  predicate RowOk(w: World, id: string)
    requires id in w.rows
  {
    && TriesOk(w.rows[id]) && AttemptsOk(w.rows[id]) && PlaceOk(w, id)
    && Successes(w.sends, id) == (if WasSent(w.rows[id].status) then 1 else 0)
  }

  predicate TracesKnown(w: World) {
    && (forall id :: id in w.rejected + w.dropped ==> id in w.rows)
    && (forall i :: 0 <= i < |w.sends| ==> w.sends[i].id in w.rows)
  }

  ghost predicate Inv(w: World) {
    && PathInv(w) && TracesKnown(w)
    && (forall id :: id in w.rows ==> RowOk(w, id))
  }

  lemma {:induction false} SuccessesConcat(a: seq<Send>, b: seq<Send>, id: string)
    ensures Successes(a + b, id) == Successes(a, id) + Successes(b, id)
  {
    if b == [] {
      assert a + b == a;
    } else {
      assert (a + b)[..|a + b| - 1] == a + b[..|b| - 1];
      SuccessesConcat(a, b[..|b| - 1], id);
    }
  }

  lemma {:induction false} NoSuccesses(sends: seq<Send>, id: string)
    requires forall i :: 0 <= i < |sends| ==> sends[i].id != id
    ensures Successes(sends, id) == 0
  {
    if sends != [] { NoSuccesses(sends[..|sends| - 1], id); }
  }

  lemma CallSuccesses(id: string, row: Row, verdict: Verdict, env: Env, x: string)
    requires Justified(row, verdict, env)
    ensures Successes(CallsMade(id, row, verdict, env), x) == if x == id && verdict.Success? then 1 else 0
    ensures forall i :: 0 <= i < |CallsMade(id, row, verdict, env)| ==> CallsMade(id, row, verdict, env)[i].id == id
  {
    var calls := CallsMade(id, row, verdict, env);
    if |calls| == 2 {
      TwoCalls(calls[0], calls[1], x);
      assert calls == [calls[0], calls[1]];
    } else if |calls| == 1 {
      OneCall(calls[0], x);
      assert calls == [calls[0]];
    }
  }

  lemma OneCall(a: Send, x: string)
    ensures Successes([a], x) == if a.id == x && a.succeeded then 1 else 0
  {
    assert [a][..0] == [];
  }

  lemma TwoCalls(a: Send, b: Send, x: string)
    ensures Successes([a, b], x) ==
            (if a.id == x && a.succeeded then 1 else 0) + (if b.id == x && b.succeeded then 1 else 0)
  {
    OneCall(a, x);
    assert [a, b][..1] == [a];
  }

  lemma SuccessesAfterRound(w: World, t: World, id: string, row: Row, verdict: Verdict, env: Env, x: string)
    requires Round(w, t, id, row, verdict, env)
    ensures Successes(t.sends, x) == Successes(w.sends, x) + if x == id && verdict.Success? then 1 else 0
  {
    CallSuccesses(id, row, verdict, env, x);
    SuccessesConcat(w.sends, CallsMade(id, row, verdict, env), x);
  }

  /** A round either settles the notification or leaves it one attempt closer to the end. */
  lemma RowAfterRound(row: Row, verdict: Verdict)
    requires row.status == Queued && TriesOk(row) && AttemptsOk(row)
    requires verdict.Stopped? ==> verdict.status in {NoConsent, Dnd}
    ensures var after := RowAfter(row, verdict);
            && TriesOk(after) && AttemptsOk(after)
            && after.priority == row.priority && after.channel == row.channel
            && (verdict.Success? <==> WasSent(after.status))
            && (verdict.Success? || verdict.Stopped? ==> AlreadyHandled(after.status))
            && (verdict.Thrown? || verdict.NoProvider? ==> after == row)
            && (verdict.Withheld? || verdict.Failure? ==>
                  && after.attempts == row.attempts + 1
                  && after.status == if Exhausted(row) then Dlq else Failed)
  {
  }

  lemma FoundRow(stored: Row, row: Row)
    requires FoundAs(stored, row) && stored.status in {Queued, Retrying}
    requires TriesOk(stored) && AttemptsOk(stored)
    ensures row.status == Queued && TriesOk(row) && AttemptsOk(row)
    ensures row.channel == stored.channel && row.attempts == stored.attempts && row.priority == stored.priority
  {
  }

  /** A row no step touched, in a world that treats it as before. */
  lemma UntouchedRow(w: World, t: World, x: string)
    requires x in w.rows && x in t.rows && t.rows[x] == w.rows[x] && RowOk(w, x)
    requires t.queue[x] == w.queue[x] && Slots(t.retry, x) == Slots(w.retry, x)
    requires (x in t.rejected <==> x in w.rejected) && (x in t.dropped <==> x in w.dropped)
    requires Successes(t.sends, x) == Successes(w.sends, x)
    ensures RowOk(t, x)
  {
  }

  lemma RoundKeepsOther(w: World, t: World, id: string, row: Row, verdict: Verdict, env: Env, x: string)
    requires Round(w, t, id, row, verdict, env) && Slots(w.retry, id) == 0
    requires x in w.rows && x != id && RowOk(w, x)
    ensures RowOk(t, x)
  {
    SlotsAfterRound(w, t, id, row, verdict, env, x);
    SuccessesAfterRound(w, t, id, row, verdict, env, x);
    UntouchedRow(w, t, x);
  }

  lemma RoundKeepsSelf(w: World, t: World, id: string, row: Row, verdict: Verdict, env: Env)
    requires Inv(w) && w.queue[id] > 0 && Round(w, t, id, row, verdict, env)
    ensures RowOk(t, id)
  {
    assert TokenOk(w, id) && RowOk(w, id);
    SlotsAfterRound(w, t, id, row, verdict, env, id);
    SuccessesAfterRound(w, t, id, row, verdict, env, id);
    FoundRow(w.rows[id], row);
    RowAfterRound(row, verdict);
    RoundKeepsPlace(w, t, id, row, verdict, env);
  }

  lemma RoundKeepsPlace(w: World, t: World, id: string, row: Row, verdict: Verdict, env: Env)
    requires Round(w, t, id, row, verdict, env) && TokenOk(w, id) && w.queue[id] > 0 && PlaceOk(w, id)
    requires row.status == Queued && row.channel == w.rows[id].channel
    requires var after := RowAfter(row, verdict);
             && after.channel == row.channel
             && (verdict.Success? || verdict.Stopped? ==> AlreadyHandled(after.status))
             && (verdict.Thrown? || verdict.NoProvider? ==> after == row)
             && (verdict.Withheld? || verdict.Failure? ==> after.status == if Exhausted(row) then Dlq else Failed)
    requires Slots(t.retry, id) == if RetriesAfter(row, verdict) then 1 else 0
    ensures PlaceOk(t, id)
  {
    assert t.queue[id] == 0 && id !in w.rejected && id !in w.dropped;
    assert t.rows[id] == RowAfter(row, verdict);
  }

  lemma DeliverKeepsInv(w: World, id: string, env: Env)
    requires Inv(w) && w.queue[id] > 0
    ensures Inv(Handled(w, id, env))
  {
    assert TokenOk(w, id);
    var row, verdict := HandlingIsARound(w, id, env);
    RoundKeepsInv(w, Handled(w, id, env), id, row, verdict, env);
  }

  lemma RoundKeepsTraces(w: World, t: World, id: string, row: Row, verdict: Verdict, env: Env)
    requires TracesKnown(w) && Round(w, t, id, row, verdict, env)
    ensures TracesKnown(t)
  {
    CallSuccesses(id, row, verdict, env, id);
  }

  lemma RoundKeepsRow(w: World, t: World, id: string, row: Row, verdict: Verdict, env: Env, x: string)
    requires Inv(w) && w.queue[id] > 0 && Round(w, t, id, row, verdict, env) && x in w.rows
    ensures x in t.rows && RowOk(t, x)
  {
    assert TokenOk(w, id) && RowOk(w, x);
    if x == id {
      RoundKeepsSelf(w, t, id, row, verdict, env);
    } else {
      RoundKeepsOther(w, t, id, row, verdict, env, x);
    }
  }

  lemma RoundKeepsKeys(w: World, t: World, id: string, row: Row, verdict: Verdict, env: Env)
    requires Round(w, t, id, row, verdict, env)
    ensures t.rows.Keys == w.rows.Keys
  {
  }

  lemma RoundKeepsInv(w: World, t: World, id: string, row: Row, verdict: Verdict, env: Env)
    requires Inv(w) && w.queue[id] > 0 && Round(w, t, id, row, verdict, env)
    ensures Inv(t)
  {
    RoundKeepsPaths(w, t, id, row, verdict, env);
    RoundKeepsTraces(w, t, id, row, verdict, env);
    RoundKeepsKeys(w, t, id, row, verdict, env);
    forall x | x in t.rows ensures RowOk(t, x) {
      RoundKeepsRow(w, t, id, row, verdict, env, x);
    }
  }

  lemma RequeueKeepsInv(w: World, slot: Slot)
    requires Inv(w) && Possible(w, Requeue(slot))
    ensures Inv(Requeued(w, slot))
  {
    RequeueKeepsPaths(w, slot);
    var t := Requeued(w, slot);
    forall x | x in t.rows ensures RowOk(t, x) {
      assert TokenOk(w, slot.id) && RowOk(w, x);
      RequeueKeepsRow(w, slot, x);
    }
  }

  lemma RetryingRow(row: Row)
    requires row.status == Failed && TriesOk(row) && AttemptsOk(row)
    ensures TriesOk(Write(row, Failed, Retrying)) && AttemptsOk(Write(row, Failed, Retrying))
  {
  }

  lemma RequeueKeepsRow(w: World, slot: Slot, x: string)
    requires slot in w.retry && slot.id in w.rows && TokenOk(w, slot.id)
    requires x in w.rows && RowOk(w, x)
    ensures RowOk(Requeued(w, slot), x)
  {
    SlotCounts(w.retry, slot);
    SlotsRemoved(w.retry, slot, x);
    var t := Requeued(w, slot);
    if x == slot.id {
      RetryingRow(w.rows[x]);
      assert t.queue[x] == w.queue[x] + 1;
    } else {
      UntouchedRow(w, t, x);
    }
  }

  lemma MovedRow(row: Row, to: Status)
    requires IsValidTransition(row.status, to) && PipelineStep(Transition("", to))
    requires TriesOk(row) && AttemptsOk(row)
    ensures var after := Write(row, row.status, to); TriesOk(after) && AttemptsOk(after)
    ensures WasSent(row.status) == WasSent(to)
  {
  }

  lemma TransitionKeepsRow(w: World, id: string, to: Status, x: string)
    requires id in w.rows && Idle(w, id) && IsValidTransition(w.rows[id].status, to) && PipelineStep(Transition(id, to))
    requires x in w.rows && RowOk(w, x)
    ensures RowOk(MovedTo(w, id, to), x)
  {
    var t := MovedTo(w, id, to);
    if x == id {
      assert t.queue[x] == w.queue[x] + if to == Queued then 1 else 0;
      MovedRow(w.rows[id], to);
    } else {
      UntouchedRow(w, t, x);
    }
  }

  lemma FoldKeepsSelf(w: World, id: string)
    requires Possible(w, Fold(id)) && RowOk(w, id)
    ensures RowOk(Folded(w, id), id)
  {
    var after := DigestFlush.FoldedRow(w.rows[id]);
    assert TriesOk(after) && AttemptsOk(after);
  }

  lemma FoldKeepsRow(w: World, id: string, x: string)
    requires Possible(w, Fold(id)) && x in w.rows && RowOk(w, x)
    ensures RowOk(Folded(w, id), x)
  {
    if x == id {
      FoldKeepsSelf(w, id);
    } else {
      UntouchedRow(w, Folded(w, id), x);
    }
  }

  lemma CreateKeepsRow(w: World, op: Op, x: string)
    requires Inv(w) && op.Create? && Possible(w, op) && (x in w.rows || x == op.id)
    ensures RowOk(Apply(w, op), x)
  {
    if x == op.id {
      NoSuccesses(w.sends, x);
      assert w.queue[x] == 0 && Slots(w.retry, x) == 0 && x !in w.rejected + w.dropped;
      assert TriesOk(NewRow(op));
    } else {
      assert RowOk(w, x);
      UntouchedRow(w, Apply(w, op), x);
    }
  }

  lemma RenderKeepsRow(w: World, id: string, channel: Channel, x: string)
    requires Possible(w, Render(id, channel)) && x in w.rows && RowOk(w, x)
    ensures RowOk(Rendered(w, id, channel), x)
  {
    var t := Rendered(w, id, channel);
    if x == id {
      assert TriesOk(t.rows[id]) && AttemptsOk(t.rows[id]) && PlaceOk(t, id);
    } else {
      UntouchedRow(w, t, x);
    }
  }

  lemma RenderKeepsInv(w: World, id: string, channel: Channel)
    requires Inv(w) && Possible(w, Render(id, channel))
    ensures Inv(Rendered(w, id, channel))
  {
    RenderKeepsPaths(w, id, channel);
    var t := Rendered(w, id, channel);
    forall x | x in t.rows ensures RowOk(t, x) {
      assert RowOk(w, x);
      RenderKeepsRow(w, id, channel, x);
    }
  }

  lemma ApplyKeepsInv(w: World, op: Op)
    requires Inv(w) && PipelineStep(op)
    ensures Inv(Apply(w, op))
  {
    if Possible(w, op) {
      match op {
        case Deliver(id, env) => DeliverKeepsInv(w, id, env);
        case Requeue(slot) => RequeueKeepsInv(w, slot);
        case Render(id, channel) => RenderKeepsInv(w, id, channel);
        case Create(_, _, _, _, _, _, _) =>
          CreateKeepsPaths(w, op);
          forall x | x in Apply(w, op).rows ensures RowOk(Apply(w, op), x) { CreateKeepsRow(w, op, x); }
        case Transition(id, to) =>
          TransitionKeepsPaths(w, id, to);
          forall x | x in Apply(w, op).rows ensures RowOk(Apply(w, op), x) {
            assert RowOk(w, x);
            TransitionKeepsRow(w, id, to, x);
          }
        case Fold(id) =>
          FoldKeepsPaths(w, id);
          forall x | x in Apply(w, op).rows ensures RowOk(Apply(w, op), x) {
            assert RowOk(w, x);
            FoldKeepsRow(w, id, x);
          }
        case _ => UnchangedRows(w, Apply(w, op));
      }
    }
  }

  lemma UnchangedRows(w: World, t: World)
    requires Inv(w) && t == w.(consent := t.consent, dnd := t.dnd)
    ensures Inv(t)
  {
    UnchangedTokens(w, t);
    forall x | x in t.rows ensures RowOk(t, x) {
      assert RowOk(w, x);
    }
  }

  lemma {:induction false} InvHolds(ops: seq<Op>)
    requires PipelineRun(ops)
    ensures Inv(Run(ops))
  {
    if ops != [] {
      InvHolds(ops[..|ops| - 1]);
      ApplyKeepsInv(Run(ops[..|ops| - 1]), ops[|ops| - 1]);
    }
  }

  /** Nothing is lost or duplicated: once queued, a notification is in exactly one of the
      channel queue, a retry set, a handled state, the broker's dead letters (only if its
      recipient could not be resolved) and the dropped ones (only on an unknown channel). */
  lemma Conservation(ops: seq<Op>, id: string)
    requires PipelineRun(ops) && id in Run(ops).rows
    ensures Places(Run(ops), id) == if BeforeQueue(Run(ops).rows[id].status) then 0 else 1
    ensures id in Run(ops).rejected ==> NeedsContact(Run(ops).rows[id].channel)
    ensures id in Run(ops).dropped ==> Run(ops).rows[id].channel.Other?
  {
    InvHolds(ops);
    assert RowOk(Run(ops), id);
  }

  /** At most one provider call succeeds for a notification, at most maxRetries + 1 rounds
      fail, and it is dead-lettered exactly when that many have failed. */
  lemma AtMostOneSuccess(ops: seq<Op>, id: string)
    requires PipelineRun(ops) && id in Run(ops).rows
    ensures Successes(Run(ops).sends, id) <= 1
    ensures var row := Run(ops).rows[id];
            && |row.tries| <= MaxRetries(row.priority) + 1
            && (forall i :: 0 <= i < |row.tries| - 1 ==> !row.tries[i].sent)
            && (row.status == Dlq <==> |row.tries| == MaxRetries(row.priority) + 1 && !row.tries[|row.tries| - 1].sent)
  {
    InvHolds(ops);
    assert RowOk(Run(ops), id);
  }

  /** The number of rounds after which a notification that always fails is dead-lettered. */
  lemma RoundsInNumbers(ops: seq<Op>, id: string)
    requires PipelineRun(ops) && id in Run(ops).rows
    ensures var row := Run(ops).rows[id];
            var most := match row.priority case Critical => 11 case High => 6 case Medium => 4 case Low => 3;
            |row.tries| <= most
            && (row.status == Dlq <==> |row.tries| == most && !row.tries[most - 1].sent)
  {
    AtMostOneSuccess(ops, id);
  }

  function RoundsLeft(row: Row): int {
    MaxRetries(row.priority) + 1 - row.attempts
  }

  /** Every handled message settles the notification or uses up one of its rounds. */
  lemma RoundsRunOut(ops: seq<Op>, id: string, env: Env)
    requires PipelineRun(ops) && Possible(Run(ops), Deliver(id, env))
    ensures var w, t := Run(ops), Handled(Run(ops), id, env);
            && id in w.rows && id in t.rows
            && RoundsLeft(w.rows[id]) >= 1
            && t.queue[id] == 0
            && (Slots(t.retry, id) > 0 ==> 1 <= RoundsLeft(t.rows[id]) < RoundsLeft(w.rows[id]))
  {
    InvHolds(ops);
    var w := Run(ops);
    assert TokenOk(w, id) && RowOk(w, id);
    var row, verdict := HandlingIsARound(w, id, env);
    FoundRow(w.rows[id], row);
    SlotsAfterRound(w, Handled(w, id, env), id, row, verdict, env, id);
    RowAfterRound(row, verdict);
  }

  /** A fold takes a held notification to DIGESTED, a capped one by way of DIGEST_PENDING, and
      touches nothing else. */
  lemma FoldDigests(w: World, id: string)
    requires Possible(w, Fold(id))
    ensures var t, before := Apply(w, Fold(id)), w.rows[id];
            && id in t.rows && t == w.(rows := w.rows[id := t.rows[id]])
            && t.rows[id] == before.(status := Digested, log := t.rows[id].log)
            && t.rows[id].log ==
                 before.log + (if before.status == Capped then [Entry(Some(Capped), DigestPending)] else [])
                            + [Entry(Some(DigestPending), Digested)]
  {
  }

  /** A message redelivered after the notification was handled changes nothing but the queue. */
  lemma RedeliveryIsIgnored(w: World, id: string, env: Env)
    requires id in w.rows
    requires w.rows[id].status in {NoConsent, Digested, Sent, Delivered, Opened, Dnd, Dlq, Bounced}
    ensures Handled(w, id, env) == w.(queue := w.queue - multiset{id})
  {
  }
}
