/** The delivery worker, the retry sets and the dead-letter queue (src/delivery). */
module Delivery {
  import opened Redis
  import opened Events
  import opened States
  import opened Compliance

  // ---- Retry policy ----

  function MaxRetries(p: Priority): nat {
    match p case Critical => 10 case High => 5 case Medium => 3 case Low => 2
  }

  function BaseDelay(p: Priority): nat {
    match p case Critical => 500 case High => 1_000 case Medium => 5_000 case Low => 30_000
  }

  function MaxDelay(p: Priority): nat {
    match p case Critical => 60_000 case High => 300_000 case Medium => 1_800_000 case Low => 7_200_000
  }

  function Pow2(n: nat): nat {
    if n == 0 then 1 else 2 * Pow2(n - 1)
  }

  /** Exponential backoff plus jitter, capped; the first retry waits the base delay. */
  function RetryDelay(p: Priority, attempt: nat, jitter: nat): nat
    requires attempt >= 1
  {
    var exponential := BaseDelay(p) * Pow2(attempt - 1) + jitter;
    if exponential <= MaxDelay(p) then exponential else MaxDelay(p)
  }

  lemma {:induction false} Pow2Grows(a: nat, b: nat)
    requires a <= b
    ensures 1 <= Pow2(a) <= Pow2(b)
    decreases b
  {
    if a < b { Pow2Grows(a, b - 1); } else if a > 0 { Pow2Grows(a - 1, a - 1); }
  }

  /** Every delay lies between the base and the maximum of its priority, and with the
      same jitter a later attempt never waits less. */
  lemma DelayIsBounded(p: Priority, attempt: nat, later: nat, jitter: nat)
    requires 1 <= attempt <= later
    ensures BaseDelay(p) <= RetryDelay(p, attempt, jitter) <= RetryDelay(p, later, jitter) <= MaxDelay(p)
  {
    Pow2Grows(attempt - 1, later - 1);
    var a, b := Pow2(attempt - 1), Pow2(later - 1);
    assert BaseDelay(p) * a <= BaseDelay(p) * b;
    assert BaseDelay(p) * 1 <= BaseDelay(p) * a;
  }

  /** Jitter only adds to what the backoff alone would wait, which starts at the base and
      doubles from attempt to attempt until it meets the maximum. */
  lemma DelayDoubles(p: Priority, attempt: nat, jitter: nat)
    requires attempt >= 1
    ensures RetryDelay(p, 1, 0) == BaseDelay(p)
    ensures RetryDelay(p, attempt + 1, 0) == Lesser(2 * RetryDelay(p, attempt, 0), MaxDelay(p))
    ensures RetryDelay(p, attempt, jitter) == Lesser(RetryDelay(p, attempt, 0) + jitter, MaxDelay(p))
  {
    var power := Pow2(attempt - 1);
    assert BaseDelay(p) * (2 * power) == 2 * (BaseDelay(p) * power);
  }

  function Lesser(a: nat, b: nat): nat {
    if a < b then a else b
  }

  /** The waits between the rounds of a notification that always fails, without jitter. */
  function Waits(p: Priority, n: nat): seq<nat> {
    if n == 0 then [] else Waits(p, n - 1) + [RetryDelay(p, n, 0)]
  }

  lemma {:induction false} WaitsAre(p: Priority, n: nat, waits: seq<nat>)
    requires |waits| == n && forall i :: 0 <= i < n ==> waits[i] == RetryDelay(p, i + 1, 0)
    ensures Waits(p, n) == waits
  {
    if n > 0 {
      WaitsAre(p, n - 1, waits[..n - 1]);
      assert waits == waits[..n - 1] + [waits[n - 1]];
    }
  }

  lemma {:induction false} WaitAt(p: Priority, waits: seq<nat>, i: nat)
    requires i < |waits| && waits[0] == BaseDelay(p)
    requires forall j :: 0 < j < |waits| ==> waits[j] == Lesser(2 * waits[j - 1], MaxDelay(p))
    ensures waits[i] == RetryDelay(p, i + 1, 0)
  {
    if i == 0 {
      DelayDoubles(p, 1, 0);
    } else {
      WaitAt(p, waits, i - 1);
      DelayDoubles(p, i, 0);
    }
  }

  lemma WaitsDouble(p: Priority, waits: seq<nat>)
    requires waits != [] && waits[0] == BaseDelay(p)
    requires forall i :: 0 < i < |waits| ==> waits[i] == Lesser(2 * waits[i - 1], MaxDelay(p))
    ensures Waits(p, |waits|) == waits
  {
    forall i | 0 <= i < |waits| ensures waits[i] == RetryDelay(p, i + 1, 0) { WaitAt(p, waits, i); }
    WaitsAre(p, |waits|, waits);
  }

  /** How often and how long: half a second to a minute ten times, a second to 16 five times,
      5 to 20 seconds, or half a minute and a minute. The maximum binds only for CRITICAL. */
  lemma RetrySchedule(p: Priority)
    ensures Waits(p, MaxRetries(p)) ==
            match p
            case Critical => [500, 1_000, 2_000, 4_000, 8_000, 16_000, 32_000, 60_000, 60_000, 60_000]
            case High => [1_000, 2_000, 4_000, 8_000, 16_000]
            case Medium => [5_000, 10_000, 20_000]
            case Low => [30_000, 60_000]
  {
    match p
    case Critical => WaitsDouble(p, [500, 1_000, 2_000, 4_000, 8_000, 16_000, 32_000, 60_000, 60_000, 60_000]);
    case High => WaitsDouble(p, [1_000, 2_000, 4_000, 8_000, 16_000]);
    case Medium => WaitsDouble(p, [5_000, 10_000, 20_000]);
    case Low => WaitsDouble(p, [30_000, 60_000]);
  }

  // ---- State ----

  /** The place of a notification in the retry set of a priority. */
  datatype Slot = Slot(priority: Priority, id: string)

  /** A call that reached a provider. */
  datatype Send = Send(id: string, user: string, channel: Channel, event: EventType, succeeded: bool)

  /** Channel queues, retry sets, messages the broker dead-lettered (`rejected`) and messages
      acknowledged although their channel has no provider (`dropped`). */
  datatype World = World(
    rows: map<string, Row>, queue: multiset<string>, retry: map<Slot, int>,
    rejected: set<string>, dropped: set<string>, sends: seq<Send>,
    consent: seq<ConsentRecord>, dnd: Registry)

  datatype Mode = Off | Audit | Enforce

  datatype Call = CircuitOpen | Fails | Succeeds(receipt: bool)

  /** What one delivery meets outside the system. */
  datatype Env = Env(
    now: int, jitter: nat, contactFound: bool, mode: Mode, consentUp: bool, registryUp: bool,
    primary: Call, fallback: Call)

  /** States from which a redelivered message is acknowledged and ignored. */
  predicate AlreadyHandled(s: Status) {
    s in {NoConsent, Digested, Sent, Delivered, Opened, Dnd, Dlq, Bounced}
  }

  predicate NeedsContact(c: Channel) {
    c == Sms || c == WhatsApp || c == Email
  }

  datatype Verdict =
    | Thrown                       // the recipient cannot be resolved
    | Stopped(status: Status)      // no consent, or DND
    | Withheld                     // consent or registry unavailable: counts as a failed round
    | NoProvider
    | Success(receipt: bool)
    | Failure

  predicate ConsentNeeded(row: Row, env: Env) {
    env.mode != Off && RequiresConsent(row.channel, row.classification)
  }

  function ProviderVerdict(channel: Channel, env: Env): Verdict {
    if channel.Other? then NoProvider
    else if env.primary.Succeeds? then Success(env.primary.receipt)
    else if channel == Sms && env.fallback.Succeeds? then Success(env.fallback.receipt)
    else Failure
  }

  function Judge(w: World, row: Row, env: Env): Verdict {
    if NeedsContact(row.channel) && !env.contactFound then Thrown
    else if ConsentNeeded(row, env) && !env.consentUp then Withheld
    else if ConsentNeeded(row, env) && env.mode == Enforce && !HasConsent(w.consent, row.user, row.channel) then
      Stopped(NoConsent)
    else if row.channel == Sms && Classify(row.event) == Promotional && !env.registryUp then Withheld
    else if row.channel == Sms && Classify(row.event) == Promotional && Answer(w.dnd, row.user, env.now) then
      Stopped(Dnd)
    else ProviderVerdict(row.channel, env)
  }

  /** Does the delivery get as far as the DND check? */
  predicate ChecksDnd(w: World, row: Row, env: Env) {
    && row.channel == Sms && env.contactFound
    && (ConsentNeeded(row, env) ==>
          env.consentUp && (env.mode == Enforce ==> HasConsent(w.consent, row.user, row.channel)))
  }

  function Resumed(row: Row): Row {
    if row.status == Retrying then Write(row, Retrying, Queued) else row
  }

  function WithTry(row: Row, sent: bool): Row {
    row.(attempts := row.attempts + 1, tries := row.tries + [Try(row.attempts + 1, sent)])
  }

  predicate Exhausted(row: Row) {
    row.attempts + 1 > MaxRetries(row.priority)
  }

  /** The status writes of a failed round name QUEUED, whatever the row says. */
  function FailedRow(row: Row): Row {
    var failed := WithTry(Write(row, Queued, Failed), false);
    if Exhausted(row) then Write(failed, failed.status, Dlq).(dlq := Some(failed.attempts)) else failed
  }

  function SentRow(row: Row, receipt: bool): Row {
    var sent := WithTry(Write(row, Queued, Sent), true);
    if receipt then Write(sent, Sent, Delivered) else sent
  }

  function RowAfter(row: Row, verdict: Verdict): Row {
    match verdict
    case Thrown => row
    case NoProvider => row
    case Stopped(status) => Write(row, Queued, status)
    case Withheld => FailedRow(row)
    case Failure => FailedRow(row)
    case Success(receipt) => SentRow(row, receipt)
  }

  function RetryAfter(retry: map<Slot, int>, id: string, row: Row, verdict: Verdict, env: Env): map<Slot, int> {
    if (verdict.Withheld? || verdict.Failure?) && !Exhausted(row) then
      retry[Slot(row.priority, id) := env.now + RetryDelay(row.priority, row.attempts + 1, env.jitter)]
    else retry
  }

  /** The calls made to providers, in order. */
  function CallsMade(id: string, row: Row, verdict: Verdict, env: Env): seq<Send> {
    if !verdict.Success? && !verdict.Failure? then []
    else
      (if env.primary.CircuitOpen? then [] else [Send(id, row.user, row.channel, row.event, env.primary.Succeeds?)]) +
      (if env.primary.Succeeds? || row.channel != Sms || env.fallback.CircuitOpen? then []
       else [Send(id, row.user, row.channel, row.event, env.fallback.Succeeds?)])
  }

  /** The effect of one dispatch on a notification that is not handled yet. */
  function Dispatched(w: World, id: string, env: Env): World
    requires id in w.rows
  {
    var row := w.rows[id];
    var verdict := Judge(w, row, env);
    var checked := if ChecksDnd(w, row, env) then row.(classification := Classify(row.event)) else row;
    w.(rows := w.rows[id := RowAfter(checked, verdict)],
       retry := RetryAfter(w.retry, id, checked, verdict, env),
       dropped := if verdict.NoProvider? then w.dropped + {id} else w.dropped,
       sends := w.sends + CallsMade(id, checked, verdict, env),
       dnd := if ChecksDnd(w, row, env) && env.registryUp then LookedUp(w.dnd, row.user, env.now) else w.dnd)
  }

  /** The whole effect of DeliveryService.process. */
  function Processed(w: World, id: string, env: Env): World {
    if id !in w.rows || AlreadyHandled(w.rows[id].status) then w
    else Dispatched(w.(rows := w.rows[id := Resumed(w.rows[id])]), id, env)
  }

  predicate Throws(w: World, id: string, env: Env) {
    && id in w.rows && !AlreadyHandled(w.rows[id].status)
    && NeedsContact(w.rows[id].channel) && !env.contactFound
  }

  /** A worker takes a message, processes it, and rejects it if that throws. */
  function Handled(w: World, id: string, env: Env): World {
    var taken := w.(queue := w.queue - multiset{id});
    var done := Processed(taken, id, env);
    if Throws(w, id, env) then done.(rejected := done.rejected + {id}) else done
  }

  /** The retry worker: FAILED to RETRYING, publish again, leave the retry set. */
  function Requeued(w: World, slot: Slot): World
    requires slot.id in w.rows
  {
    w.(rows := w.rows[slot.id := Write(w.rows[slot.id], Failed, Retrying)],
       queue := w.queue + multiset{slot.id},
       retry := w.retry - {slot})
  }

  /** A notification without stored content goes to the DLQ from there, with no log entry. */
  function Unsendable(row: Row): Row {
    Write(row, Failed, Retrying).(status := Dlq, dlq := Some(0))
  }

  function DeadLettered(w: World, slot: Slot): World
    requires slot.id in w.rows
  {
    w.(rows := w.rows[slot.id := Unsendable(w.rows[slot.id])], retry := w.retry - {slot})
  }

  class DeliveryService {
    const db: Database
    const consent: ConsentService
    const dnd: DndService
    var queue: multiset<string>
    var retry: map<Slot, int>
    var rejected: set<string>
    ghost var dropped: set<string>
    var sends: seq<Send>

    constructor (db: Database, consent: ConsentService, dnd: DndService)
      ensures this.db == db && this.consent == consent && this.dnd == dnd
      ensures Now() == World(db.rows, multiset{}, map[], {}, {}, [], consent.log, dnd.registry)
    {
      this.db, this.consent, this.dnd := db, consent, dnd;
      queue, retry, rejected, dropped, sends := multiset{}, map[], {}, {}, [];
    }

    ghost function Now(): World
      reads this, db, consent, dnd
    {
      World(db.rows, queue, retry, rejected, dropped, sends, consent.log, dnd.registry)
    }

    /** The worker's message handler. */
    method Handle(id: string, env: Env)
      modifies this, db, dnd
      ensures Now() == Handled(old(Now()), id, env)
    {
      queue := queue - multiset{id};
      var thrown := Process(id, env);
      if thrown { rejected := rejected + {id}; }
    }

    method Process(id: string, env: Env) returns (thrown: bool)
      modifies this, db, dnd
      ensures thrown == Throws(old(Now()), id, env)
      ensures Now() == Processed(old(Now()), id, env)
    {
      if id !in db.rows { return false; }
      var status := db.rows[id].status;
      if AlreadyHandled(status) { return false; }
      assert db.rows == db.rows[id := db.rows[id]];
      if status == Retrying { RecordTransition(id, Retrying, Queued); }
      var channel := db.rows[id].channel;
      if channel in {Sms, WhatsApp, Email} && !env.contactFound {
        assert db.rows == db.rows[id := db.rows[id]];
        return true;
      }
      Dispatch(id, env);
      thrown := false;
    }

    method Dispatch(id: string, env: Env)
      requires id in db.rows && (NeedsContact(db.rows[id].channel) ==> env.contactFound)
      modifies this, db, dnd
      ensures Now() == Dispatched(old(Now()), id, env)
    {
      assert db.rows == db.rows[id := db.rows[id]];
      var passes := PassesConsent(id, env);
      if !passes { return; }
      if db.rows[id].channel == Sms {
        var allowed := PassesDnd(id, env);
        if !allowed { return; }
      }
      Deliver(id, env);
    }

    /** The DND check and its audit record. The tripwire turns a wrongly allowed
        promotional message into a refusal. */
    method PassesDnd(id: string, env: Env) returns (allowed: bool)
      requires id in db.rows && db.rows[id].channel == Sms
      modifies this, db, dnd
      ensures var w, row := old(Now()), old(db.rows)[id].(classification := Classify(old(db.rows)[id].event));
              var d := if env.registryUp then LookedUp(w.dnd, row.user, env.now) else w.dnd;
              && (allowed <==>
                    Classify(row.event) == Transactional || (env.registryUp && !Answer(w.dnd, row.user, env.now)))
              && Now() == if allowed then w.(rows := w.rows[id := row], dnd := d)
                          else if !env.registryUp then
                            w.(rows := w.rows[id := FailedRow(row)],
                                retry := RetryAfter(w.retry, id, row, Withheld, env), dnd := d)
                          else w.(rows := w.rows[id := Write(row, Queued, Dnd)], dnd := d)
    {
      var row := db.rows[id];
      var result := dnd.Check(row.user, row.event, Sms, env.registryUp, env.now);
      db.rows := db.rows[id := row.(classification := result.classification)];
      allowed := result.allowed;
      if allowed && result.classification == Promotional && result.status == Registered {
        allowed := false;
      }
      if !allowed {
        if result.registryUnavailable {
          HandleFailure(id, env);
          return;
        }
        db.rows := db.rows[id := db.rows[id].(status := Dnd)];
        RecordTransition(id, Queued, Dnd);
      }
    }

    /** Writes a log entry; only a move to QUEUED also writes the status here. */
    method RecordTransition(id: string, from: Status, to: Status)
      requires id in db.rows
      modifies db
      ensures db.rows == old(db.rows)[id :=
          (if to == Queued then old(db.rows)[id].(status := Queued) else old(db.rows)[id])
                                             .(log := old(db.rows)[id].log + [Entry(Some(from), to)])]
    {
      if to == Queued { db.rows := db.rows[id := db.rows[id].(status := to)]; }
      db.rows := db.rows[id := db.rows[id].(log := db.rows[id].log + [Entry(Some(from), to)])];
    }

    method PassesConsent(id: string, env: Env) returns (passes: bool)
      requires id in db.rows
      modifies this, db
      ensures var w, row := old(Now()), old(db.rows)[id];
              && passes == (ConsentNeeded(row, env) ==>
                             env.consentUp && (env.mode == Enforce ==> HasConsent(w.consent, row.user, row.channel)))
              && Now() == if passes then w
                          else if !env.consentUp then
                            w.(rows := w.rows[id := FailedRow(row)],
                                retry := RetryAfter(w.retry, id, row, Withheld, env))
                          else w.(rows := w.rows[id := Write(row, Queued, NoConsent)])
    {
      if env.mode == Off { return true; }
      var row := db.rows[id];
      var decision := consent.Evaluate(row.user, row.channel, row.classification, env.consentUp);
      if decision.None? {
        HandleFailure(id, env);
        return false;
      }
      if decision.value.NotRequired? { return true; }
      if decision.value.Allowed() { return true; }
      if env.mode == Audit { return true; }
      db.rows := db.rows[id := row.(status := NoConsent)];
      RecordTransition(id, Queued, NoConsent);
      return false;
    }

    method TryProvider(id: string, call: Call) returns (success: bool)
      requires id in db.rows
      modifies this
      ensures success == call.Succeeds?
      ensures var row := db.rows[id];
              Now() == old(Now()).(sends := old(sends) +
                if call.CircuitOpen? then [] else [Send(id, row.user, row.channel, row.event, call.Succeeds?)])
    {
      if call.CircuitOpen? { return false; }
      var row := db.rows[id];
      sends := sends + [Send(id, row.user, row.channel, row.event, call.Succeeds?)];
      success := call.Succeeds?;
    }

    method Deliver(id: string, env: Env)
      requires id in db.rows
      modifies this, db
      ensures var w, row := old(Now()), old(db.rows)[id];
              var verdict := ProviderVerdict(row.channel, env);
              Now() == w.(rows := w.rows[id := RowAfter(row, verdict)],
                          retry := RetryAfter(w.retry, id, row, verdict, env),
                          dropped := if verdict.NoProvider? then w.dropped + {id} else w.dropped,
                          sends := w.sends + CallsMade(id, row, verdict, env))
    {
      var row := db.rows[id];
      if row.channel.Other? {
        dropped := dropped + {id};
        assert db.rows == db.rows[id := row];
        return;
      }
      var first := TryProvider(id, env.primary);
      if first {
        HandleSuccess(id, env.primary.receipt);
        return;
      }
      if row.channel == Sms {
        var second := TryProvider(id, env.fallback);
        if second {
          HandleSuccess(id, env.fallback.receipt);
          return;
        }
      }
      HandleFailure(id, env);
    }

    method HandleSuccess(id: string, receipt: bool)
      requires id in db.rows
      modifies db
      ensures db.rows == old(db.rows)[id := SentRow(old(db.rows)[id], receipt)]
    {
      var row := db.rows[id];
      db.rows := db.rows[id := row.(status := Sent, attempts := row.attempts + 1)];
      RecordTransition(id, Queued, Sent);
      row := db.rows[id];
      db.rows := db.rows[id := row.(tries := row.tries + [Try(row.attempts, true)])];
      if receipt {
        db.rows := db.rows[id := db.rows[id].(status := Delivered)];
        RecordTransition(id, Sent, Delivered);
      }
    }

    method HandleFailure(id: string, env: Env)
      requires id in db.rows
      modifies this, db
      ensures var w, row := old(Now()), old(db.rows)[id];
              Now() == w.(rows := w.rows[id := FailedRow(row)], retry := RetryAfter(w.retry, id, row, Failure, env))
    {
      var row := db.rows[id];
      var attempts := row.attempts + 1;
      db.rows := db.rows[id :=
          row.(status := Failed, attempts := attempts, tries := row.tries + [Try(attempts, false)])];
      RecordTransition(id, Queued, Failed);
      assert db.rows == old(db.rows)[id := WithTry(Write(row, Queued, Failed), false)];
      var willRetry := ScheduleRetry(id, attempts, row.priority, env);
      if !willRetry { DeadLetter(id, attempts); }
    }

    method ScheduleRetry(id: string, attempt: nat, priority: Priority, env: Env) returns (scheduled: bool)
      requires attempt >= 1
      modifies this
      ensures scheduled == (attempt <= MaxRetries(priority))
      ensures Now() == if scheduled
                       then old(Now()).(retry :=
                           old(retry)[Slot(priority, id) := env.now + RetryDelay(priority, attempt, env.jitter)])
                       else old(Now())
    {
      if attempt > MaxRetries(priority) { return false; }
      retry := retry[Slot(priority, id) := env.now + RetryDelay(priority, attempt, env.jitter)];
      scheduled := true;
    }

    /** Logs the move from whatever state the row is in. */
    method DeadLetter(id: string, retryCount: nat)
      requires id in db.rows
      modifies db
      ensures db.rows == old(db.rows)[id :=
          Write(old(db.rows)[id], old(db.rows)[id].status, Dlq).(dlq := Some(retryCount))]
    {
      var current := db.rows[id].status;
      db.rows := db.rows[id := db.rows[id].(status := Dlq)];
      RecordTransition(id, current, Dlq);
      db.rows := db.rows[id := db.rows[id].(dlq := Some(retryCount))];
    }

    /** One due entry of a retry set. The requeue and the removal are one step here. */
    method RequeueNotification(slot: Slot, hasContent: bool)
      requires slot.id in db.rows
      modifies this, db
      ensures Now() == if hasContent then Requeued(old(Now()), slot) else DeadLettered(old(Now()), slot)
    {
      db.rows := db.rows[slot.id := db.rows[slot.id].(status := Retrying)];
      RecordTransition(slot.id, Failed, Retrying);
      if hasContent {
        queue := queue + multiset{slot.id};
      } else {
        db.rows := db.rows[slot.id := db.rows[slot.id].(status := Dlq)];
        db.rows := db.rows[slot.id := db.rows[slot.id].(dlq := Some(0))];
      }
      retry := retry - {slot};
    }
  }
}
