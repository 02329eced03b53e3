/** Notification states, their legal transitions and the state log
    (src/shared/constants/notification-states.ts, src/notifications/state-machine). */
module States {
  import opened Redis
  import opened Events

  datatype Status =
    | Created | Enriched | Routed | Queued | Sent | Delivered | Opened | Capped | Quiet | Dnd
    | Failed | Retrying | Dlq | Deduplicated | Bounced | NoConsent | DigestPending | Digested

  function NextStates(from: Status): set<Status> {
    match from
    case Created => {Enriched, Deduplicated}
    case Enriched => {Routed, Capped, Quiet, Dnd, DigestPending}
    case Routed => {Queued, Failed}
    case Quiet => {Routed, DigestPending}
    case Capped => {DigestPending}
    case DigestPending => {Digested}
    case Queued => {Sent, Failed, Dnd, NoConsent}
    case Sent => {Delivered, Failed, Bounced}
    case Delivered => {Opened}
    case Failed => {Retrying, Dlq}
    case Retrying => {Queued, Dlq}
    case _ => {}
  }

  predicate IsValidTransition(from: Status, to: Status) {
    to in NextStates(from)
  }

  /** One row of the state log; `from` is missing for a notification created as ROUTED. */
  datatype Entry = Entry(from: Option<Status>, to: Status)

  /** The log leads to `status`: a notification starts as CREATED with an empty log, or
      as ROUTED with one entry, and every later entry is a legal step from the one before. */
  ghost predicate IsPath(log: seq<Entry>, status: Status) {
    if log == [] then status == Created
    else
      var last := log[|log| - 1];
      last.to == status &&
      match last.from
      case None => |log| == 1 && status == Routed
      case Some(from) => IsValidTransition(from, status) && IsPath(log[..|log| - 1], from)
  }

  lemma Step(log: seq<Entry>, from: Status, to: Status)
    requires IsPath(log, from) && IsValidTransition(from, to)
    ensures IsPath(log + [Entry(Some(from), to)], to)
  {
    assert (log + [Entry(Some(from), to)])[..|log|] == log;
  }

  /** What a path means, entry by entry. */
  lemma {:induction false} PathEntries(log: seq<Entry>, status: Status)
    requires IsPath(log, status) && log != []
    ensures log[|log| - 1].to == status
    ensures forall i :: 0 < i < |log| ==> log[i].from == Some(log[i - 1].to)
    ensures forall i :: 0 <= i < |log| && log[i].from.Some? ==> IsValidTransition(log[i].from.value, log[i].to)
    ensures log[0] == Entry(None, Routed) || log[0].from == Some(Created)
  {
    var last := log[|log| - 1];
    if last.from.Some? {
      var before := log[..|log| - 1];
      if before != [] { PathEntries(before, last.from.value); }
    }
  }

  datatype Row = Row(
    user: string, event: EventType, classification: Classification, channel: Channel, priority: Priority,
    status: Status, attempts: nat, tries: seq<Try>, log: seq<Entry>, dlq: Option<nat>)

  /** A row of the delivery-attempt table. */
  datatype Try = Try(number: nat, sent: bool)

  /** A write that names its own "from" state, whatever the row says. */
  function Write(r: Row, from: Status, to: Status): Row {
    r.(status := to, log := r.log + [Entry(Some(from), to)])
  }

  datatype TransitionResult = Moved | NotFound | Invalid(from: Status, to: Status)

  class Database {
    var rows: map<string, Row>

    constructor ()
      ensures rows == map[]
    {
      rows := map[];
    }
  }

  class StateService {
    const db: Database

    constructor (db: Database)
      ensures this.db == db
    {
      this.db := db;
    }

    /** Status and log entry are written together, and only for a legal step. */
    method Transition(id: string, to: Status) returns (r: TransitionResult)
      modifies db
      ensures r.NotFound? <==> id !in old(db.rows)
      ensures r.Moved? <==> id in old(db.rows) && IsValidTransition(old(db.rows)[id].status, to)
      ensures r.Moved? ==> db.rows == old(db.rows)[id := Write(old(db.rows)[id], old(db.rows)[id].status, to)]
      ensures !r.Moved? ==> db.rows == old(db.rows)
    {
      if id !in db.rows { return NotFound; }
      var row := db.rows[id];
      var from := row.status;
      if !IsValidTransition(from, to) { return Invalid(from, to); }
      db.rows := db.rows[id := row.(status := to, log := row.log + [Entry(Some(from), to)])];
      r := Moved;
    }
  }
}
