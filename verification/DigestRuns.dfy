/** Any number of replicas adding to, claiming, taking, folding and restoring digest
    buckets, interleaved command by command. */
module DigestRuns {
  import opened Redis
  import opened States
  import opened Digest
  import opened DigestFlush

  /** What a replica holds of the flush it is in. A set leaves the order of a loop open. */
  datatype Job =
    | NoJob
    | Looked(b: Bucket, found: bool)                 // claimed, user looked up, nothing taken yet
    | Holding(b: Bucket, ids: set<string>)           // taken
    | Sending(b: Bucket, ids: set<string>, items: set<string>, capped: set<string>,   // as selected
              promoted: set<string>, queued: bool, folded: set<string>)
    | Restoring(b: Bucket, ids: set<string>, dueAt: int)

  datatype Replica = Replica(due: seq<Bucket>, claimed: seq<Bucket>, job: Job)

  /** Why an id will not be digested again. */
  datatype Reason = Folded | FilteredOut | BelowMinimum | NoSuchUser | LookupFailed

  /** A notification when the engine holds it. */
  datatype Origin = Origin(status: Status, log: seq<Entry>)

  /** `folds` lists the writes of DIGESTED, in order. */
  datatype System = System(
    store: Store, replicas: map<nat, Replica>, status: map<string, Status>, log: map<string, seq<Entry>>,
    origin: map<string, Origin>, settled: map<string, Reason>, folds: seq<string>)

  const START := System(Store(map[], map[]), map[], map[], map[], map[], map[], [])

  datatype Lookup = Found | Missing | Throws

  datatype Op =
    | Add(b: Bucket, id: string, origin: Origin, now: int, dueAt: int)  // the engine holds a notification
    | Scan(k: nat, due: seq<Bucket>)              // reads due buckets; the list may be stale at once
    | Claim(k: nat)                               // ZREM of the next one
    | Start(k: nat, lookup: Lookup)               // next claimed bucket: finds its user
    | Take(k: nat)
    | Drop(k: nat)                                // a lookup after the take throws
    | Defer(k: nat, dueAt: int)                   // quiet hours
    | Select(k: nat)                              // reads statuses
    | Promote(k: nat, id: string)
    | Queue(k: nat)                               // the digest row is created and queued
    | Fold(k: nat, id: string)
    | Finish(k: nat)
    | Fail(k: nat, dueAt: int)                    // send fails, at whatever point
    | Restore(k: nat, id: string, now: int)       // one `add` of the restore loop

  function At(w: System, k: nat): Replica {
    if k in w.replicas then w.replicas[k] else Replica([], [], NoJob)
  }

  function Hands(job: Job): set<string> {
    match job
    case NoJob => {}
    case Looked(_, _) => {}
    case Holding(_, ids) => ids
    case Sending(_, ids, _, _, _, _, _) => ids
    case Restoring(_, ids, _) => ids
  }

  function With(w: System, k: nat, job: Job): System {
    w.(replicas := w.replicas[k := At(w, k).(job := job)])
  }

  function Settle(w: System, ids: set<string>, reason: Reason): System {
    w.(settled := w.settled + map id | id in ids :: reason)
  }

  predicate Possible(w: System, op: Op) {
    match op
    case Add(_, id, origin, _, _) => id !in w.status && origin.status in {Capped, DigestPending}
    case Scan(k, _) => At(w, k) == Replica([], [], NoJob)
    case Claim(k) => At(w, k).due != []
    case Start(k, _) => At(w, k).due == [] && At(w, k).claimed != [] && At(w, k).job.NoJob?
    case Take(k) => At(w, k).job.Looked?
    case Drop(k) => At(w, k).job.Holding?
    case Defer(k, _) => At(w, k).job.Holding? && At(w, k).job.b.source in {Hourly, Daily}
    case Select(k) => At(w, k).job.Holding?
    case Promote(k, id) => var j := At(w, k).job; j.Sending? && !j.queued && id in j.capped - j.promoted
    case Queue(k) => var j := At(w, k).job; j.Sending? && !j.queued && j.promoted == j.capped
    case Fold(k, id) => var j := At(w, k).job; j.Sending? && j.queued && id in j.items - j.folded
    case Finish(k) => var j := At(w, k).job; j.Sending? && j.queued && j.folded == j.items
    case Fail(k, _) => At(w, k).job.Sending?
    case Restore(k, id, _) => At(w, k).job.Restoring? && id in At(w, k).job.ids
  }

  function SelectedOf(w: System, ids: set<string>): set<string> {
    set id | id in ids && id in w.status && w.status[id] in {DigestPending, Capped}
  }

  function CappedOf(w: System, ids: set<string>): set<string> {
    set id | id in ids && id in w.status && w.status[id] == Capped
  }

  /** Writes status and log entry, naming "from" without looking at the row. */
  function Written(w: System, id: string, from: Status, to: Status): System {
    w.(status := w.status[id := to],
       log := w.log[id := (if id in w.log then w.log[id] else []) + [Entry(Some(from), to)]])
  }

  function Claimed(w: System, k: nat): System
    requires At(w, k).due != []
  {
    var r := At(w, k);
    var b := r.due[0];
    if b in w.store.due
    then w.(store := Unlisted(w.store, b),
        replicas := w.replicas[k := r.(due := r.due[1..], claimed := r.claimed + [b])])
    else w.(replicas := w.replicas[k := r.(due := r.due[1..])])
  }

  function Started(w: System, k: nat, lookup: Lookup): System
    requires At(w, k).claimed != []
  {
    var r := At(w, k);
    w.(replicas := w.replicas[k := r.(claimed := r.claimed[1..],
                                     job := if lookup.Throws? then NoJob else Looked(r.claimed[0], lookup.Found?))])
  }

  function Taken(w: System, k: nat): System
    requires At(w, k).job.Looked?
  {
    var j := At(w, k).job;
    var ids := Items(w.store, j.b);
    var t := w.(store := Emptied(w.store, j.b));
    if !j.found then Settle(With(t, k, NoJob), ids, NoSuchUser)
    else With(t, k, if ids == {} then NoJob else Holding(j.b, ids))
  }

  function Chosen(w: System, k: nat): System
    requires At(w, k).job.Holding?
  {
    var j := At(w, k).job;
    var items := SelectedOf(w, j.ids);
    if |items| < MinItems(j.b.source)
    then Settle(Settle(With(w, k, NoJob), j.ids - items, FilteredOut), items, BelowMinimum)
    else With(w, k, Sending(j.b, j.ids, items, CappedOf(w, items), {}, false, {}))
  }

  function Finished(w: System, k: nat): System
    requires At(w, k).job.Sending?
  {
    var j := At(w, k).job;
    Settle(Settle(With(w, k, NoJob), j.ids - j.items, FilteredOut), j.items, Folded)
  }

  function RestoredOne(w: System, k: nat, id: string, now: int): System
    requires At(w, k).job.Restoring?
  {
    var j := At(w, k).job;
    var left := j.ids - {id};
    With(w.(store := Added(w.store, j.b, id, now, j.dueAt)), k, if left == {} then NoJob else j.(ids := left))
  }

  function Apply(w: System, op: Op): System {
    if !Possible(w, op) then w
    else
      match op
      case Add(b, id, origin, now, dueAt) =>
        w.(store := Added(w.store, b, id, now, dueAt), status := w.status[id := origin.status],
           log := w.log[id := origin.log], origin := w.origin[id := origin])
      case Scan(k, due) => w.(replicas := w.replicas[k := Replica(due, [], NoJob)])
      case Claim(k) => Claimed(w, k)
      case Start(k, lookup) => Started(w, k, lookup)
      case Take(k) => Taken(w, k)
      case Drop(k) => Settle(With(w, k, NoJob), At(w, k).job.ids, LookupFailed)
      case Defer(k, dueAt) => With(w, k, Restoring(At(w, k).job.b, At(w, k).job.ids, dueAt))
      case Select(k) => Chosen(w, k)
      case Promote(k, id) =>
        var j := At(w, k).job;
        With(Written(w, id, Capped, DigestPending), k, j.(promoted := j.promoted + {id}))
      case Queue(k) => With(w, k, At(w, k).job.(queued := true))
      case Fold(k, id) =>
        var j := At(w, k).job;
        With(Written(w, id, DigestPending, Digested).(folds := w.folds + [id]), k, j.(folded := j.folded + {id}))
      case Finish(k) => Finished(w, k)
      case Fail(k, dueAt) => With(w, k, Restoring(At(w, k).job.b, At(w, k).job.ids, dueAt))
      case Restore(k, id, now) => RestoredOne(w, k, id, now)
  }

  function Run(ops: seq<Op>): System {
    if ops == [] then START else Apply(Run(ops[..|ops| - 1]), ops[|ops| - 1])
  }

  // ---- Every id is in exactly one place ----

  datatype Place = InBucket(b: Bucket) | InHands(k: nat) | Done

  predicate IsAt(w: System, id: string, p: Place) {
    match p
    case InBucket(b) => id in Items(w.store, b)
    case InHands(k) => id in Hands(At(w, k).job)
    case Done => id in w.settled
  }

  ghost predicate SoleAt(w: System, id: string, p: Place) {
    IsAt(w, id, p) && forall q :: IsAt(w, id, q) ==> q == p
  }

  ghost predicate OnePlace(w: System, id: string) {
    if id in w.status then exists p :: SoleAt(w, id, p) else forall q :: !IsAt(w, id, q)
  }

  ghost predicate Stays(w: System, t: System, id: string) {
    (id in t.status <==> id in w.status) && forall q :: IsAt(t, id, q) <==> IsAt(w, id, q)
  }

  ghost predicate Moves(w: System, t: System, id: string, from: Place, to: Place) {
    && from != to && IsAt(w, id, from) && IsAt(t, id, to) && !IsAt(t, id, from)
    && (id in t.status <==> id in w.status)
    && forall q :: q != from && q != to ==> (IsAt(t, id, q) <==> IsAt(w, id, q))
  }

  lemma StayingKeepsOne(w: System, t: System, id: string)
    requires OnePlace(w, id) && Stays(w, t, id)
    ensures OnePlace(t, id)
  {
    if id in w.status {
      var p :| SoleAt(w, id, p);
      assert SoleAt(t, id, p);
    }
  }

  lemma MovingKeepsOne(w: System, t: System, id: string, from: Place, to: Place)
    requires OnePlace(w, id) && Moves(w, t, id, from, to)
    ensures OnePlace(t, id)
  {
    var p :| SoleAt(w, id, p);
    assert p == from;
    assert SoleAt(t, id, to);
  }

  ghost predicate Places(w: System) {
    forall id :: OnePlace(w, id)
  }

  /** A step that changes neither buckets, nor what is held, nor what is settled. */
  lemma Untouched(w: System, t: System)
    requires Places(w) && t.settled == w.settled && t.status.Keys == w.status.Keys
    requires t.store.items == w.store.items
    requires forall k :: Hands(At(t, k).job) == Hands(At(w, k).job)
    ensures Places(t)
  {
    forall id ensures OnePlace(t, id) {
      assert OnePlace(w, id);
      forall q ensures IsAt(t, id, q) <==> IsAt(w, id, q) { }
      assert Stays(w, t, id);
      StayingKeepsOne(w, t, id);
    }
  }

  lemma AddKeepsPlaces(w: System, op: Op)
    requires Places(w) && op.Add? && Possible(w, op)
    ensures Places(Apply(w, op))
  {
    var t := Apply(w, op);
    forall id ensures OnePlace(t, id) {
      assert OnePlace(w, id);
      if id == op.id {
        forall q ensures IsAt(t, id, q) <==> q == InBucket(op.b) {
          assert !IsAt(w, id, q);
        }
        assert SoleAt(t, id, InBucket(op.b));
      } else {
        forall q ensures IsAt(t, id, q) <==> IsAt(w, id, q) { }
        StayingKeepsOne(w, t, id);
      }
    }
  }

  /** What a take changes: one bucket, one replica, and the settled ids if there is no user. */
  ghost predicate TakenTo(w: System, t: System, k: nat, b: Bucket, ids: set<string>, found: bool) {
    && t.status == w.status && ids == Items(w.store, b) && Hands(At(w, k).job) == {}
    && (forall c :: Items(t.store, c) == if c == b then {} else Items(w.store, c))
    && (forall c :: c in t.store.due <==> c in w.store.due)
    && t.settled.Keys == (if found then w.settled.Keys else w.settled.Keys + ids)
    && Hands(At(t, k).job) == (if found then ids else {})
    && At(t, k).claimed == At(w, k).claimed
    && forall l :: l != k ==> At(t, l) == At(w, l)
  }

  lemma TakeFacts(w: System, k: nat)
    requires At(w, k).job.Looked?
    ensures var j := At(w, k).job; TakenTo(w, Taken(w, k), k, j.b, Items(w.store, j.b), j.found)
  {
  }

  lemma TakeMoves(w: System, t: System, k: nat, b: Bucket, ids: set<string>, found: bool, id: string)
    requires TakenTo(w, t, k, b, ids, found) && id in ids
    ensures Moves(w, t, id, InBucket(b), if found then InHands(k) else Done)
  {
  }

  lemma TakeLeaves(w: System, t: System, k: nat, b: Bucket, ids: set<string>, found: bool, id: string)
    requires TakenTo(w, t, k, b, ids, found) && id !in ids
    ensures Stays(w, t, id)
  {
  }

  lemma TakeKeepsPlaces(w: System, k: nat)
    requires Places(w) && At(w, k).job.Looked?
    ensures Places(Taken(w, k))
  {
    var t, j := Taken(w, k), At(w, k).job;
    var ids := Items(w.store, j.b);
    TakeFacts(w, k);
    forall id ensures OnePlace(t, id) {
      assert OnePlace(w, id);
      if id in ids {
        TakeMoves(w, t, k, j.b, ids, j.found, id);
        MovingKeepsOne(w, t, id, InBucket(j.b), if j.found then InHands(k) else Done);
      } else {
        TakeLeaves(w, t, k, j.b, ids, j.found, id);
        StayingKeepsOne(w, t, id);
      }
    }
  }

  /** A replica lets go of everything it holds, for good. */
  lemma SettlingKeepsPlaces(w: System, t: System, k: nat)
    requires Places(w) && t.store == w.store && t.status == w.status
    requires t.replicas == w.replicas[k := At(t, k)] && Hands(At(t, k).job) == {}
    requires t.settled.Keys == w.settled.Keys + Hands(At(w, k).job)
    ensures Places(t)
  {
    forall id ensures OnePlace(t, id) {
      assert OnePlace(w, id);
      if id in Hands(At(w, k).job) {
        assert IsAt(w, id, InHands(k));
        forall q | q != InHands(k) && q != Done ensures IsAt(t, id, q) <==> IsAt(w, id, q) { }
        MovingKeepsOne(w, t, id, InHands(k), Done);
      } else {
        forall q ensures IsAt(t, id, q) <==> IsAt(w, id, q) { }
        StayingKeepsOne(w, t, id);
      }
    }
  }

  lemma RestoreKeepsPlaces(w: System, k: nat, id: string, now: int)
    requires Places(w) && At(w, k).job.Restoring? && id in At(w, k).job.ids
    ensures Places(RestoredOne(w, k, id, now))
  {
    var t := RestoredOne(w, k, id, now);
    var b := At(w, k).job.b;
    forall x ensures OnePlace(t, x) {
      assert OnePlace(w, x);
      if x == id {
        assert IsAt(w, id, InHands(k));
        forall q | q != InHands(k) && q != InBucket(b) ensures IsAt(t, id, q) <==> IsAt(w, id, q) { }
        MovingKeepsOne(w, t, id, InHands(k), InBucket(b));
      } else {
        forall q ensures IsAt(t, x, q) <==> IsAt(w, x, q) { }
        StayingKeepsOne(w, t, x);
      }
    }
  }

  lemma HeldIsKnown(w: System, k: nat, id: string)
    requires Places(w) && id in Hands(At(w, k).job)
    ensures id in w.status
  {
    assert OnePlace(w, id) && IsAt(w, id, InHands(k));
  }

  lemma SettleInTwo(w: System, k: nat, a: set<string>, b: set<string>, forA: Reason, forB: Reason)
    requires Places(w) && a + b == Hands(At(w, k).job)
    ensures Places(Settle(Settle(With(w, k, NoJob), a, forA), b, forB))
  {
    var t := Settle(Settle(With(w, k, NoJob), a, forA), b, forB);
    assert t.settled.Keys == w.settled.Keys + (a + b);
    SettlingKeepsPlaces(w, t, k);
  }

  lemma SelectKeepsPlaces(w: System, k: nat)
    requires Places(w) && At(w, k).job.Holding?
    ensures Places(Chosen(w, k))
  {
    var j := At(w, k).job;
    var items := SelectedOf(w, j.ids);
    if |items| < MinItems(j.b.source) {
      assert j.ids - items + items == j.ids;
      SettleInTwo(w, k, j.ids - items, items, FilteredOut, BelowMinimum);
    } else {
      Untouched(w, Chosen(w, k));
    }
  }

  lemma FinishKeepsPlaces(w: System, k: nat)
    requires Places(w) && JobOk(w, k) && At(w, k).job.Sending?
    ensures Places(Finished(w, k))
  {
    var j := At(w, k).job;
    assert j.ids - j.items + j.items == j.ids;
    SettleInTwo(w, k, j.ids - j.items, j.items, FilteredOut, Folded);
  }

  lemma FoldKeepsPlaces(w: System, k: nat, id: string)
    requires Places(w) && JobOk(w, k) && Possible(w, Fold(k, id))
    ensures Places(Apply(w, Fold(k, id)))
  {
    HeldIsKnown(w, k, id);
    Untouched(w, Apply(w, Fold(k, id)));
  }

  lemma PromoteKeepsPlaces(w: System, k: nat, id: string)
    requires Places(w) && JobOk(w, k) && Possible(w, Promote(k, id))
    ensures Places(Apply(w, Promote(k, id)))
  {
    HeldIsKnown(w, k, id);
    Untouched(w, Apply(w, Promote(k, id)));
  }

  lemma ApplyKeepsPlaces(w: System, op: Op)
    requires Places(w) && JobsOk(w)
    ensures Places(Apply(w, op))
  {
    if Possible(w, op) {
      match op {
        case Add(_, _, _, _, _) => AddKeepsPlaces(w, op);
        case Take(k) => TakeKeepsPlaces(w, k);
        case Drop(k) => SettlingKeepsPlaces(w, Apply(w, op), k);
        case Select(k) => SelectKeepsPlaces(w, k);
        case Finish(k) => assert JobOk(w, k); FinishKeepsPlaces(w, k);
        case Restore(k, id, now) => RestoreKeepsPlaces(w, k, id, now);
        case Fold(k, id) => assert JobOk(w, k); FoldKeepsPlaces(w, k, id);
        case Promote(k, id) => assert JobOk(w, k); PromoteKeepsPlaces(w, k, id);
        case Claim(k) => Untouched(w, Claimed(w, k));
        case Start(k, lookup) => Untouched(w, Started(w, k, lookup));
        case Scan(_, _) => Untouched(w, Apply(w, op));
        case Defer(_, _) => Untouched(w, Apply(w, op));
        case Queue(_) => Untouched(w, Apply(w, op));
        case Fail(_, _) => Untouched(w, Apply(w, op));
      }
    }
  }

  // ---- What a replica holds, and what has been folded ----

  predicate Open(s: Status) {
    s in {DigestPending, Capped}
  }

  predicate FoldsOk(w: System) {
    && (forall i, j :: 0 <= i < j < |w.folds| ==> w.folds[i] != w.folds[j])
    && (forall id :: id in w.folds ==> id in w.status)
    && (forall id :: id in w.status ==> if id in w.folds then w.status[id] == Digested else Open(w.status[id]))
  }

  ghost predicate JobOk(w: System, k: nat) {
    match At(w, k).job
    case Holding(_, ids) => ids != {}
    case Restoring(_, ids, _) => ids != {}
    case Sending(b, ids, items, capped, promoted, queued, folded) =>
      && items != {} && items <= ids && promoted <= capped <= items && folded <= items
      && |items| >= MinItems(b.source)
      && (queued ==> promoted == capped)
      && (!queued ==> folded == {})
      && (forall id :: id in ids ==> (id in w.folds <==> id !in items || id in folded))
      && (forall id :: id in items && id !in folded ==>
            id in w.status && w.status[id] == if id in capped && id !in promoted then Capped else DigestPending)
    case _ => true
  }

  ghost predicate JobsOk(w: System) {
    forall k :: JobOk(w, k)
  }

  /** A settled id is folded, or it was left below the minimum, or it belongs to nobody,
      or a lookup failed while it was held. */
  predicate SettledOk(w: System) {
    forall id :: id in w.settled ==>
      && id in w.status
      && (w.settled[id] in {Folded, FilteredOut} ==> id in w.folds)
      && (w.settled[id] == BelowMinimum ==> id !in w.folds)
  }

  ghost predicate Inv(w: System) {
    Places(w) && JobsOk(w) && FoldsOk(w) && SettledOk(w)
  }

  /** A step of replica `k` that folds nothing leaves the other replicas' jobs in order. */
  lemma OtherJobs(w: System, t: System, k: nat)
    requires JobsOk(w) && t.folds == w.folds && t.status == w.status
    requires t.replicas == w.replicas[k := At(t, k)] && JobOk(t, k)
    ensures JobsOk(t)
  {
    forall i ensures JobOk(t, i) {
      assert JobOk(w, i);
      if i != k { assert At(t, i) == At(w, i); }
    }
  }

  lemma SelectKeepsJobs(w: System, k: nat)
    requires Inv(w) && At(w, k).job.Holding?
    ensures JobsOk(Chosen(w, k))
  {
    forall id | id in At(w, k).job.ids ensures id in w.status { HeldIsKnown(w, k, id); }
    if |SelectedOf(w, At(w, k).job.ids)| >= MinItems(At(w, k).job.b.source) {
      assert SelectedOf(w, At(w, k).job.ids) != {};
    }
    OtherJobs(w, Chosen(w, k), k);
  }

  lemma SelectKeepsRest(w: System, k: nat)
    requires Inv(w) && At(w, k).job.Holding?
    ensures JobsOk(Chosen(w, k)) && FoldsOk(Chosen(w, k)) && SettledOk(Chosen(w, k))
  {
    SelectKeepsJobs(w, k);
    forall id | id in At(w, k).job.ids ensures id in w.status { HeldIsKnown(w, k, id); }
    SelectKeepsSettled(w, k);
  }

  lemma SettleOnce(w: System, ids: set<string>, reason: Reason)
    requires SettledOk(w) && forall id :: id in ids ==> id in w.status
    requires reason in {Folded, FilteredOut} ==> forall id :: id in ids ==> id in w.folds
    requires reason == BelowMinimum ==> forall id :: id in ids ==> id !in w.folds
    ensures SettledOk(Settle(w, ids, reason))
  {
  }

  lemma SelectKeepsSettled(w: System, k: nat)
    requires SettledOk(w) && FoldsOk(w) && At(w, k).job.Holding?
    requires forall id :: id in At(w, k).job.ids ==> id in w.status
    ensures SettledOk(Chosen(w, k))
  {
    var ids := At(w, k).job.ids;
    var items := SelectedOf(w, ids);
    var idle := With(w, k, NoJob);
    assert forall id :: id in items ==> id !in w.folds;
    assert forall id :: id in ids - items ==> id in w.folds;
    SettleOnce(idle, ids - items, FilteredOut);
    SettleOnce(Settle(idle, ids - items, FilteredOut), items, BelowMinimum);
  }

  lemma FinishKeepsSettled(w: System, k: nat)
    requires Places(w) && SettledOk(w) && JobOk(w, k) && Possible(w, Finish(k))
    ensures SettledOk(Finished(w, k))
  {
    forall id | id in At(w, k).job.ids ensures id in w.status { HeldIsKnown(w, k, id); }
  }

  lemma FinishKeepsRest(w: System, k: nat)
    requires Inv(w) && Possible(w, Finish(k))
    ensures JobsOk(Finished(w, k)) && FoldsOk(Finished(w, k)) && SettledOk(Finished(w, k))
  {
    assert JobOk(w, k);
    FinishKeepsSettled(w, k);
    OtherJobs(w, Finished(w, k), k);
  }

  lemma TakeKeepsRest(w: System, k: nat)
    requires Inv(w) && At(w, k).job.Looked?
    ensures JobsOk(Taken(w, k)) && FoldsOk(Taken(w, k)) && SettledOk(Taken(w, k))
  {
    var b := At(w, k).job.b;
    forall id | id in Items(w.store, b) ensures id in w.status {
      assert OnePlace(w, id) && IsAt(w, id, InBucket(b));
    }
    OtherJobs(w, Taken(w, k), k);
  }

  lemma DropKeepsRest(w: System, k: nat)
    requires Inv(w) && Possible(w, Drop(k))
    ensures JobsOk(Apply(w, Drop(k))) && SettledOk(Apply(w, Drop(k)))
  {
    forall id | id in At(w, k).job.ids ensures id in w.status { HeldIsKnown(w, k, id); }
    OtherJobs(w, Apply(w, Drop(k)), k);
  }

  lemma NobodyElse(w: System, k: nat, id: string, i: nat)
    requires Places(w) && id in Hands(At(w, k).job) && i != k
    ensures id !in Hands(At(w, i).job)
  {
    assert OnePlace(w, id) && IsAt(w, id, InHands(k));
    assert !IsAt(w, id, InHands(i));
  }

  lemma NotSettled(w: System, k: nat, id: string)
    requires Places(w) && id in Hands(At(w, k).job)
    ensures id !in w.settled
  {
    assert OnePlace(w, id) && IsAt(w, id, InHands(k));
    assert !IsAt(w, id, Done);
  }

  lemma PromoteKeepsRest(w: System, k: nat, id: string)
    requires Inv(w) && Possible(w, Promote(k, id))
    ensures var t := Apply(w, Promote(k, id)); JobsOk(t) && FoldsOk(t) && SettledOk(t)
  {
    var t := Apply(w, Promote(k, id));
    assert JobOk(w, k);
    forall i ensures JobOk(t, i) {
      assert JobOk(w, i);
      if i != k { NobodyElse(w, k, id, i); assert At(t, i) == At(w, i); }
    }
  }

  lemma FoldKeepsRest(w: System, k: nat, id: string)
    requires Inv(w) && Possible(w, Fold(k, id))
    ensures var t := Apply(w, Fold(k, id)); JobsOk(t) && FoldsOk(t) && SettledOk(t)
  {
    var t := Apply(w, Fold(k, id));
    assert JobOk(w, k);
    HeldIsKnown(w, k, id);
    NotSettled(w, k, id);
    forall i ensures JobOk(t, i) {
      assert JobOk(w, i);
      if i != k { NobodyElse(w, k, id, i); assert At(t, i) == At(w, i); }
    }
  }

  lemma AddKeepsRest(w: System, op: Op)
    requires Inv(w) && op.Add? && Possible(w, op)
    ensures var t := Apply(w, op); JobsOk(t) && FoldsOk(t) && SettledOk(t)
  {
    var t := Apply(w, op);
    forall i ensures JobOk(t, i) {
      assert JobOk(w, i) && At(t, i) == At(w, i);
    }
  }

  lemma ClaimKeepsJobs(w: System, k: nat)
    requires JobsOk(w) && At(w, k).due != []
    ensures JobsOk(Claimed(w, k))
  {
    assert JobOk(w, k);
    OtherJobs(w, Claimed(w, k), k);
  }

  lemma TurnKeepsJobs(w: System, op: Op)
    requires JobsOk(w) && Possible(w, op) && (op.Defer? || op.Queue? || op.Fail?)
    ensures JobsOk(Apply(w, op))
  {
    assert JobOk(w, op.k);
    OtherJobs(w, Apply(w, op), op.k);
  }

  lemma ApplyKeepsInv(w: System, op: Op)
    requires Inv(w)
    ensures Inv(Apply(w, op))
  {
    ApplyKeepsPlaces(w, op);
    if Possible(w, op) {
      var t := Apply(w, op);
      match op {
        case Add(_, _, _, _, _) => AddKeepsRest(w, op);
        case Take(k) => TakeKeepsRest(w, k);
        case Drop(k) => DropKeepsRest(w, k);
        case Select(k) => SelectKeepsRest(w, k);
        case Finish(k) => FinishKeepsRest(w, k);
        case Promote(k, id) => PromoteKeepsRest(w, k, id);
        case Fold(k, id) => FoldKeepsRest(w, k, id);
        case Scan(k, _) => OtherJobs(w, t, k);
        case Claim(k) => ClaimKeepsJobs(w, k);
        case Start(k, lookup) => OtherJobs(w, Started(w, k, lookup), k);
        case Restore(k, _, _) => OtherJobs(w, t, k);
        case Defer(_, _) => TurnKeepsJobs(w, op);
        case Queue(_) => TurnKeepsJobs(w, op);
        case Fail(_, _) => TurnKeepsJobs(w, op);
      }
    }
  }

  lemma {:induction false} InvHolds(ops: seq<Op>)
    ensures Inv(Run(ops))
  {
    if ops == [] {
      forall id ensures OnePlace(START, id) { }
    } else {
      InvHolds(ops[..|ops| - 1]);
      ApplyKeepsInv(Run(ops[..|ops| - 1]), ops[|ops| - 1]);
    }
  }

  /** In every interleaving every held id is in exactly one bucket, one replica's hands,
      or settled; an id never handed to `add` is nowhere. */
  lemma EachIdInOnePlace(ops: seq<Op>, id: string)
    ensures if id in Run(ops).status then exists p :: SoleAt(Run(ops), id, p) else forall p :: !IsAt(Run(ops), id, p)
  {
    InvHolds(ops);
    assert OnePlace(Run(ops), id);
  }

  /** DIGESTED is written at most once per id, and only by a replica that holds it. */
  lemma DigestedOnce(ops: seq<Op>, id: string)
    requires id in Run(ops).status
    ensures Run(ops).status[id] == Digested <==> id in Run(ops).folds
    ensures forall i, j :: 0 <= i < j < |Run(ops).folds| ==> !(Run(ops).folds[i] == id && Run(ops).folds[j] == id)
  {
    InvHolds(ops);
  }

  // ---- Nothing is stranded or lost while lookups succeed ----

  predicate Succeeds(op: Op) {
    !op.Drop? && (op.Start? ==> !op.lookup.Throws?)
  }

  predicate LookupsSucceed(ops: seq<Op>) {
    forall i :: 0 <= i < |ops| ==> Succeeds(ops[i])
  }

  /** Replica `k` has claimed the bucket and has not taken it yet. */
  predicate Claims(w: System, k: nat, b: Bucket) {
    b in At(w, k).claimed || (At(w, k).job.Looked? && At(w, k).job.b == b)
  }

  /** A bucket with items is due, or some replica is about to take it. */
  ghost predicate Covered(w: System, b: Bucket) {
    Items(w.store, b) == {} || b in w.store.due || exists k :: Claims(w, k, b)
  }

  lemma ClaimsKept(w: System, t: System, k: nat, b: Bucket)
    requires Covered(w, b) && t.replicas == w.replicas[k := At(t, k)]
    requires Claims(w, k, b) ==> Claims(t, k, b)
    requires Items(t.store, b) == Items(w.store, b) && (b in w.store.due ==> b in t.store.due)
    ensures Covered(t, b)
  {
    if i :| Claims(w, i, b) {
      if i != k { assert At(t, i) == At(w, i); }
      assert Claims(t, i, b);
    }
  }

  lemma ClaimKeepsCover(w: System, k: nat, b: Bucket)
    requires At(w, k).due != [] && Covered(w, b)
    ensures Covered(Claimed(w, k), b)
  {
    var t, r := Claimed(w, k), At(w, k);
    if b == r.due[0] && b in w.store.due {
      assert r.claimed + [b] == At(t, k).claimed;
      assert Claims(t, k, b);
    } else {
      assert forall c :: c in r.claimed ==> c in At(t, k).claimed;
      ClaimsKept(w, t, k, b);
    }
  }

  lemma StartKeepsCover(w: System, k: nat, lookup: Lookup, b: Bucket)
    requires Possible(w, Start(k, lookup)) && !lookup.Throws? && Covered(w, b)
    ensures Covered(Started(w, k, lookup), b)
  {
    var r := At(w, k);
    assert r.claimed == [r.claimed[0]] + r.claimed[1..];
    ClaimsKept(w, Started(w, k, lookup), k, b);
  }

  lemma TakeKeepsCover(w: System, k: nat, b: Bucket)
    requires At(w, k).job.Looked? && Covered(w, b)
    ensures Covered(Taken(w, k), b)
  {
    TakeFacts(w, k);
    TakenCovers(w, Taken(w, k), k, At(w, k).job.b, Items(w.store, At(w, k).job.b), At(w, k).job.found, b);
  }

  lemma TakenCovers(w: System, t: System, k: nat, taken: Bucket, ids: set<string>, found: bool, b: Bucket)
    requires TakenTo(w, t, k, taken, ids, found) && Covered(w, b)
    requires At(w, k).job.Looked? && At(w, k).job.b == taken
    ensures Covered(t, b)
  {
    if b != taken {
      if i :| Claims(w, i, b) { assert Claims(t, i, b); }
    }
  }

  lemma AddKeepsCover(w: System, op: Op, b: Bucket)
    requires op.Add? && Possible(w, op) && Covered(w, b)
    ensures Covered(Apply(w, op), b)
  {
    var t := Apply(w, op);
    if i :| Claims(w, i, b) {
      assert At(t, i) == At(w, i);
      assert Claims(t, i, b);
    }
  }

  lemma RestoreKeepsCover(w: System, k: nat, id: string, now: int, b: Bucket)
    requires Possible(w, Restore(k, id, now)) && Covered(w, b)
    ensures Covered(RestoredOne(w, k, id, now), b)
  {
    if b != At(w, k).job.b { ClaimsKept(w, RestoredOne(w, k, id, now), k, b); }
  }

  /** A step inside a flush, after the take. */
  lemma FlushStepKeepsCover(w: System, t: System, k: nat, b: Bucket)
    requires Covered(w, b) && t.store == w.store
    requires At(w, k).job.Holding? || At(w, k).job.Sending?
    requires t.replicas == w.replicas[k := At(w, k).(job := At(t, k).job)]
    ensures Covered(t, b)
  {
    ClaimsKept(w, t, k, b);
  }

  lemma DeferKeepsCover(w: System, k: nat, dueAt: int, b: Bucket)
    requires At(w, k).job.Holding? && Covered(w, b)
    ensures Covered(Apply(w, Defer(k, dueAt)), b)
  {
    if Possible(w, Defer(k, dueAt)) { FlushStepKeepsCover(w, Apply(w, Defer(k, dueAt)), k, b); }
  }

  lemma SelectKeepsCover(w: System, k: nat, b: Bucket)
    requires At(w, k).job.Holding? && Covered(w, b)
    ensures Covered(Chosen(w, k), b)
  {
    FlushStepKeepsCover(w, Chosen(w, k), k, b);
  }

  lemma WritingKeepsCover(w: System, op: Op, b: Bucket)
    requires Possible(w, op) && Covered(w, b) && (op.Promote? || op.Fold?)
    ensures Covered(Apply(w, op), b)
  {
    match op
    case Promote(k, _) => FlushStepKeepsCover(w, Apply(w, op), k, b);
    case Fold(k, _) => FlushStepKeepsCover(w, Apply(w, op), k, b);
  }

  lemma SendingKeepsCover(w: System, op: Op, b: Bucket)
    requires Possible(w, op) && Covered(w, b) && (op.Queue? || op.Finish? || op.Fail?)
    ensures Covered(Apply(w, op), b)
  {
    match op
    case Queue(k) => FlushStepKeepsCover(w, Apply(w, op), k, b);
    case Finish(k) => FlushStepKeepsCover(w, Finished(w, k), k, b);
    case Fail(k, _) => FlushStepKeepsCover(w, Apply(w, op), k, b);
  }

  lemma ApplyKeepsCover(w: System, op: Op, b: Bucket)
    requires Covered(w, b) && Succeeds(op)
    ensures Covered(Apply(w, op), b)
  {
    if Possible(w, op) {
      match op {
        case Add(_, _, _, _, _) => AddKeepsCover(w, op, b);
        case Claim(k) => ClaimKeepsCover(w, k, b);
        case Start(k, lookup) => StartKeepsCover(w, k, lookup, b);
        case Take(k) => TakeKeepsCover(w, k, b);
        case Restore(k, id, now) => RestoreKeepsCover(w, k, id, now, b);
        case Scan(k, _) => ClaimsKept(w, Apply(w, op), k, b);
        case Defer(k, dueAt) => DeferKeepsCover(w, k, dueAt, b);
        case Select(k) => SelectKeepsCover(w, k, b);
        case Promote(_, _) => WritingKeepsCover(w, op, b);
        case Fold(_, _) => WritingKeepsCover(w, op, b);
        case _ => SendingKeepsCover(w, op, b);
      }
    }
  }

  /** In every interleaving whose lookups succeed, a bucket with items is due or about to be taken. */
  lemma {:induction false} NoBucketIsStranded(ops: seq<Op>, b: Bucket)
    requires LookupsSucceed(ops)
    ensures Covered(Run(ops), b)
  {
    if ops != [] {
      NoBucketIsStranded(ops[..|ops| - 1], b);
      ApplyKeepsCover(Run(ops[..|ops| - 1]), ops[|ops| - 1], b);
    }
  }

  /** When the user lookup throws instead, the claim is gone and nothing was put back: the
      bucket is stranded exactly if it has items, was not made due again and nobody else claims it. */
  lemma FailedLookupStrands(w: System, k: nat)
    requires Possible(w, Start(k, Throws)) && Covered(w, At(w, k).claimed[0])
    ensures var b, t := At(w, k).claimed[0], Started(w, k, Throws);
            !Covered(t, b) <==> Items(w.store, b) != {} && b !in w.store.due
                                && b !in At(w, k).claimed[1..] && forall i :: i != k ==> !Claims(w, i, b)
  {
    var b, t := At(w, k).claimed[0], Started(w, k, Throws);
    assert forall i :: i != k ==> At(t, i) == At(w, i);
    assert forall i :: i != k ==> (Claims(t, i, b) <==> Claims(w, i, b));
    assert Claims(t, k, b) <==> b in At(w, k).claimed[1..];
  }

  predicate NoneLost(w: System) {
    forall id :: id in w.settled ==> w.settled[id] != LookupFailed
  }

  lemma SettlingLosesNone(w: System, ids: set<string>, reason: Reason)
    requires NoneLost(w) && reason != LookupFailed
    ensures NoneLost(Settle(w, ids, reason))
  {
  }

  lemma NoneLostBy(w: System, op: Op)
    requires NoneLost(w) && Succeeds(op)
    ensures NoneLost(Apply(w, op))
  {
    if Possible(w, op) {
      if op.Take? {
        TakingLosesNone(w, op.k);
      } else if op.Select? {
        SelectingLosesNone(w, op.k);
      } else if op.Finish? {
        FinishingLosesNone(w, op.k);
      } else {
        assert Apply(w, op).settled == w.settled;
      }
    }
  }

  lemma TakingLosesNone(w: System, k: nat)
    requires NoneLost(w) && At(w, k).job.Looked?
    ensures NoneLost(Taken(w, k))
  {
    var t := w.(store := Emptied(w.store, At(w, k).job.b));
    SettlingLosesNone(With(t, k, NoJob), Items(w.store, At(w, k).job.b), NoSuchUser);
  }

  lemma SelectingLosesNone(w: System, k: nat)
    requires NoneLost(w) && At(w, k).job.Holding?
    ensures NoneLost(Chosen(w, k))
  {
    var j := At(w, k).job;
    var items := SelectedOf(w, j.ids);
    SettlingLosesNone(With(w, k, NoJob), j.ids - items, FilteredOut);
    SettlingLosesNone(Settle(With(w, k, NoJob), j.ids - items, FilteredOut), items, BelowMinimum);
  }

  lemma FinishingLosesNone(w: System, k: nat)
    requires NoneLost(w) && At(w, k).job.Sending?
    ensures NoneLost(Finished(w, k))
  {
    var j := At(w, k).job;
    SettlingLosesNone(With(w, k, NoJob), j.ids - j.items, FilteredOut);
    SettlingLosesNone(Settle(With(w, k, NoJob), j.ids - j.items, FilteredOut), j.items, Folded);
  }

  /** Nothing taken is lost, unless a lookup throws after the take; and then everything
      the replica held is. */
  lemma {:induction false} LostOnlyByLookups(ops: seq<Op>)
    requires LookupsSucceed(ops)
    ensures NoneLost(Run(ops))
  {
    if ops != [] {
      LostOnlyByLookups(ops[..|ops| - 1]);
      var w, op := Run(ops[..|ops| - 1]), ops[|ops| - 1];
      NoneLostBy(w, op);
    }
  }

  lemma FailedLookupLosesAll(ops: seq<Op>, k: nat, id: string)
    requires Possible(Run(ops), Drop(k)) && id in At(Run(ops), k).job.ids
    ensures var t := Apply(Run(ops), Drop(k));
            && SoleAt(t, id, Done) && t.settled[id] == LookupFailed
            && id in Run(ops).status && id in t.status && t.status[id] == Run(ops).status[id]
  {
    InvHolds(ops);
    var w := Run(ops);
    var t := Apply(w, Drop(k));
    assert OnePlace(w, id) && IsAt(w, id, InHands(k));
    forall q | IsAt(t, id, q) ensures q == Done {
      assert q != Done ==> q != InHands(k) && IsAt(w, id, q);
    }
  }

  /** What becomes of an id whose user exists, while lookups succeed. */
  lemma Fate(ops: seq<Op>, id: string)
    requires LookupsSucceed(ops) && id in Run(ops).status
    ensures var w := Run(ops);
            || (exists b :: SoleAt(w, id, InBucket(b)) && Covered(w, b))
            || (exists k :: SoleAt(w, id, InHands(k)))
            || (SoleAt(w, id, Done) &&
                match w.settled[id]
                case Folded => w.status[id] == Digested
                case FilteredOut => w.status[id] == Digested
                case BelowMinimum => Open(w.status[id])
                case NoSuchUser => true
                case LookupFailed => false)
  {
    var w := Run(ops);
    InvHolds(ops);
    LostOnlyByLookups(ops);
    assert OnePlace(w, id);
    var p :| SoleAt(w, id, p);
    match p {
      case InBucket(b) => NoBucketIsStranded(ops, b);
      case InHands(k) =>
      case Done =>
    }
  }

  /** Only the capped bucket has a minimum above one: it alone leaves items behind. */
  lemma OnlyFewCappedAreLeft(ops: seq<Op>, k: nat)
    requires Possible(Run(ops), Select(k))
    ensures var w, t := Run(ops), Chosen(Run(ops), k);
            var items := SelectedOf(w, At(w, k).job.ids);
            (exists id :: id in items && id in t.settled) <==>
            At(w, k).job.b.source == CappedPile && 1 <= |items| < 3
  {
    InvHolds(ops);
    var w := Run(ops);
    var items := SelectedOf(w, At(w, k).job.ids);
    if items != {} {
      var id :| id in items;
      assert |items| >= 1 by { assert items == {id} + (items - {id}); }
    }
    forall id | id in items ensures id !in w.settled { NotSettled(w, k, id); }
    if At(w, k).job.b.source == CappedPile && 1 <= |items| < 3 {
      var id :| id in items;
      assert id in Chosen(w, k).settled;
    }
  }
}
