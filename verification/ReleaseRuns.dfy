/** Many replicas releasing from one set, interleaved command by command. */
module ReleaseRuns {
  import opened Redis
  import opened Events
  import opened States
  import opened ScheduledRelease

  /** One run of `releaseDue`: members whose depth is still to be read, members still to be
      claimed, the member claimed last, and how many claims were tried. */
  datatype Replica = Replica(batch: nat, unread: seq<Member>, todo: seq<Member>, hand: Option<Member>, claims: nat)

  /** A choice made for a quiet entry of a user. */
  datatype Choice = Choice(batch: nat, user: string, toDigest: bool)

  datatype System = System(
    entries: SortedSet<Member>, held: Held, replicas: map<nat, Replica>, done: set<Member>, known: set<Member>,
    batches: nat, depth: map<nat, map<string, nat>>, choices: seq<Choice>)

  const START := System(map[], Held(map[], map[], []), map[], {}, {}, 0, map[], [])

  datatype Op =
    | Schedule(m: Member, user: string, at: int)     // the engine defers a notification
    | Begin(k: nat, due: seq<Member>)                // reads due members; the list may be stale at once
    | Read(k: nat)                                   // next depth of the snapshot
    | Claim(k: nat)                                  // ZREM of the next member
    | Finish(k: nat, fails: bool, now: int)          // releases what it claimed, or puts it back

  function At(w: System, k: nat): Replica {
    if k in w.replicas then w.replicas[k] else Replica(0, [], [], None, 0)
  }

  function Depths(w: System, batch: nat): map<string, nat> {
    if batch in w.depth then w.depth[batch] else map[]
  }

  /** An id is deferred once, by quiet hours or by send-time optimisation. */
  predicate Possible(w: System, op: Op) {
    match op
    case Schedule(m, _, _) => m !in w.known && (m.Entry? ==> m.kind.Some? && m.id !in w.held.rows)
    case Begin(k, _) => At(w, k).unread == [] && At(w, k).todo == [] && At(w, k).hand.None?
    case Read(k) => At(w, k).unread != []
    case Claim(k) => At(w, k).unread == [] && At(w, k).todo != [] && At(w, k).hand.None?
    case Finish(k, _, _) => At(w, k).hand.Some?
  }

  function Scheduled(w: System, m: Member, user: string, at: int): System {
    var t := w.(entries := w.entries[m := at], known := w.known + {m});
    if m.Garbage? then t
    else if m.kind == Some(HeldByQuietHours) then
      t.(held := Held(w.held.rows[m.id := Notice(user, Quiet)],
                      w.held.queue[user := (if user in w.held.queue then w.held.queue[user] else {}) + {m.id}],
                          w.held.released))
    else t.(held := w.held.(rows := w.held.rows[m.id := Notice(user, Routed)]))
  }

  function Claimed(w: System, k: nat): System
    requires At(w, k).todo != []
  {
    var r := At(w, k);
    var m := r.todo[0];
    w.(entries := w.entries - {m},
       replicas := w.replicas[k :=
           r.(todo := r.todo[1..], hand := if m in w.entries then Some(m) else None, claims := r.claims + 1)])
  }

  function Finished(w: System, k: nat, fails: bool, now: int): System
    requires At(w, k).hand.Some?
  {
    var r := At(w, k);
    var m := r.hand.value;
    var t := w.(replicas := w.replicas[k := r.(hand := None)]);
    if m.Garbage? || fails then t.(entries := w.entries[m := now + RETRY_DELAY])
    else
      var depth := Depths(w, r.batch);
      t.(held := ReleasedIn(w.held, m, depth), done := w.done + {m},
         choices := if m.kind == Some(HeldByQuietHours) && m.user.Some?
                    then w.choices + [Choice(r.batch, m.user.value, ToDigest(m, depth))] else w.choices)
  }

  function Apply(w: System, op: Op): System {
    if !Possible(w, op) then w
    else
      match op
      case Schedule(m, user, at) => Scheduled(w, m, user, at)
      case Begin(k, due) =>
        w.(replicas := w.replicas[k := Replica(w.batches, due, due, None, 0)], batches := w.batches + 1)
      case Read(k) =>
        var r := At(w, k);
        w.(replicas := w.replicas[k := r.(unread := r.unread[1..])],
           depth := w.depth[r.batch := ReadDepth(w.held, Depths(w, r.batch), r.unread[0])])
      case Claim(k) => Claimed(w, k)
      case Finish(k, fails, now) => Finished(w, k, fails, now)
  }

  function Run(ops: seq<Op>): System {
    if ops == [] then START else Apply(Run(ops[..|ops| - 1]), ops[|ops| - 1])
  }

  // ---- Every entry is in exactly one place ----

  datatype Place = InSet | InHand(k: nat) | Done

  predicate IsAt(w: System, m: Member, p: Place) {
    match p
    case InSet => m in w.entries
    case InHand(k) => At(w, k).hand == Some(m)
    case Done => m in w.done
  }

  ghost predicate SoleAt(w: System, m: Member, p: Place) {
    IsAt(w, m, p) && forall q :: IsAt(w, m, q) ==> q == p
  }

  ghost predicate OnePlace(w: System, m: Member) {
    if m in w.known then exists p :: SoleAt(w, m, p) else forall q :: !IsAt(w, m, q)
  }

  ghost predicate Places(w: System) {
    forall m :: OnePlace(w, m)
  }

  lemma Stays(w: System, t: System, m: Member)
    requires OnePlace(w, m) && (m in t.known <==> m in w.known)
    requires forall q :: IsAt(t, m, q) <==> IsAt(w, m, q)
    ensures OnePlace(t, m)
  {
    if m in w.known {
      var p :| SoleAt(w, m, p);
      assert SoleAt(t, m, p);
    }
  }

  lemma Moves(w: System, t: System, m: Member, from: Place, to: Place)
    requires OnePlace(w, m) && (m in t.known <==> m in w.known)
    requires from != to && IsAt(w, m, from) && IsAt(t, m, to) && !IsAt(t, m, from)
    requires forall q :: q != from && q != to ==> (IsAt(t, m, q) <==> IsAt(w, m, q))
    ensures OnePlace(t, m)
  {
    var p :| SoleAt(w, m, p);
    assert p == from;
    assert SoleAt(t, m, to);
  }

  lemma ScheduleKeepsPlaces(w: System, m: Member, user: string, at: int)
    requires Places(w) && m !in w.known
    ensures Places(Scheduled(w, m, user, at))
  {
    var t := Scheduled(w, m, user, at);
    forall x ensures OnePlace(t, x) {
      assert OnePlace(w, x);
      if x == m {
        forall q ensures IsAt(t, x, q) <==> q == InSet { assert !IsAt(w, x, q); }
        assert SoleAt(t, x, InSet);
      } else {
        forall q ensures IsAt(t, x, q) <==> IsAt(w, x, q) { }
        Stays(w, t, x);
      }
    }
  }

  lemma ClaimKeepsPlaces(w: System, k: nat)
    requires Places(w) && Possible(w, Claim(k))
    ensures Places(Claimed(w, k))
  {
    var t, m := Claimed(w, k), At(w, k).todo[0];
    forall x ensures OnePlace(t, x) {
      assert OnePlace(w, x);
      if x == m && m in w.entries {
        assert IsAt(w, x, InSet);
        forall q | q != InSet && q != InHand(k) ensures IsAt(t, x, q) <==> IsAt(w, x, q) { }
        Moves(w, t, x, InSet, InHand(k));
      } else {
        forall q ensures IsAt(t, x, q) <==> IsAt(w, x, q) { }
        Stays(w, t, x);
      }
    }
  }

  lemma FinishKeepsPlaces(w: System, k: nat, fails: bool, now: int)
    requires Places(w) && At(w, k).hand.Some?
    ensures Places(Finished(w, k, fails, now))
  {
    var t, m := Finished(w, k, fails, now), At(w, k).hand.value;
    var to := if m.Garbage? || fails then InSet else Done;
    forall x ensures OnePlace(t, x) {
      assert OnePlace(w, x);
      if x == m {
        assert IsAt(w, x, InHand(k));
        forall q | q != InHand(k) && q != to ensures IsAt(t, x, q) <==> IsAt(w, x, q) { }
        Moves(w, t, x, InHand(k), to);
      } else {
        forall q ensures IsAt(t, x, q) <==> IsAt(w, x, q) { }
        Stays(w, t, x);
      }
    }
  }

  lemma ApplyKeepsPlaces(w: System, op: Op)
    requires Places(w)
    ensures Places(Apply(w, op))
  {
    if Possible(w, op) {
      match op {
        case Schedule(m, user, at) => ScheduleKeepsPlaces(w, m, user, at);
        case Claim(k) => ClaimKeepsPlaces(w, k);
        case Finish(k, fails, now) => FinishKeepsPlaces(w, k, fails, now);
        case _ =>
          var t := Apply(w, op);
          forall x ensures OnePlace(t, x) {
            assert OnePlace(w, x);
            forall q ensures IsAt(t, x, q) <==> IsAt(w, x, q) { }
            Stays(w, t, x);
          }
      }
    }
  }

  // ---- At most one release each ----

  /** Ids belong to one entry, and an id is released exactly when its entry is done. */
  ghost predicate ReleasesOk(w: System) {
    && (forall m :: m in w.known && m.Entry? ==> m.id in w.held.rows && m.kind.Some?)
    && (forall m, n :: m in w.known && n in w.known && m.Entry? && n.Entry? && m.id == n.id ==> m == n)
    && (forall m :: m in w.known && m.Entry? ==> EntryOk(w, m))
    && (forall i, j :: 0 <= i < j < |w.held.released| ==> w.held.released[i].id != w.held.released[j].id)
    && (forall i :: 0 <= i < |w.held.released| ==> w.held.released[i].id in w.held.rows)
  }

  predicate IsReleased(h: Held, id: string) {
    exists i :: 0 <= i < |h.released| && h.released[i].id == id
  }

  predicate EntryOk(w: System, m: Member)
    requires m.Entry? && m.id in w.held.rows
  {
    if m in w.done then IsReleased(w.held, m.id) && !Waiting(w.held, m.id)
    else !IsReleased(w.held, m.id)
         && w.held.rows[m.id].status == if m.kind == Some(HeldByQuietHours) then Quiet else Routed
  }

  lemma ReleaseOfOne(h: Held, m: Member, depth: map<string, nat>)
    requires m.Entry? && m.id in h.rows
    requires h.rows[m.id].status == if m.kind == Some(HeldByQuietHours) then Quiet else Routed
    ensures var g := ReleasedIn(h, m, depth);
            && g.released == h.released + [Release(m.id, ToDigest(m, depth))]
            && g.rows.Keys == h.rows.Keys && !Waiting(g, m.id)
            && forall id :: id in h.rows && id != m.id ==> g.rows[id] == h.rows[id]
  {
  }

  lemma NothingReleased(w: System, t: System)
    requires ReleasesOk(w) && t.held == w.held && t.done == w.done && t.known == w.known
    ensures ReleasesOk(t)
  {
    forall n | n in t.known && n.Entry? ensures EntryOk(t, n) { assert EntryOk(w, n); }
  }

  lemma OneReleased(w: System, t: System, m: Member, depth: map<string, nat>)
    requires ReleasesOk(w) && m.Entry? && m in w.known && m !in w.done
    requires t.held == ReleasedIn(w.held, m, depth) && t.done == w.done + {m} && t.known == w.known
    ensures ReleasesOk(t)
  {
    assert EntryOk(w, m);
    ReleaseOfOne(w.held, m, depth);
    assert t.held.released[|w.held.released|].id == m.id;
    forall n | n in t.known && n.Entry? ensures EntryOk(t, n) {
      assert EntryOk(w, n);
      OneMore(w.held, t.held, m.id, n.id);
    }
  }

  lemma FinishKeepsReleases(w: System, k: nat, fails: bool, now: int)
    requires Places(w) && ReleasesOk(w) && At(w, k).hand.Some?
    ensures ReleasesOk(Finished(w, k, fails, now))
  {
    var t, m := Finished(w, k, fails, now), At(w, k).hand.value;
    assert OnePlace(w, m) && IsAt(w, m, InHand(k));
    assert !IsAt(w, m, Done);
    if m.Entry? && !fails {
      OneReleased(w, t, m, Depths(w, At(w, k).batch));
    } else {
      NothingReleased(w, t);
    }
  }

  lemma OneMore(h: Held, g: Held, id: string, x: string)
    requires |g.released| == |h.released| + 1 && g.released[..|h.released|] == h.released
    requires g.released[|h.released|].id == id
    ensures IsReleased(g, x) <==> IsReleased(h, x) || x == id
  {
    if i :| 0 <= i < |h.released| && h.released[i].id == x { assert g.released[i].id == x; }
    if i :| 0 <= i < |g.released| && g.released[i].id == x && i < |h.released| { assert h.released[i].id == x; }
  }

  lemma ScheduleKeepsReleases(w: System, m: Member, user: string, at: int)
    requires Places(w) && ReleasesOk(w) && Possible(w, Schedule(m, user, at))
    ensures ReleasesOk(Scheduled(w, m, user, at))
  {
    var t := Scheduled(w, m, user, at);
    assert OnePlace(w, m) && !IsAt(w, m, Done);
    forall n | n in t.known && n.Entry? ensures EntryOk(t, n) {
      if n != m { assert EntryOk(w, n); }
    }
  }

  lemma ApplyKeepsReleases(w: System, op: Op)
    requires Places(w) && ReleasesOk(w)
    ensures ReleasesOk(Apply(w, op))
  {
    if Possible(w, op) {
      match op {
        case Schedule(m, user, at) => ScheduleKeepsReleases(w, m, user, at);
        case Finish(k, fails, now) => FinishKeepsReleases(w, k, fails, now);
        case _ =>
          var t := Apply(w, op);
          forall n | n in t.known && n.Entry? ensures EntryOk(t, n) { assert EntryOk(w, n); }
      }
    }
  }

  // ---- One choice per user and batch ----

  /** The depth of a user with a quiet entry still to be handled has been read, or will be. */
  predicate WillKnow(w: System, k: nat, m: Member) {
    m.Entry? && m.kind == Some(HeldByQuietHours) && m.user.Some? ==>
      m in At(w, k).unread || m.user.value in Depths(w, At(w, k).batch)
  }

  ghost predicate BatchOk(w: System, k: nat) {
    && (forall m :: m in At(w, k).todo ==> WillKnow(w, k, m))
    && (At(w, k).hand.Some? ==> At(w, k).unread == [] && WillKnow(w, k, At(w, k).hand.value))
    && (At(w, k).unread != [] ==> At(w, k).claims == 0)
  }

  predicate ChoiceOk(w: System, c: Choice) {
    c.user in Depths(w, c.batch) && (c.toDigest <==> Depths(w, c.batch)[c.user] > PILE_UP)
  }

  ghost predicate ChoicesOk(w: System) {
    && (forall k :: BatchOk(w, k))
    && (forall i :: 0 <= i < |w.choices| ==> ChoiceOk(w, w.choices[i]))
  }

  /** A depth, once read, is never read again in the batch. */
  lemma DepthIsKept(w: System, op: Op, batch: nat, user: string)
    requires user in Depths(w, batch)
    ensures user in Depths(Apply(w, op), batch) && Depths(Apply(w, op), batch)[user] == Depths(w, batch)[user]
  {
  }

  lemma OthersKeepBatch(w: System, op: Op, k: nat)
    requires BatchOk(w, k) && At(Apply(w, op), k) == At(w, k)
    ensures BatchOk(Apply(w, op), k)
  {
    forall m: Member | m.Entry? && m.user.Some? && m.user.value in Depths(w, At(w, k).batch)
      ensures m.user.value in Depths(Apply(w, op), At(w, k).batch)
    {
      DepthIsKept(w, op, At(w, k).batch, m.user.value);
    }
  }

  lemma OwnStepKeepsBatch(w: System, op: Op, k: nat)
    requires BatchOk(w, k) && Possible(w, op) && !op.Schedule? && op.k == k
    ensures BatchOk(Apply(w, op), k)
  {
    var r, t := At(w, k), Apply(w, op);
    match op
    case Begin(_, _) =>
    case Claim(_) =>
      assert forall m :: m in r.todo[1..] ==> m in r.todo;
      assert r.todo[0] in r.todo;
    case Finish(_, _, _) =>
    case Read(_) =>
      assert r.unread == [r.unread[0]] + r.unread[1..];
      forall m | m in r.todo ensures WillKnow(t, k, m) {
        assert WillKnow(w, k, m);
        if m.Entry? && m.user.Some? && m.user.value in Depths(w, r.batch) {
          DepthIsKept(w, op, r.batch, m.user.value);
        }
      }
  }

  lemma ApplyKeepsChoices(w: System, op: Op)
    requires ChoicesOk(w)
    ensures ChoicesOk(Apply(w, op))
  {
    if Possible(w, op) {
      var t := Apply(w, op);
      forall k ensures BatchOk(t, k) {
        assert BatchOk(w, k);
        if !op.Schedule? && op.k == k {
          OwnStepKeepsBatch(w, op, k);
        } else {
          OthersKeepBatch(w, op, k);
        }
      }
      forall i | 0 <= i < |t.choices| ensures ChoiceOk(t, t.choices[i]) {
        if i < |w.choices| {
          assert t.choices[i] == w.choices[i] && ChoiceOk(w, w.choices[i]);
          DepthIsKept(w, op, w.choices[i].batch, w.choices[i].user);
        } else {
          assert op.Finish? && BatchOk(w, op.k);
        }
      }
    }
  }

  lemma {:induction false} InvHolds(ops: seq<Op>)
    ensures Places(Run(ops)) && ReleasesOk(Run(ops)) && ChoicesOk(Run(ops))
  {
    if ops == [] {
      forall m ensures OnePlace(START, m) { }
    } else {
      var w, op := Run(ops[..|ops| - 1]), ops[|ops| - 1];
      InvHolds(ops[..|ops| - 1]);
      ApplyKeepsPlaces(w, op);
      ApplyKeepsReleases(w, op);
      ApplyKeepsChoices(w, op);
    }
  }

  /** In every interleaving each deferred entry is in the set, in one replica's hands or done. */
  lemma EachEntryInOnePlace(ops: seq<Op>, m: Member)
    ensures if m in Run(ops).known then exists p :: SoleAt(Run(ops), m, p) else forall p :: !IsAt(Run(ops), m, p)
  {
    InvHolds(ops);
    assert OnePlace(Run(ops), m);
  }

  /** A notification is fanned out or deferred once when its entry is done, and never before. */
  lemma ReleasedOnce(ops: seq<Op>, m: Member)
    requires m in Run(ops).known && m.Entry?
    ensures IsReleased(Run(ops).held, m.id) <==> m in Run(ops).done
    ensures forall i, j :: 0 <= i < j < |Run(ops).held.released| ==>
              !(Run(ops).held.released[i].id == m.id && Run(ops).held.released[j].id == m.id)
    ensures m !in Run(ops).done ==> Waiting(Run(ops).held, m.id)
  {
    InvHolds(ops);
    assert EntryOk(Run(ops), m);
  }

  /** What a replica cannot release goes back, 30 seconds on, and stays waiting. */
  lemma FailureGoesBack(ops: seq<Op>, k: nat, now: int)
    requires At(Run(ops), k).hand.Some?
    ensures var m, t := At(Run(ops), k).hand.value, Apply(Run(ops), Finish(k, true, now));
            SoleAt(t, m, InSet) && t.entries[m] == now + 30_000 && t.held == Run(ops).held
  {
    InvHolds(ops);
    var w := Run(ops);
    var m := At(w, k).hand.value;
    var t := Apply(w, Finish(k, true, now));
    assert OnePlace(w, m) && IsAt(w, m, InHand(k));
    forall q | IsAt(t, m, q) ensures q == InSet {
      if q != InSet { assert IsAt(w, m, q); }
    }
  }

  // ---- The queue of a user ----

  /** A user's quiet queue holds the user's QUIET notifications and no others. */
  ghost predicate QueuesOk(h: Held) {
    forall id, user :: (user in h.queue && id in h.queue[user]) <==> (id in h.rows && h.rows[id] == Notice(user, Quiet))
  }

  lemma ReleaseKeepsQueues(h: Held, m: Member, depth: map<string, nat>)
    requires QueuesOk(h) && m.Entry?
    ensures QueuesOk(ReleasedIn(h, m, depth))
  {
  }

  lemma {:induction false} QueuesHold(ops: seq<Op>)
    ensures QueuesOk(Run(ops).held)
  {
    if ops != [] {
      var w, op := Run(ops[..|ops| - 1]), ops[|ops| - 1];
      QueuesHold(ops[..|ops| - 1]);
      if Possible(w, op) && op.Finish? && At(w, op.k).hand.value.Entry? {
        ReleaseKeepsQueues(w.held, At(w, op.k).hand.value, Depths(w, At(w, op.k).batch));
      }
    }
  }

  function QuietIds(h: Held, user: string): set<string> {
    set id | id in h.rows && h.rows[id] == Notice(user, Quiet)
  }

  /** In every run the depth of a user's queue is the number of the user's QUIET notifications. */
  lemma DepthCountsQuiet(ops: seq<Op>, user: string)
    ensures Depth(Run(ops).held, user) == |QuietIds(Run(ops).held, user)|
  {
    QueuesHold(ops);
    var h := Run(ops).held;
    if user in h.queue {
      assert h.queue[user] == QuietIds(h, user);
    } else {
      assert QuietIds(h, user) == {};
    }
  }

  // ---- When the depth was read ----

  /** Batches are numbered as they begin, and each belongs to one replica. */
  ghost predicate BatchesOk(w: System) {
    && (forall k :: k in w.replicas ==> w.replicas[k].batch < w.batches)
    && (forall k, l :: k in w.replicas && l in w.replicas && w.replicas[k].batch == w.replicas[l].batch ==> k == l)
    && (forall b :: b in w.depth ==> b < w.batches)
  }

  lemma SameBatches(w: System, t: System, k: nat)
    requires BatchesOk(w) && k in w.replicas && k in t.replicas
    requires t.replicas == w.replicas[k := t.replicas[k]] && t.replicas[k].batch == w.replicas[k].batch
    requires t.batches == w.batches && forall b :: b in t.depth ==> b in w.depth || b == w.replicas[k].batch
    ensures BatchesOk(t)
  {
  }

  lemma NewBatch(w: System, t: System, k: nat)
    requires BatchesOk(w) && k in t.replicas && t.replicas == w.replicas[k := t.replicas[k]]
    requires t.replicas[k].batch == w.batches && t.batches == w.batches + 1 && t.depth == w.depth
    ensures BatchesOk(t)
  {
  }

  lemma BatchesStep(w: System, op: Op)
    requires BatchesOk(w)
    ensures BatchesOk(Apply(w, op))
  {
    if Possible(w, op) {
      match op {
        case Schedule(m, user, at) =>
        case Begin(k, due) => NewBatch(w, Apply(w, op), k);
        case Read(k) => SameBatches(w, Apply(w, op), k);
        case Claim(k) => SameBatches(w, Claimed(w, k), k);
        case Finish(k, fails, now) => SameBatches(w, Finished(w, k, fails, now), k);
      }
    }
  }

  lemma {:induction false} BatchesHold(ops: seq<Op>)
    ensures BatchesOk(Run(ops))
  {
    if ops != [] {
      BatchesHold(ops[..|ops| - 1]);
      BatchesStep(Run(ops[..|ops| - 1]), ops[|ops| - 1]);
    }
  }

  /** At step `i` a replica in `batch`, which has tried no claim in it yet, read the depth of
      the user's queue, and `depth` notifications of the user were QUIET. */
  predicate ReadAt(ops: seq<Op>, i: nat, batch: nat, user: string, depth: nat)
    requires i < |ops|
  {
    var w := Run(ops[..i]);
    && ops[i].Read? && Possible(w, ops[i])
    && At(w, ops[i].k).batch == batch && At(w, ops[i].k).claims == 0
    && QuietOf(At(w, ops[i].k).unread[0], user) && user !in Depths(w, batch)
    && |QuietIds(w.held, user)| == depth
  }

  /** Every depth a batch uses is the number of the user's QUIET notifications at one moment
      after the batch began and before its first claim. */
  lemma {:induction false} DepthWasRead(ops: seq<Op>, batch: nat, user: string)
    requires user in Depths(Run(ops), batch)
    ensures exists i :: 0 <= i < |ops| && ReadAt(ops, i, batch, user, Depths(Run(ops), batch)[user])
  {
    var before := ops[..|ops| - 1];
    var w, op := Run(before), ops[|ops| - 1];
    if user in Depths(w, batch) {
      DepthIsKept(w, op, batch, user);
      DepthWasRead(before, batch, user);
      var depth := Depths(w, batch)[user];
      var i :| 0 <= i < |before| && ReadAt(before, i, batch, user, depth);
      assert before[..i] == ops[..i];
      assert ReadAt(ops, i, batch, user, depth);
    } else {
      InvHolds(before);
      assert op.Read? && Possible(w, op) && BatchOk(w, op.k);
      DepthCountsQuiet(before, user);
      assert ReadAt(ops, |ops| - 1, batch, user, Depths(Run(ops), batch)[user]);
    }
  }

  /** All quiet entries of a user in one batch get the same choice, and it is the digest
      exactly if more than five were QUIET when the batch looked, before its first claim. */
  lemma SameChoiceInBatch(ops: seq<Op>, i: nat, j: nat)
    requires i < |Run(ops).choices| && j < |Run(ops).choices|
    requires Run(ops).choices[i].batch == Run(ops).choices[j].batch
        && Run(ops).choices[i].user == Run(ops).choices[j].user
    ensures Run(ops).choices[i].toDigest == Run(ops).choices[j].toDigest
    ensures var c := Run(ops).choices[i];
            exists r, depth: nat ::
              0 <= r < |ops| && ReadAt(ops, r, c.batch, c.user, depth) && (c.toDigest <==> depth > 5)
  {
    InvHolds(ops);
    var c := Run(ops).choices[i];
    assert ChoiceOk(Run(ops), c) && ChoiceOk(Run(ops), Run(ops).choices[j]);
    DepthWasRead(ops, c.batch, c.user);
  }

  /** A choice is recorded for every quiet entry released, and it is what becomes of the
      notification. */
  lemma ChoiceIsRelease(ops: seq<Op>, k: nat, now: int, user: string)
    requires At(Run(ops), k).hand.Some? && QuietOf(At(Run(ops), k).hand.value, user)
    ensures var w, t, m := Run(ops), Apply(Run(ops), Finish(k, false, now)), At(Run(ops), k).hand.value;
            exists toDigest ::
              && t.choices == w.choices + [Choice(At(w, k).batch, user, toDigest)]
              && t.held.released == w.held.released + [Release(m.id, toDigest)]
              && m.id in t.held.rows && t.held.rows[m.id].status == if toDigest then DigestPending else Queued
  {
    InvHolds(ops);
    var w, m := Run(ops), At(Run(ops), k).hand.value;
    assert OnePlace(w, m) && IsAt(w, m, InHand(k)) && !IsAt(w, m, Done);
    assert EntryOk(w, m);
    var depth := Depths(w, At(w, k).batch);
    ReleaseOfOne(w.held, m, depth);
    assert ReleasedIn(w.held, m, depth).rows[m.id].status == if ToDigest(m, depth) then DigestPending else Queued;
    assert Apply(w, Finish(k, false, now)).choices == w.choices + [Choice(At(w, k).batch, user, ToDigest(m, depth))];
  }
}
