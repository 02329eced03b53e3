/** Releasing deferred notifications (src/notifications/engine/scheduled-release.service.ts),
    with the two engine calls it makes taken as all-or-nothing. */
module ScheduledRelease {
  import opened Redis
  import opened Events
  import opened States

  const PILE_UP := 5
  const RETRY_DELAY := 30_000
  const BATCH := 50

  datatype Kind = HeldByQuietHours | SendTime

  /** A member of the release set: the JSON of an entry, or text that does not parse. */
  datatype Member =
    | Entry(id: string, channels: seq<Channel>, kind: Option<Kind>, user: Option<string>)
    | Garbage(text: string)

  /** Released by fanning out, or into the morning digest. */
  datatype Release = Release(id: string, toDigest: bool)

  /** The engine's side: the notifications, each user's quiet queue and what was released, in order. */
  datatype Notice = Notice(user: string, status: Status)

  datatype Held = Held(rows: map<string, Notice>, queue: map<string, set<string>>, released: seq<Release>)

  function Depth(h: Held, user: string): nat {
    if user in h.queue then |h.queue[user]| else 0
  }

  function Unqueued(h: Held, user: string, id: string): Held {
    if user in h.queue then h.(queue := h.queue[user := h.queue[user] - {id}]) else h
  }

  predicate Waiting(h: Held, id: string) {
    id in h.rows && h.rows[id].status in {Quiet, Routed}
  }

  function Moved(h: Held, id: string, to: Status): Held
    requires id in h.rows
  {
    h.(rows := h.rows[id := h.rows[id].(status := to)])
  }

  /** A notification leaves QUIET or ROUTED for good when it is fanned out. */
  function ResumedIn(h: Held, id: string): Held {
    if !Waiting(h, id) then h
    else
      var g := if h.rows[id].status == Quiet then Unqueued(h, h.rows[id].user, id) else h;
      Moved(g, id, Queued).(released := g.released + [Release(id, false)])
  }

  function DeferredIn(h: Held, id: string): Held {
    if id !in h.rows || h.rows[id].status != Quiet then h
    else
      var g := Unqueued(h, h.rows[id].user, id);
      Moved(g, id, DigestPending).(released := g.released + [Release(id, true)])
  }

  /** A QUIET notification has moved on, and has left its user's queue, alone. */
  ghost predicate LeavesQueue(before: Held, after: Held, id: string, to: Status) {
    id in before.rows && before.rows[id].status == Quiet ==>
      var user := before.rows[id].user;
      && id in after.rows && after.rows[id] == Notice(user, to)
      && after.queue.Keys == before.queue.Keys
      && forall u :: u in before.queue ==>
           after.queue[u] == if u == user then before.queue[u] - {id} else before.queue[u]
  }

  predicate QuietOf(m: Member, user: string) {
    m.Entry? && m.kind == Some(HeldByQuietHours) && m.user == Some(user)
  }

  function PileUp(m: Member, depth: map<string, nat>): nat
    requires m.Entry?
  {
    if m.user.Some? && m.user.value in depth then depth[m.user.value] else 0
  }

  predicate ToDigest(m: Member, depth: map<string, nat>)
    requires m.Entry?
  {
    m.kind == Some(HeldByQuietHours) && PileUp(m, depth) > PILE_UP
  }

  function ReleasedIn(h: Held, m: Member, depth: map<string, nat>): Held
    requires m.Entry?
  {
    if ToDigest(m, depth) then DeferredIn(h, m.id) else ResumedIn(h, m.id)
  }

  /** The depth of each user's quiet queue, read once per user before anything is released. */
  function Snapshot(h: Held, due: seq<Member>): map<string, nat> {
    if due == [] then map[]
    else ReadDepth(h, Snapshot(h, due[..|due| - 1]), due[|due| - 1])
  }

  function ReadDepth(h: Held, depth: map<string, nat>, m: Member): map<string, nat> {
    if m.Entry? && m.kind == Some(HeldByQuietHours) && m.user.Some? && m.user.value !in depth
    then depth[m.user.value := Depth(h, m.user.value)]
    else depth
  }

  lemma {:induction false} SnapshotIsDepth(h: Held, due: seq<Member>, user: string)
    ensures user in Snapshot(h, due) <==> exists i :: 0 <= i < |due| && QuietOf(due[i], user)
    ensures user in Snapshot(h, due) ==> Snapshot(h, due)[user] == Depth(h, user)
  {
    if due != [] {
      var last := |due| - 1;
      SnapshotIsDepth(h, due[..last], user);
      if QuietOf(due[last], user) { assert user in Snapshot(h, due); }
      if i :| 0 <= i < last && QuietOf(due[..last][i], user) { assert QuietOf(due[i], user); }
      if i :| 0 <= i < |due| && QuietOf(due[i], user) && i < last { assert QuietOf(due[..last][i], user); }
    }
  }

  /** Within one batch all quiet entries of a user get the same choice: the digest exactly
      if more than five were queued when the batch began. */
  lemma SameChoice(h: Held, due: seq<Member>, i: nat, user: string)
    requires i < |due| && QuietOf(due[i], user)
    ensures ToDigest(due[i], Snapshot(h, due)) <==> Depth(h, user) > PILE_UP
  {
    SnapshotIsDepth(h, due, user);
  }

  predicate Failing(m: Member, fails: set<Member>) {
    m.Garbage? || m in fails
  }

  function ReleasedAll(h: Held, due: seq<Member>, depth: map<string, nat>, fails: set<Member>): Held {
    if due == [] then h
    else
      var g := ReleasedAll(h, due[..|due| - 1], depth, fails);
      if Failing(due[|due| - 1], fails) then g else ReleasedIn(g, due[|due| - 1], depth)
  }

  /** The release set after a batch: what failed is due again 30 seconds later. */
  function LeftIn(s: SortedSet<Member>, due: seq<Member>, fails: set<Member>, later: int): SortedSet<Member> {
    if due == [] then s
    else
      var left := LeftIn(s, due[..|due| - 1], fails, later) - {due[|due| - 1]};
      if Failing(due[|due| - 1], fails) then left[due[|due| - 1] := later + RETRY_DELAY] else left
  }

  /** Every entry of the batch is gone or back with its new time, and no other entry moved. */
  lemma {:induction false} BatchLosesNothing(s: SortedSet<Member>, due: seq<Member>, fails: set<Member>, later: int,
      m: Member)
    ensures m !in due ==> (m in LeftIn(s, due, fails, later) <==> m in s)
    ensures m !in due && m in s ==> LeftIn(s, due, fails, later)[m] == s[m]
    ensures m in due ==> (m in LeftIn(s, due, fails, later) <==> Failing(m, fails))
    ensures m in due && Failing(m, fails) ==> LeftIn(s, due, fails, later)[m] == later + RETRY_DELAY
  {
    if due != [] {
      assert due == due[..|due| - 1] + [due[|due| - 1]];
      BatchLosesNothing(s, due[..|due| - 1], fails, later, m);
    }
  }

  class NotificationEngine {
    var held: Held

    constructor ()
      ensures held == Held(map[], map[], [])
    {
      held := Held(map[], map[], []);
    }

    method Resume(id: string)
      modifies this
      ensures held == ResumedIn(old(held), id)
      ensures LeavesQueue(old(held), held, id, Queued)
    {
      if id !in held.rows { return; }
      var n := held.rows[id];
      if n.status == Quiet {
        held := Unqueued(held, n.user, id);
        held := held.(rows := held.rows[id := n.(status := Routed)]);
      } else if n.status != Routed {
        return;
      }
      held := held.(rows := held.rows[id := n.(status := Queued)], released := held.released + [Release(id, false)]);
      assert held.rows == old(held).rows[id := n.(status := Queued)];
    }

    method DeferToDigest(id: string)
      modifies this
      ensures held == DeferredIn(old(held), id)
      ensures LeavesQueue(old(held), held, id, DigestPending)
    {
      if id !in held.rows || held.rows[id].status != Quiet { return; }
      var n := held.rows[id];
      held := Unqueued(held, n.user, id);
      held := held.(rows := held.rows[id := n.(status := DigestPending)],
          released := held.released + [Release(id, true)]);
    }
  }

  class ScheduledReleaseService {
    const entries: SortedSets<Member>
    const engine: NotificationEngine

    constructor (entries: SortedSets<Member>, engine: NotificationEngine)
      ensures this.entries == entries && this.engine == engine
    {
      this.entries, this.engine := entries, engine;
    }

    method SnapshotDepths(due: seq<Member>) returns (depth: map<string, nat>)
      ensures depth == Snapshot(engine.held, due)
    {
      depth := map[];
      for i := 0 to |due|
        invariant depth == Snapshot(engine.held, due[..i])
      {
        assert due[..i + 1][..i] == due[..i];
        var m := due[i];
        if m.Entry? && m.kind == Some(HeldByQuietHours) && m.user.Some? && m.user.value !in depth {
          depth := depth[m.user.value := Depth(engine.held, m.user.value)];
        }
      }
      assert due[..|due|] == due;
    }

    /** `fails` are the entries whose release throws; alone, the caller wins every claim. */
    method ReleaseDue(now: int, later: int, fails: set<Member>) returns (released: nat, ghost due: seq<Member>)
      modifies entries, engine
      ensures IsRange(old(entries.members), now, 50, due)
      ensures entries.members == LeftIn(old(entries.members), due, fails, later)
      ensures engine.held == ReleasedAll(old(engine.held), due, Snapshot(old(engine.held), due), fails)
      ensures released == |due| - Failures(due, fails)
    {
      var batch := entries.ZRangeByScore(now, BATCH);
      due := batch;
      var depth := SnapshotDepths(batch);
      released := 0;
      for i := 0 to |batch|
        invariant entries.members == LeftIn(old(entries.members), batch[..i], fails, later)
        invariant engine.held == ReleasedAll(old(engine.held), batch[..i], depth, fails)
        invariant released == i - Failures(batch[..i], fails)
      {
        assert batch[..i + 1][..i] == batch[..i];
        BatchLosesNothing(old(entries.members), batch[..i], fails, later, batch[i]);
        var m := batch[i];
        var claimed := entries.ZRem(m);
        if claimed == 0 { continue; }
        if m.Garbage? || m in fails {
          entries.ZAdd(m, later + RETRY_DELAY);
          continue;
        }
        if ToDigest(m, depth) {
          engine.DeferToDigest(m.id);
        } else {
          engine.Resume(m.id);
        }
        released := released + 1;
      }
      assert batch[..|batch|] == batch;
    }
  }

  function Failures(due: seq<Member>, fails: set<Member>): nat {
    if due == [] then 0
    else Failures(due[..|due| - 1], fails) + if Failing(due[|due| - 1], fails) then 1 else 0
  }
}
