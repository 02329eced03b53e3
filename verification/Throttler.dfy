/** Sliding-window rate limiting (src/api/throttler/redis-sliding-window.storage.ts):
    one sorted set per key, trimmed and counted on every request. */
module Throttler {
  import opened Redis
  import opened Sets

  /** `<now>-<pid>-<sequence>` */
  datatype Member = Member(now: int, pid: int, sequence: nat)

  /** The sorted set and the instant at which its key expires. */
  datatype Log = Log(hits: SortedSet<Member>, dies: Option<int>)

  const EMPTY := Log(map[], None)

  /** What the server sees when the MULTI block starts: an expired key is an empty set. */
  function Visible(log: Log, now: int): SortedSet<Member> {
    if log.dies.Some? && log.dies.value <= now then map[] else log.hits
  }

  /** ZREMRANGEBYSCORE 0 (now - ttl), ZADD, PEXPIRE */
  function Push(log: Log, member: Member, ttl: int): Log {
    var seen := Visible(log, member.now);
    var kept := map m | m in seen && !(0 <= seen[m] <= member.now - ttl) :: seen[m];
    Log(kept[member := member.now], Some(member.now + ttl))
  }

  /** Seconds, rounded up, but never fewer than one. */
  function Seconds(ms: int): int {
    var up := (ms + 999) / 1000;
    if up < 1 then 1 else up
  }

  datatype Record = Record(totalHits: int, timeToExpire: int)

  ghost predicate IsOldest(hits: SortedSet<Member>, score: int) {
    && (exists m :: m in hits && hits[m] == score)
    && forall m :: m in hits ==> score <= hits[m]
  }

  /** The sorted set of one rate-limit key, as the server keeps it. */
  class RateLog {
    var log: Log

    constructor ()
      ensures log == EMPTY
    {
      log := EMPTY;
    }
  }

  /** One application replica; replicas share `redis` and have their own `sequence`. */
  class Storage {
    const pid: int
    const redis: RateLog
    var sequence: nat

    constructor (pid: int, redis: RateLog)
      ensures this.pid == pid && this.redis == redis && sequence == 0
    {
      this.pid, this.redis := pid, redis;
      sequence := 0;
    }

    /** `available` is false when the MULTI block fails; the request is then let through. */
    method Increment(now: int, ttl: int, available: bool) returns (r: Record)
      requires ttl > 0
      modifies this, redis
      ensures sequence == old(sequence) + 1
      ensures !available ==> redis.log == old(redis.log) && r == Record(1, (ttl + 999) / 1000)
      ensures available ==> redis.log == Push(old(redis.log), Member(now, pid, old(sequence)), ttl)
      ensures available ==> r.totalHits == |redis.log.hits|
      ensures available ==> exists oldest :: IsOldest(redis.log.hits, oldest) &&
                                             r.timeToExpire == Seconds(oldest + ttl - now)
    {
      var member := Member(now, pid, sequence);
      sequence := sequence + 1;
      if !available { return Record(1, (ttl + 999) / 1000); }
      redis.log := Push(redis.log, member, ttl);
      var hits := redis.log.hits;
      assert member in hits;
      LowestExists(hits, hits.Keys);
      var first :| first in hits.Keys && forall n :: n in hits.Keys ==> hits[first] <= hits[n];
      var oldest := hits[first];
      assert IsOldest(hits, oldest);
      r := Record(|hits|, Seconds(oldest + ttl - now));
    }
  }

  // ---- Refinement: the pruned, expiring set against the whole history of requests ----

  /** A request counted by the store: when, by which process, and that process's sequence number. */
  type History = seq<Member>

  function Replay(h: History, ttl: int): Log {
    if h == [] then EMPTY else Push(Replay(h[..|h| - 1], ttl), h[|h| - 1], ttl)
  }

  /** Clock readings never run back, and no process uses a sequence number twice. */
  ghost predicate Proper(h: History) {
    && (forall i :: 0 <= i < |h| ==> h[i].now >= 0)
    && (forall i, j :: 0 <= i < j < |h| ==> h[i].now <= h[j].now)
    && (forall i, j :: 0 <= i < j < |h| ==> h[i] != h[j])
  }

  /** The requests of the last `ttl` milliseconds up to `now`, as positions in the history. */
  ghost function Window(h: History, now: int, ttl: int): set<int> {
    set i | 0 <= i < |h| && now - ttl < h[i].now <= now
  }

  predicate InWindow(m: Member, now: int, ttl: int) {
    now - ttl < m.now <= now
  }

  function Recent(h: History, now: int, ttl: int): set<Member> {
    if h == [] then {}
    else
      Recent(h[..|h| - 1], now, ttl) + if InWindow(h[|h| - 1], now, ttl) then {h[|h| - 1]} else {}
  }

  ghost predicate Holds(log: Log, members: set<Member>) {
    && log.hits.Keys == members
    && forall m :: m in log.hits ==> log.hits[m] == m.now
  }

  lemma PrefixProper(h: History, n: nat)
    requires Proper(h) && n <= |h|
    ensures Proper(h[..n])
  {
    forall i, j | 0 <= i < j < n ensures h[..n][i].now <= h[..n][j].now && h[..n][i] != h[..n][j] {
      assert h[..n][i] == h[i] && h[..n][j] == h[j];
    }
  }

  lemma {:induction false} RecentMembers(h: History, now: int, ttl: int, m: Member)
    requires m in Recent(h, now, ttl)
    ensures m in h && InWindow(m, now, ttl)
  {
    if m in Recent(h[..|h| - 1], now, ttl) { RecentMembers(h[..|h| - 1], now, ttl, m); }
  }

  /** As time passes the window only loses members, if none arrives. */
  lemma {:induction false} RecentShrinks(h: History, now: int, later: int, ttl: int)
    requires now <= later && forall m :: m in h ==> m.now <= now
    ensures Recent(h, later, ttl) == set m | m in Recent(h, now, ttl) && m.now > later - ttl
  {
    if h != [] {
      var last := h[|h| - 1];
      assert last in h;
      RecentShrinks(h[..|h| - 1], now, later, ttl);
    }
  }

  lemma PushKeepsWindow(before: History, log: Log, last: Member, now: int, ttl: int)
    requires ttl > 0 && 0 <= now <= last.now
    requires forall m :: m in before ==> 0 <= m.now <= now
    requires Holds(log, Recent(before, now, ttl)) && log.dies == Some(now + ttl)
    ensures Holds(Push(log, last, ttl), Recent(before, last.now, ttl) + {last})
  {
    RecentShrinks(before, now, last.now, ttl);
    var after := Push(log, last, ttl);
    forall m ensures m in after.hits <==> m in Recent(before, last.now, ttl) + {last} {
      if m in Recent(before, now, ttl) { RecentMembers(before, now, ttl, m); }
    }
    assert after.hits.Keys == Recent(before, last.now, ttl) + {last};
  }

  /** After each request the set holds exactly the requests of the last window:
      neither the trimming nor the expiry of the key loses one or keeps one too long. */
  lemma {:induction false} SetIsWindow(h: History, ttl: int)
    requires Proper(h) && ttl > 0 && h != []
    ensures var now := h[|h| - 1].now;
            && Holds(Replay(h, ttl), Recent(h, now, ttl))
            && Replay(h, ttl).dies == Some(now + ttl)
  {
    var before, last := h[..|h| - 1], h[|h| - 1];
    if before == [] {
      assert Recent(before, last.now, ttl) == {};
    } else {
      PrefixProper(h, |h| - 1);
      SetIsWindow(before, ttl);
      PushKeepsWindow(before, Replay(before, ttl), last, before[|before| - 1].now, ttl);
    }
  }

  lemma GrownWindow(h: History, last: Member, now: int, ttl: int)
    ensures Window(h + [last], now, ttl) == Window(h, now, ttl) + if InWindow(last, now, ttl) then {|h|} else {}
  {
  }

  lemma SizesStep(h: History, last: Member, now: int, ttl: int)
    requires last !in h
    requires |Recent(h, now, ttl)| == |Window(h, now, ttl)|
    ensures |Recent(h + [last], now, ttl)| == |Window(h + [last], now, ttl)|
  {
    assert (h + [last])[..|h|] == h;
    GrownWindow(h, last, now, ttl);
    if last in Recent(h, now, ttl) { RecentMembers(h, now, ttl, last); }
  }

  lemma {:induction false} SameSize(h: History, now: int, ttl: int)
    requires Proper(h)
    ensures |Recent(h, now, ttl)| == |Window(h, now, ttl)|
  {
    if h == [] {
      assert Window(h, now, ttl) == {};
    } else {
      var before, last := h[..|h| - 1], h[|h| - 1];
      assert last !in before;
      PrefixProper(h, |h| - 1);
      SameSize(before, now, ttl);
      SizesStep(before, last, now, ttl);
      assert h == before + [last];
    }
  }

  /** `totalHits` of request `k`: the size of the set right after it. */
  function TotalHits(h: History, ttl: int, k: nat): nat
    requires k < |h|
  {
    |Replay(h[..k + 1], ttl).hits|
  }

  /** `totalHits` is the number of all past requests in (now - ttl, now]. */
  lemma TotalHitsExact(h: History, ttl: int, k: nat)
    requires Proper(h) && ttl > 0 && k < |h|
    ensures TotalHits(h, ttl, k) == |Window(h[..k + 1], h[k].now, ttl)|
  {
    PrefixProper(h, k + 1);
    SetIsWindow(h[..k + 1], ttl);
    SameSize(h[..k + 1], h[k].now, ttl);
  }

  /** The requests of (from, from + ttl] that the throttler lets through. */
  ghost function Admitted(h: History, ttl: int, limit: int, from: int): set<int> {
    set k | 0 <= k < |h| && from < h[k].now <= from + ttl && TotalHits(h, ttl, k) <= limit
  }

  lemma {:induction false} Largest(s: set<int>, some: int) returns (m: int)
    requires some in s
    ensures m in s && forall i :: i in s ==> i <= m
    decreases |s|
  {
    m := some;
    if other :| other in s && other > some {
      m := Largest(s - {some}, other);
      assert forall i :: i in s ==> i == some || i in s - {some};
    }
  }

  /** No window of length ttl, wherever it starts, lets more than `limit` requests through. */
  lemma SlidingLimit(h: History, ttl: int, limit: nat, from: int)
    requires Proper(h) && ttl > 0
    ensures |Admitted(h, ttl, limit, from)| <= limit
  {
    var s := Admitted(h, ttl, limit, from);
    if some :| some in s {
      var last := Largest(s, some);
      TotalHitsExact(h, ttl, last);
      AdmittedInWindow(h, ttl, limit, from, last);
      SubsetSize(s, Window(h[..last + 1], h[last].now, ttl));
    }
  }

  lemma AdmittedInWindow(h: History, ttl: int, limit: int, from: int, last: int)
    requires last in Admitted(h, ttl, limit, from) && forall i :: i in Admitted(h, ttl, limit, from) ==> i <= last
    requires Proper(h)
    ensures Admitted(h, ttl, limit, from) <= Window(h[..last + 1], h[last].now, ttl)
  {
    forall i | i in Admitted(h, ttl, limit, from) ensures i in Window(h[..last + 1], h[last].now, ttl) {
      assert h[..last + 1][i] == h[i] && h[i].now <= h[last].now;
    }
  }

  lemma OldestIndex(h: History, ttl: int, oldest: int) returns (i: nat)
    requires Proper(h) && ttl > 0 && h != []
    requires IsOldest(Replay(h, ttl).hits, oldest)
    ensures i < |h| && h[i].now == oldest && i in Window(h, h[|h| - 1].now, ttl)
    ensures |Replay(h, ttl).hits| == |Window(h, h[|h| - 1].now, ttl)|
  {
    var now := h[|h| - 1].now;
    SetIsWindow(h, ttl);
    SameSize(h, now, ttl);
    var m :| m in Replay(h, ttl).hits && m.now == oldest;
    RecentMembers(h, now, ttl, m);
    i :| 0 <= i < |h| && h[i] == m;
  }

  lemma LastIsLatest(h: History, i: nat)
    requires Proper(h) && i < |h|
    ensures h[i].now <= h[|h| - 1].now
  {
  }

  /** `timeToExpire` is the least number of whole seconds, one at least, after which the oldest
      hit is outside the window. */
  lemma SecondsAreLeast(now: int, ttl: int, oldest: int, seconds: int)
    requires seconds >= 1
    ensures oldest <= now + 1000 * seconds - ttl <==> seconds >= Seconds(oldest + ttl - now)
  {
  }

  /** Once `timeToExpire` seconds have passed the oldest hit is outside the window. */
  lemma OldestLeaves(h: History, ttl: int, oldest: int, later: int)
    requires Proper(h) && ttl > 0 && h != []
    requires IsOldest(Replay(h, ttl).hits, oldest)
    requires later >= h[|h| - 1].now + 1000 * Seconds(oldest + ttl - h[|h| - 1].now)
    ensures oldest <= later - ttl
    ensures |Window(h, later, ttl)| < |Replay(h, ttl).hits|
  {
    var i := OldestIndex(h, ttl, oldest);
    forall k | 0 <= k < |h| ensures h[k].now <= h[|h| - 1].now { LastIsLatest(h, k); }
    WindowMoves(h, h[|h| - 1].now, later, ttl, i);
  }

  lemma WindowMoves(h: History, now: int, later: int, ttl: int, gone: nat)
    requires gone < |h| && gone in Window(h, now, ttl) && gone !in Window(h, later, ttl)
    requires now <= later && forall i :: 0 <= i < |h| ==> h[i].now <= now
    ensures |Window(h, later, ttl)| < |Window(h, now, ttl)|
  {
    SubsetSize(Window(h, later, ttl), Window(h, now, ttl) - {gone});
  }

  // ---- Where members come from ----

  datatype Hit = Hit(replica: int, now: int)

  /** How many of the first hits came from `replica`: its sequence counter. */
  function Sequence(hits: seq<Hit>, replica: int): nat {
    if hits == [] then 0
    else Sequence(hits[..|hits| - 1], replica) + if hits[|hits| - 1].replica == replica then 1 else 0
  }

  function Members(hits: seq<Hit>, pid: int -> int): History {
    seq(|hits|, i requires 0 <= i < |hits| =>
      Member(hits[i].now, pid(hits[i].replica), Sequence(hits[..i], hits[i].replica)))
  }

  lemma {:induction false} SequenceGrows(hits: seq<Hit>, i: nat, j: nat)
    requires i < j <= |hits|
    ensures Sequence(hits[..i], hits[i].replica) < Sequence(hits[..j], hits[i].replica)
    decreases j
  {
    assert hits[..j][..j - 1] == hits[..j - 1];
    if i < j - 1 { SequenceGrows(hits, i, j - 1); }
  }

  /** Two replicas of one process id served requests at one instant, with one sequence number. */
  predicate Clash(hits: seq<Hit>, pid: int -> int, i: nat, j: nat)
    requires i < |hits| && j < |hits|
  {
    && hits[i].replica != hits[j].replica && pid(hits[i].replica) == pid(hits[j].replica)
    && hits[i].now == hits[j].now
    && Sequence(hits[..i], hits[i].replica) == Sequence(hits[..j], hits[j].replica)
  }

  /** Members are distinct, so the counts are exact, exactly if no two replicas ever clash; in
      particular if no two share a process id. */
  lemma DistinctPidsAreProper(hits: seq<Hit>, pid: int -> int)
    requires forall i :: 0 <= i < |hits| ==> hits[i].now >= 0
    requires forall i, j :: 0 <= i < j < |hits| ==> hits[i].now <= hits[j].now
    ensures Proper(Members(hits, pid)) <==> forall i, j :: 0 <= i < j < |hits| ==> !Clash(hits, pid, i, j)
    ensures (forall a, b :: pid(a) == pid(b) ==> a == b) ==> Proper(Members(hits, pid))
  {
    var h := Members(hits, pid);
    forall i, j | 0 <= i < j < |h| ensures h[i] != h[j] <==> !Clash(hits, pid, i, j) {
      if hits[i].replica == hits[j].replica { SequenceGrows(hits, i, j); }
    }
    if !Proper(h) {
      var i, j :| 0 <= i < j < |h| && h[i] == h[j];
      assert Clash(hits, pid, i, j);
    }
  }

  /** Two replicas with the same process id (containers often both run as process 1)
      that serve their first requests in the same millisecond are counted as one. */
  lemma SharedPidUndercounts()
    ensures var h := Members([Hit(1, 5000), Hit(2, 5000)], r => 1);
            TotalHits(h, 60_000, 1) == 1 && |Window(h, 5000, 60_000)| == 2
  {
    var hits := [Hit(1, 5000), Hit(2, 5000)];
    var h, m := Members(hits, r => 1), Member(5000, 1, 0);
    assert Sequence(hits[..0], 1) == 0 && Sequence(hits[..1], 2) == 0 by {
      assert hits[..1][..0] == [] && hits[..1][0].replica == 1;
    }
    assert h == [m, m];
    assert h[..2] == h && h[..1] == [m] && [m][..0] == [];
    assert Replay([m], 60_000) == Push(EMPTY, m, 60_000);
    var one := Push(EMPTY, m, 60_000);
    assert one.hits == map[m := 5000];
    assert Push(one, m, 60_000).hits == map[m := 5000];
    assert Window(h, 5000, 60_000) == {0, 1};
  }
}
