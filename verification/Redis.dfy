/** The part of Redis the services depend on: string keys with a time to live,
    counters, and sorted sets. Instants and lifetimes are in milliseconds, and
    the caller passes the instant at which the server runs the command. */
module Redis {

  datatype Option<+T> = None | Some(value: T)

  /** One string key. A present key dies at the instant `expiry`, if it has one. */
  datatype Cell<+V> = Absent | Present(value: V, expiry: Option<int>)

  predicate Live<V>(cell: Cell<V>, now: int) {
    cell.Present? && (cell.expiry.Some? ==> now < cell.expiry.value)
  }

  /** GET */
  function Read<V>(cell: Cell<V>, now: int): Option<V> {
    if Live(cell, now) then Some(cell.value) else None
  }

  /** SET key value EX ttl */
  function SetEx<V>(value: V, now: int, ttl: int): Cell<V> {
    Present(value, Some(now + ttl))
  }

  /** INCR followed by EXPIRE ... NX: only the hit that creates the key starts its clock. */
  function Incr(cell: Cell<int>, now: int, ttl: int): Cell<int> {
    if !Live(cell, now) then Present(1, Some(now + ttl))
    else Present(cell.value + 1, if cell.expiry.Some? then cell.expiry else Some(now + ttl))
  }

  function Count(cell: Cell<int>, now: int): int {
    if Live(cell, now) then cell.value else 0
  }

  function At<K, V>(cells: map<K, Cell<V>>, key: K): Cell<V> {
    if key in cells then cells[key] else Absent
  }

  /** A keyspace of counters, as RedisService.increment and its readers use it. */
  class Counters<K(==, !new)> {
    var cells: map<K, Cell<int>>

    constructor ()
      ensures cells == map[]
    {
      cells := map[];
    }

    method Increment(key: K, now: int, ttl: int) returns (value: int)
      modifies this
      ensures cells == old(cells)[key := Incr(At(old(cells), key), now, ttl)]
      ensures value == Count(At(old(cells), key), now) + 1
    {
      var cell := Incr(At(cells, key), now, ttl);
      cells := cells[key := cell];
      value := cell.value;
    }

    method Put(key: K, value: int, now: int, ttl: int)
      modifies this
      ensures cells == old(cells)[key := Present(value, Some(now + ttl))]
    {
      cells := cells[key := SetEx(value, now, ttl)];
    }

    method Delete(key: K)
      modifies this
      ensures cells == old(cells) - {key}
      ensures forall k :: At(cells, k) == if k == key then Absent else At(old(cells), k)
    {
      cells := cells - {key};
    }

    method Get(key: K, now: int) returns (value: Option<int>)
      ensures value == Read(At(cells, key), now)
    {
      value := Read(At(cells, key), now);
    }
  }

  /** Sorted sets: each member has one score. */
  type SortedSet<!M> = map<M, int>

  /** ZADD ... LT: an existing score only ever moves down. */
  function AddLt<M>(s: SortedSet<M>, member: M, score: int): SortedSet<M> {
    if member in s && s[member] <= score then s else s[member := score]
  }

  /** `r` lists members with a score of at most `max`, lowest first, at most `limit` of them. */
  ghost predicate IsRange<M(!new)>(s: SortedSet<M>, max: int, limit: nat, r: seq<M>) {
    && |r| <= limit
    && (forall i :: 0 <= i < |r| ==> r[i] in s && s[r[i]] <= max)
    && (forall i, j :: 0 <= i < j < |r| ==> r[i] != r[j] && s[r[i]] <= s[r[j]])
    && (forall m :: m in s && m !in r && s[m] <= max ==>
          |r| == limit && forall i :: 0 <= i < |r| ==> s[r[i]] <= s[m])
  }

  lemma {:induction false} LowestExists<M>(s: SortedSet<M>, candidates: set<M>)
    requires candidates != {} && candidates <= s.Keys
    ensures exists m :: m in candidates && forall n :: n in candidates ==> s[m] <= s[n]
    decreases |candidates|
  {
    var c :| c in candidates;
    if candidates != {c} {
      assert candidates == {c} + (candidates - {c});
      LowestExists(s, candidates - {c});
      var m :| m in candidates - {c} && forall n :: n in candidates - {c} ==> s[m] <= s[n];
      var best := if s[c] < s[m] then c else m;
      assert best in candidates && forall n :: n in candidates ==> s[best] <= s[n];
    }
  }

  class SortedSets<M(==, !new)> {
    var members: SortedSet<M>

    constructor ()
      ensures members == map[]
    {
      members := map[];
    }

    method ZAdd(member: M, score: int)
      modifies this
      ensures members == old(members)[member := score]
    {
      members := members[member := score];
    }

    method ZAddLt(member: M, score: int)
      modifies this
      ensures members.Keys == old(members).Keys + {member}
      ensures members[member] <= score
      ensures member in old(members) ==> members[member] <= old(members)[member]
      ensures members == AddLt(old(members), member, score)
    {
      members := AddLt(members, member, score);
    }

    /** Returns how many members were removed: 1 for exactly one of several callers. */
    method ZRem(member: M) returns (removed: int)
      modifies this
      ensures removed == if member in old(members) then 1 else 0
      ensures members == old(members) - {member}
    {
      removed := if member in members then 1 else 0;
      members := members - {member};
    }

    /** ZRANGEBYSCORE key 0 max LIMIT 0 limit */
    method ZRangeByScore(max: int, limit: nat) returns (r: seq<M>)
      ensures IsRange(members, max, limit, r)
    {
      r := LowestFirst(members, (set m | m in members && members[m] <= max), Some(limit));
    }
  }

  /** The listing behind ZRANGE and ZRANGEBYSCORE: lowest score first. */
  method LowestFirst<M(==, !new)>(s: SortedSet<M>, candidates: set<M>, limit: Option<nat>) returns (r: seq<M>)
    requires candidates <= s.Keys
    ensures forall i :: 0 <= i < |r| ==> r[i] in candidates
    ensures forall i, j :: 0 <= i < j < |r| ==> r[i] != r[j] && s[r[i]] <= s[r[j]]
    ensures forall m :: m in candidates && m !in r ==>
              limit == Some(|r|) && forall i :: 0 <= i < |r| ==> s[r[i]] <= s[m]
    ensures limit.Some? ==> |r| <= limit.value
  {
    r := [];
    var rest := candidates;
    while rest != {} && (limit.Some? ==> |r| < limit.value)
      invariant limit.Some? ==> |r| <= limit.value
      invariant rest <= candidates
      invariant forall m :: m in rest ==> m !in r
      invariant forall m :: m in candidates ==> m in rest || m in r
      invariant forall i :: 0 <= i < |r| ==> r[i] in candidates
      invariant forall i, j :: 0 <= i < j < |r| ==> r[i] != r[j] && s[r[i]] <= s[r[j]]
      invariant forall i, m :: 0 <= i < |r| && m in rest ==> s[r[i]] <= s[m]
      decreases rest
    {
      LowestExists(s, rest);
      var m :| m in rest && forall n :: n in rest ==> s[m] <= s[n];
      r := r + [m];
      rest := rest - {m};
    }
  }
}
