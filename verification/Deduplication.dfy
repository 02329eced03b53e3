/** Duplicate suppression (src/notifications/engine/deduplication.service.ts): an event is
    claimed by taking its idempotency key, if it has one, and then its fingerprint. */
module Deduplication {
  import opened Redis
  import opened Sets

  const BUCKET := 300_000

  /** A fingerprint is a hash of its three parts; distinct parts give distinct keys. */
  datatype Key =
    | Idempotency(key: string)
    | Fingerprint(eventType: string, entity: string, bucket: int)

  function Lifetime(key: Key): int {
    if key.Idempotency? then 86_400_000 else 300_000
  }

  /** The 5-minute bucket of an instant (src/shared/utils/fingerprint.util.ts). */
  function BucketOf(now: int): int {
    now / BUCKET
  }

  datatype Event = Event(idempotencyKey: Option<string>, eventType: string, entity: string)

  /** The keys a claim takes, in order. */
  function Wanted(e: Event, now: int): seq<Key> {
    (if e.idempotencyKey.Some? && e.idempotencyKey.value != "" then [Idempotency(e.idempotencyKey.value)] else [])
    + [Fingerprint(e.eventType, e.entity, BucketOf(now))]
  }

  datatype Claim = Fresh | Duplicate(holder: string)

  predicate Foreign(cells: map<Key, Cell<string>>, id: string, key: Key, now: int) {
    Live(At(cells, key), now) && At(cells, key).value != id
  }

  predicate Free(cells: map<Key, Cell<string>>, key: Key, now: int) {
    !Live(At(cells, key), now)
  }

  /** The store after a claim: nothing new if some wanted key belongs to another id. */
  function Claimed(cells: map<Key, Cell<string>>, id: string, wanted: seq<Key>, now: int): map<Key, Cell<string>> {
    if forall i :: 0 <= i < |wanted| ==> !Foreign(cells, id, wanted[i], now) then
      (map k | k in cells.Keys + (set x | x in wanted) ::
        if k in wanted && Free(cells, k, now) then SetEx(id, now, Lifetime(k)) else cells[k])
    else cells
  }

  /** Two stores nobody can tell apart from `now` on: dead cells read as absent ones. */
  ghost predicate SameFrom(a: map<Key, Cell<string>>, b: map<Key, Cell<string>>, now: int) {
    forall k :: if Live(At(a, k), now) then At(a, k) == At(b, k) else !Live(At(b, k), now)
  }

  predicate FirstForeign(cells: map<Key, Cell<string>>, id: string, wanted: seq<Key>, i: nat, now: int)
    requires i < |wanted|
  {
    Foreign(cells, id, wanted[i], now) && forall j :: 0 <= j < i ==> !Foreign(cells, id, wanted[j], now)
  }

  class DeduplicationService {
    var cells: map<Key, Cell<string>>

    constructor ()
      ensures cells == map[]
    {
      cells := map[];
    }

    method SetNx(key: Key, value: string, now: int) returns (ok: bool)
      modifies this
      ensures ok == Free(old(cells), key, now)
      ensures cells == if ok then old(cells)[key := SetEx(value, now, Lifetime(key))] else old(cells)
    {
      ok := !Live(At(cells, key), now);
      if ok { cells := cells[key := SetEx(value, now, Lifetime(key))]; }
    }

    /** A claim that no other client interrupts. */
    method ClaimEvent(id: string, e: Event, now: int) returns (r: Claim)
      modifies this
      ensures r.Fresh? <==> forall i :: 0 <= i < |Wanted(e, now)| ==> !Foreign(old(cells), id, Wanted(e, now)[i], now)
      ensures r.Duplicate? ==>
          exists i :: 0 <= i < |Wanted(e, now)| && FirstForeign(old(cells), id, Wanted(e, now), i, now) &&
                                           r.holder == At(old(cells), Wanted(e, now)[i]).value
      ensures SameFrom(cells, Claimed(old(cells), id, Wanted(e, now), now), now)
    {
      var wanted := Wanted(e, now);
      var taken: seq<Key> := [];
      for i := 0 to |wanted|
        invariant forall j :: 0 <= j < i ==> !Foreign(old(cells), id, wanted[j], now)
        invariant forall k :: k in taken <==> k in wanted[..i] && Free(old(cells), k, now)
        invariant forall k :: At(cells, k) == if k in taken then SetEx(id, now, Lifetime(k)) else At(old(cells), k)
      {
        var key := wanted[i];
        assert wanted[..i + 1] == wanted[..i] + [key];
        assert key !in wanted[..i];
        var ok := SetNx(key, id, now);
        if ok {
          taken := taken + [key];
        } else {
          var holder := At(cells, key).value;
          if holder != id {
            cells := cells - set k | k in taken;
            assert FirstForeign(old(cells), id, wanted, i, now);
            return Duplicate(holder);
          }
        }
      }
      assert wanted[..|wanted|] == wanted;
      r := Fresh;
    }

    /** Gives back only what this id holds. */
    method Release(id: string, e: Event, now: int)
      modifies this
      ensures forall k :: At(cells, k) ==
                if k in Wanted(e, now) && Read(At(old(cells), k), now) == Some(id) then Absent
                else At(old(cells), k)
    {
      var keys := Wanted(e, now);
      for i := 0 to |keys|
        invariant forall k :: At(cells, k) ==
                    if k in keys[..i] && Read(At(old(cells), k), now) == Some(id) then Absent
                    else At(old(cells), k)
      {
        assert keys[..i + 1] == keys[..i] + [keys[i]];
        if Read(At(cells, keys[i]), now) == Some(id) { cells := cells - {keys[i]}; }
      }
      assert keys[..|keys|] == keys;
    }
  }

  // ---- Claims over time ----

  datatype Attempt = Attempt(id: string, event: Event, now: int)

  function Run(h: seq<Attempt>, n: nat): map<Key, Cell<string>>
    requires n <= |h|
  {
    if n == 0 then map[]
    else Claimed(Run(h, n - 1), h[n - 1].id, Wanted(h[n - 1].event, h[n - 1].now), h[n - 1].now)
  }

  /** Attempt `n` is told that its event is new. */
  predicate Succeeds(h: seq<Attempt>, n: nat)
    requires n < |h|
  {
    var w := Wanted(h[n].event, h[n].now);
    forall i :: 0 <= i < |w| ==> !Foreign(Run(h, n), h[n].id, w[i], h[n].now)
  }

  ghost predicate Proper(h: seq<Attempt>) {
    && (forall i, j :: 0 <= i < j < |h| ==> h[i].now <= h[j].now)
    && (forall i, j :: 0 <= i < j < |h| ==> h[i].id != h[j].id)
  }

  function OwnFingerprint(a: Attempt): Key {
    Fingerprint(a.event.eventType, a.event.entity, BucketOf(a.now))
  }

  lemma WantsOwnFingerprint(a: Attempt)
    ensures OwnFingerprint(a) in Wanted(a.event, a.now)
    ensures var w := Wanted(a.event, a.now); w[|w| - 1] == OwnFingerprint(a)
  {
  }

  /** Nobody else's claim touches a live key. */
  lemma LiveKeyStays(cells: map<Key, Cell<string>>, key: Key, wanted: seq<Key>, id: string, now: int)
    requires Live(At(cells, key), now)
    ensures At(Claimed(cells, id, wanted, now), key) == At(cells, key)
  {
  }

  lemma FreeKeyIsTaken(h: seq<Attempt>, i: nat, key: Key)
    requires i < |h| && Succeeds(h, i) && key in Wanted(h[i].event, h[i].now) && Free(Run(h, i), key, h[i].now)
    ensures At(Run(h, i + 1), key) == SetEx(h[i].id, h[i].now, Lifetime(key))
  {
  }

  /** A key, once taken, stays with its owner for its lifetime. */
  lemma {:induction false} KeyHeld(h: seq<Attempt>, i: nat, n: nat, key: Key)
    requires i < n <= |h| && Succeeds(h, i)
    requires key in Wanted(h[i].event, h[i].now) && Free(Run(h, i), key, h[i].now)
    requires forall m :: i < m < n ==> h[m].now < h[i].now + Lifetime(key)
    ensures At(Run(h, n), key) == SetEx(h[i].id, h[i].now, Lifetime(key))
  {
    if n == i + 1 {
      FreeKeyIsTaken(h, i, key);
    } else {
      KeyHeld(h, i, n - 1, key);
      var before, a := Run(h, n - 1), h[n - 1];
      assert Live(At(before, key), a.now);
      LiveKeyStays(before, key, Wanted(a.event, a.now), a.id, a.now);
    }
  }

  lemma {:induction false} ValuesAreEarlierIds(h: seq<Attempt>, n: nat, key: Key)
    requires n <= |h| && At(Run(h, n), key).Present?
    ensures exists i :: 0 <= i < n && h[i].id == At(Run(h, n), key).value
  {
    var before := Run(h, n - 1);
    if At(before, key) == At(Run(h, n), key) {
      ValuesAreEarlierIds(h, n - 1, key);
    } else {
      assert h[n - 1].id == At(Run(h, n), key).value;
    }
  }

  lemma SuccessTakesFreeKey(h: seq<Attempt>, i: nat, key: Key)
    requires Proper(h) && i < |h| && Succeeds(h, i) && key in Wanted(h[i].event, h[i].now)
    ensures Free(Run(h, i), key, h[i].now)
  {
    var w := Wanted(h[i].event, h[i].now);
    var k :| 0 <= k < |w| && w[k] == key;
    assert !Foreign(Run(h, i), h[i].id, w[k], h[i].now);
    if Live(At(Run(h, i), key), h[i].now) {
      ValuesAreEarlierIds(h, i, key);
    }
  }

  /** No key is taken twice within its lifetime. */
  lemma OncePerKey(h: seq<Attempt>, i: nat, j: nat, key: Key)
    requires Proper(h) && i < j < |h| && h[j].now < h[i].now + Lifetime(key)
    requires key in Wanted(h[i].event, h[i].now) && key in Wanted(h[j].event, h[j].now) && Succeeds(h, i)
    ensures !Succeeds(h, j)
  {
    SuccessTakesFreeKey(h, i, key);
    forall m | i < m <= j ensures h[m].now < h[i].now + Lifetime(key) {
      assert h[m].now <= h[j].now;
    }
    KeyHeld(h, i, j, key);
    var w := Wanted(h[j].event, h[j].now);
    var k :| 0 <= k < |w| && w[k] == key;
    assert Foreign(Run(h, j), h[j].id, w[k], h[j].now);
  }

  /** Without releases, one idempotency key succeeds at most once in any 24 hours, whatever
      the events that carry it. */
  lemma OncePerIdempotencyKey(h: seq<Attempt>, i: nat, j: nat)
    requires Proper(h) && i < j < |h| && h[j].now < h[i].now + 86_400_000
    requires h[i].event.idempotencyKey == h[j].event.idempotencyKey && Succeeds(h, i)
    requires h[i].event.idempotencyKey.Some? && h[i].event.idempotencyKey.value != ""
    ensures !Succeeds(h, j)
  {
    var key := Idempotency(h[i].event.idempotencyKey.value);
    assert Wanted(h[i].event, h[i].now)[0] == Wanted(h[j].event, h[j].now)[0] == key;
    OncePerKey(h, i, j, key);
  }

  /** One event type and entity succeeds at most once per 5-minute bucket. */
  lemma OncePerBucket(h: seq<Attempt>, i: nat, j: nat)
    requires Proper(h) && i < j < |h|
    requires OwnFingerprint(h[i]) == OwnFingerprint(h[j]) && Succeeds(h, i)
    ensures !Succeeds(h, j)
  {
    WantsOwnFingerprint(h[i]);
    WantsOwnFingerprint(h[j]);
    OncePerKey(h, i, j, OwnFingerprint(h[i]));
  }

  ghost function Successes(h: seq<Attempt>, eventType: string, entity: string, from: int, until: int): set<int> {
    set i | 0 <= i < |h| && Succeeds(h, i) && h[i].event.eventType == eventType && h[i].event.entity == entity
            && from <= h[i].now < until
  }

  function InBucket(h: seq<Attempt>, ids: set<int>, bucket: int): set<int> {
    set i | i in ids && 0 <= i < |h| && BucketOf(h[i].now) == bucket
  }

  lemma OneInBucket(h: seq<Attempt>, eventType: string, entity: string, from: int, until: int, bucket: int)
    requires Proper(h)
    ensures |InBucket(h, Successes(h, eventType, entity, from, until), bucket)| <= 1
  {
    var one := InBucket(h, Successes(h, eventType, entity, from, until), bucket);
    forall i, j | i in one && j in one ensures i == j {
      if i < j { OncePerBucket(h, i, j); }
      if j < i { OncePerBucket(h, j, i); }
    }
    AtMostOne(one);
  }

  /** And at most twice in any five minutes. */
  lemma TwiceInFiveMinutes(h: seq<Attempt>, eventType: string, entity: string, from: int)
    requires Proper(h)
    ensures |Successes(h, eventType, entity, from, from + 300_000)| <= 2
  {
    var s := Successes(h, eventType, entity, from, from + BUCKET);
    OneInBucket(h, eventType, entity, from, from + BUCKET, BucketOf(from));
    OneInBucket(h, eventType, entity, from, from + BUCKET, BucketOf(from) + 1);
    assert s == InBucket(h, s, BucketOf(from)) + InBucket(h, s, BucketOf(from) + 1);
  }

  /** An empty idempotency key is no key. */
  lemma EmptyKeyIsNone(eventType: string, entity: string, now: int)
    ensures Wanted(Event(Some(""), eventType, entity), now) == Wanted(Event(None, eventType, entity), now)
  {
  }

  /** Of two claims with one idempotency key the second succeeds exactly once a day is over. */
  lemma SecondClaimIff(a: Attempt, b: Attempt, key: string)
    requires a.now <= b.now && a.id != b.id && key != ""
    requires a.event.idempotencyKey == b.event.idempotencyKey == Some(key)
    ensures Succeeds([a, b], 0)
    ensures Succeeds([a, b], 1) <==> b.now >= a.now + 86_400_000
  {
    var h := [a, b];
    assert Run(h, 0) == map[];
    assert Run(h, 1) == Claimed(map[], a.id, Wanted(a.event, a.now), a.now);
    if b.now < a.now + 86_400_000 {
      OncePerIdempotencyKey(h, 0, 1);
    }
  }
}
