/** Digest buckets and their due set, shared by every replica
    (src/notifications/digest/digest-bucket.service.ts). */
module Digest {
  import opened Redis

  datatype Source = Hourly | Daily | QuietPile | CappedPile

  /** Fewer items than this are not worth a digest. */
  function MinItems(source: Source): nat {
    match source case Hourly => 1 case Daily => 1 case QuietPile => 1 case CappedPile => 3
  }

  datatype Bucket = Bucket(user: string, source: Source)

  /** When each bucket is due, and when each id entered its bucket. */
  datatype Store = Store(due: SortedSet<Bucket>, items: map<Bucket, SortedSet<string>>)

  function Content(items: map<Bucket, SortedSet<string>>, b: Bucket): SortedSet<string> {
    if b in items then items[b] else map[]
  }

  function Items(s: Store, b: Bucket): set<string> {
    Content(s.items, b).Keys
  }

  /** The two ZADDs of `add`, one MULTI block. */
  function Added(s: Store, b: Bucket, id: string, now: int, dueAt: int): Store {
    Store(AddLt(s.due, b, dueAt), s.items[b := Content(s.items, b)[id := now]])
  }

  function Unlisted(s: Store, b: Bucket): Store {
    s.(due := s.due - {b})
  }

  function Emptied(s: Store, b: Bucket): Store {
    s.(items := s.items - {b})
  }

  function Restored(s: Store, b: Bucket, ids: seq<string>, now: int, dueAt: int): Store {
    if ids == [] then s
    else Added(Restored(s, b, ids[..|ids| - 1], now, dueAt), b, ids[|ids| - 1], now, dueAt)
  }

  function Members<T>(ids: seq<T>): set<T> {
    set id | id in ids
  }

  ghost predicate ElsewhereSame(s: Store, t: Store, b: Bucket) {
    forall c :: c != b ==> Content(t.items, c) == Content(s.items, c) && (c in t.due <==> c in s.due)
  }

  lemma AddedAlone(s: Store, b: Bucket, id: string, now: int, dueAt: int)
    ensures var t := Added(s, b, id, now, dueAt);
            && Items(t, b) == Items(s, b) + {id} && ElsewhereSame(s, t, b)
            && b in t.due && t.due[b] <= dueAt && (b in s.due ==> t.due[b] <= s.due[b])
  {
  }

  /** Restoring brings back every id, leaves other buckets alone and makes the bucket due
      no later than asked. */
  lemma {:induction false} RestoredIsWhole(s: Store, b: Bucket, ids: seq<string>, now: int, dueAt: int)
    ensures var t := Restored(s, b, ids, now, dueAt);
            && Items(t, b) == Items(s, b) + Members(ids) && ElsewhereSame(s, t, b)
            && (ids != [] ==> b in t.due && t.due[b] <= dueAt)
            && (b in s.due ==> b in t.due && t.due[b] <= s.due[b])
  {
    if ids != [] {
      var before, last := ids[..|ids| - 1], ids[|ids| - 1];
      RestoredIsWhole(s, b, before, now, dueAt);
      AddedAlone(Restored(s, b, before, now, dueAt), b, last, now, dueAt);
      assert ids == before + [last];
      assert Members(ids) == Members(before) + {last};
    }
  }

  /** Taking a bucket and restoring what was taken loses and invents nothing. */
  lemma TakeThenRestore(s: Store, b: Bucket, ids: seq<string>, now: int, dueAt: int)
    requires forall id :: id in ids <==> id in Items(s, b)
    ensures var t := Restored(Emptied(s, b), b, ids, now, dueAt);
            && Items(t, b) == Items(s, b)
            && (Items(s, b) != {} ==> b in t.due && t.due[b] <= dueAt)
            && ElsewhereSame(s, t, b)
  {
    RestoredIsWhole(Emptied(s, b), b, ids, now, dueAt);
    assert Members(ids) == Items(s, b);
    if ids == [] { assert Items(s, b) == {}; }
  }

  class DigestBucketService {
    const due: SortedSets<Bucket>
    var items: map<Bucket, SortedSet<string>>

    constructor ()
      ensures Now() == Store(map[], map[])
      ensures fresh(due)
    {
      due := new SortedSets();
      items := map[];
    }

    ghost function Now(): Store
      reads this, due
    {
      Store(due.members, items)
    }

    method Add(b: Bucket, id: string, now: int, dueAt: int)
      modifies this, due
      ensures Now() == Added(old(Now()), b, id, now, dueAt)
    {
      items := items[b := Content(items, b)[id := now]];
      due.ZAddLt(b, dueAt);
    }

    /** Alone, a caller wins every bucket it found due, earliest first. */
    method ClaimDue(asOf: int, limit: nat) returns (claimed: seq<Bucket>)
      modifies due
      ensures IsRange(old(due.members), asOf, limit, claimed)
      ensures due.members == old(due.members) - Members(claimed)
    {
      var found := due.ZRangeByScore(asOf, limit);
      claimed := [];
      for i := 0 to |found|
        invariant claimed == found[..i]
        invariant due.members == old(due.members) - Members(found[..i])
      {
        assert found[..i + 1] == found[..i] + [found[i]];
        var won := due.ZRem(found[i]);
        if won == 0 { continue; }
        claimed := claimed + [found[i]];
      }
      assert found[..|found|] == found;
    }

    /** Reads and empties the bucket, oldest entry first. */
    method Take(b: Bucket) returns (ids: seq<string>)
      modifies `items
      ensures Now() == Emptied(old(Now()), b)
      ensures forall id :: id in ids <==> id in Items(old(Now()), b)
      ensures forall i, j :: 0 <= i < j < |ids| ==>
                ids[i] != ids[j] && Content(old(items), b)[ids[i]] <= Content(old(items), b)[ids[j]]
    {
      var content := Content(items, b);
      ids := LowestFirst(content, content.Keys, None);
      items := items - {b};
    }

    method Restore(b: Bucket, ids: seq<string>, now: int, dueAt: int)
      modifies this, due
      ensures Now() == Restored(old(Now()), b, ids, now, dueAt)
    {
      for i := 0 to |ids|
        invariant Now() == Restored(old(Now()), b, ids[..i], now, dueAt)
      {
        assert ids[..i + 1][..i] == ids[..i];
        Add(b, ids[i], now, dueAt);
      }
      assert ids[..|ids|] == ids;
    }
  }
}
