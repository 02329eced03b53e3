/** Runs in which a digest fails: a send that stops halfway, and lookups that throw. */
module DigestCases {
  import opened Redis
  import opened States
  import opened Digest
  import opened DigestRuns
  import opened DigestLogs

  const IDLE := Replica([], [], NoJob)

  const CAPPED_NOW := Origin(Capped, [Entry(Some(Created), Enriched), Entry(Some(Enriched), Capped)])

  lemma Extend(ops: seq<Op>, w: System, op: Op) returns (longer: seq<Op>)
    requires w == Run(ops)
    ensures longer == ops + [op] && Run(longer) == Apply(w, op)
  {
    longer := ops + [op];
    assert longer[..|ops|] == ops;
  }

  function Working(w: System, r: Replica): System {
    w.(replicas := w.replicas[0 := r])
  }

  /** Replica 0 lists one due bucket and claims it. */
  lemma ClaimedOne(before: seq<Op>, w: System, b: Bucket) returns (ops: seq<Op>)
    requires w == Run(before) && DigestRuns.At(w, 0) == IDLE && b in w.store.due
    ensures Run(ops) == Working(w, Replica([], [b], NoJob)).(store := Unlisted(w.store, b))
  {
    ops := Extend(before, w, Scan(0, [b]));
    ops := Extend(ops, Working(w, Replica([b], [], NoJob)), Claim(0));
    assert [b][1..] == [] && [] + [b] == [b];
    assert Run(ops).replicas == w.replicas[0 := Replica([], [b], NoJob)];
  }

  /** ... finds its user and takes it. */
  lemma TakenOne(before: seq<Op>, w: System, b: Bucket) returns (ops: seq<Op>)
    requires w == Run(before) && DigestRuns.At(w, 0) == IDLE && b in w.store.due && Items(w.store, b) != {}
    ensures Run(ops) == Working(w, Replica([], [], Holding(b, Items(w.store, b))))
                        .(store := Emptied(Unlisted(w.store, b), b))
  {
    ops := ClaimedOne(before, w, b);
    var claimed := Working(w, Replica([], [b], NoJob)).(store := Unlisted(w.store, b));
    ops := Extend(ops, claimed, Start(0, Found));
    assert [b][1..] == [];
    var looked := Working(claimed, Replica([], [], Looked(b, true)));
    ops := Extend(ops, looked, Take(0));
    assert Run(ops).replicas == w.replicas[0 := Replica([], [], Holding(b, Items(w.store, b)))];
  }

  // ---- Lookups that throw ----

  const BUCKET := Bucket("user", CappedPile)

  function One(id: string): System {
    System(Store(map[BUCKET := 0], map[BUCKET := map[id := 0]]), map[], map[id := Capped], map[id := CAPPED_NOW.log],
           map[id := CAPPED_NOW], map[], [])
  }

  lemma AddedOne(id: string) returns (ops: seq<Op>)
    ensures Run(ops) == One(id)
  {
    ops := Extend([], START, Add(BUCKET, id, CAPPED_NOW, 0, 0));
  }

  /** The user lookup throws: the id is in a bucket that is neither due nor claimed. */
  lemma StrandedBucket(id: string) returns (ops: seq<Op>)
    ensures id in Items(Run(ops).store, BUCKET) && !Covered(Run(ops), BUCKET)
  {
    ops := AddedOne(id);
    ops := ClaimedOne(ops, One(id), BUCKET);
    var w := Working(One(id), Replica([], [BUCKET], NoJob)).(store := Unlisted(One(id).store, BUCKET));
    ops := Extend(ops, w, Start(0, Throws));
    assert [BUCKET][1..] == [];
    assert Run(ops).replicas == map[0 := IDLE];
  }

  /** A later lookup throws: the id is in no bucket and in nobody's hands, and still CAPPED. */
  lemma LostId(id: string) returns (ops: seq<Op>)
    ensures SoleAt(Run(ops), id, DigestRuns.Done)
    ensures id in Run(ops).settled && Run(ops).settled[id] == LookupFailed
    ensures id in Run(ops).status && Run(ops).status[id] == Capped
  {
    ops := AddedOne(id);
    assert id in Items(One(id).store, BUCKET);
    ops := TakenOne(ops, One(id), BUCKET);
    var w := Run(ops);
    var before := ops;
    ops := Extend(ops, w, Drop(0));
    FailedLookupLosesAll(before, 0, id);
  }

  // ---- A send that stops halfway ----

  function Three(x: string, y: string, z: string): System {
    System(Store(map[BUCKET := 0], map[BUCKET := map[x := 0, y := 0, z := 0]]), map[],
           map[x := Capped, y := Capped, z := Capped],
           map[x := CAPPED_NOW.log, y := CAPPED_NOW.log, z := CAPPED_NOW.log],
           map[x := CAPPED_NOW, y := CAPPED_NOW, z := CAPPED_NOW], map[], [])
  }

  lemma AddedThree(x: string, y: string, z: string) returns (ops: seq<Op>)
    requires x != y && x != z && y != z
    ensures Run(ops) == Three(x, y, z)
  {
    ops := AddedOne(x);
    ops := Extend(ops, One(x), Add(BUCKET, y, CAPPED_NOW, 0, 0));
    var two := System(Store(map[BUCKET := 0], map[BUCKET := map[x := 0, y := 0]]), map[],
                      map[x := Capped, y := Capped], map[x := CAPPED_NOW.log, y := CAPPED_NOW.log],
                      map[x := CAPPED_NOW, y := CAPPED_NOW], map[], []);
    ops := Extend(ops, two, Add(BUCKET, z, CAPPED_NOW, 0, 0));
  }

  function Halfway(ids: set<string>, promoted: set<string>, queued: bool, folded: set<string>): Replica {
    Replica([], [], Sending(BUCKET, ids, ids, ids, promoted, queued, folded))
  }

  /** Taken and selected. */
  lemma SelectedThree(x: string, y: string, z: string) returns (ops: seq<Op>, w: System)
    requires x != y && x != z && y != z
    ensures w == Run(ops) && w.replicas == map[0 := Halfway({x, y, z}, {}, false, {})]
    ensures w.store == Store(map[], map[]) && w.settled == map[] && w.folds == []
    ensures w.status == map[x := Capped, y := Capped, z := Capped]
  {
    ops, w := TakenThree(x, y, z);
    SelectsAll(w, {x, y, z});
    ops := Extend(ops, w, Select(0));
    w := Run(ops);
  }

  lemma TakenThree(x: string, y: string, z: string) returns (ops: seq<Op>, w: System)
    requires x != y && x != z && y != z
    ensures w == Run(ops) && w.replicas == map[0 := Replica([], [], Holding(BUCKET, {x, y, z}))]
    ensures w.store == Store(map[], map[]) && w.settled == map[] && w.folds == []
    ensures w.status == map[x := Capped, y := Capped, z := Capped]
  {
    var start := Three(x, y, z);
    ops := AddedThree(x, y, z);
    assert Items(start.store, BUCKET) == {x, y, z};
    assert Emptied(Unlisted(start.store, BUCKET), BUCKET) == Store(map[], map[]);
    ops := TakenOne(ops, start, BUCKET);
    w := Run(ops);
  }

  lemma SelectsAll(w: System, ids: set<string>)
    requires w.replicas == map[0 := Replica([], [], Holding(BUCKET, ids))] && |ids| == 3
    requires forall id :: id in ids ==> id in w.status && w.status[id] == Capped
    ensures Chosen(w, 0) == w.(replicas := map[0 := Halfway(ids, {}, false, {})])
  {
    assert SelectedOf(w, ids) == ids && CappedOf(w, ids) == ids;
  }

  /** All three promoted. */
  lemma PromotedThree(x: string, y: string, z: string) returns (ops: seq<Op>, w: System)
    requires x != y && x != z && y != z
    ensures w == Run(ops) && w.replicas == map[0 := Halfway({x, y, z}, {x, y, z}, false, {})]
    ensures w.store == Store(map[], map[]) && w.settled == map[] && w.folds == []
    ensures w.status == map[x := DigestPending, y := DigestPending, z := DigestPending]
  {
    var ids := {x, y, z};
    ops, w := SelectedThree(x, y, z);
    ops, w := PromotedOne(ops, w, ids, {}, x);
    assert {} + {x} == {x} && {x} + {y} == {x, y} && {x, y} + {z} == ids;
    ops, w := PromotedOne(ops, w, ids, {x}, y);
    ops, w := PromotedOne(ops, w, ids, {x, y}, z);
  }

  lemma PromotedOne(before: seq<Op>, v: System, ids: set<string>, promoted: set<string>, id: string)
    returns (ops: seq<Op>, w: System)
    requires v == Run(before) && v.replicas == map[0 := Halfway(ids, promoted, false, {})] && id in ids - promoted
    ensures w == Run(ops) && w.replicas == map[0 := Halfway(ids, promoted + {id}, false, {})]
    ensures w.store == v.store && w.settled == v.settled && w.folds == v.folds
        && w.status == v.status[id := DigestPending]
  {
    ops := Extend(before, v, Promote(0, id));
    w := Run(ops);
    assert w.replicas == map[0 := Halfway(ids, promoted + {id}, false, {})];
  }

  /** The digest is queued, x is folded, and then a write fails. */
  lemma FailedAfterOne(x: string, y: string, z: string) returns (ops: seq<Op>, w: System)
    requires x != y && x != z && y != z
    ensures w == Run(ops) && w.replicas == map[0 := Replica([], [], Restoring(BUCKET, {x, y, z}, 300_000))]
    ensures w.store == Store(map[], map[]) && w.settled == map[]
    ensures w.status == map[x := Digested, y := DigestPending, z := DigestPending]
  {
    var ids := {x, y, z};
    ops, w := PromotedThree(x, y, z);
    ops := Extend(ops, w, Queue(0));
    w := Run(ops);
    assert w.replicas == map[0 := Halfway(ids, ids, true, {})];
    ops := Extend(ops, w, Fold(0, x));
    w := Run(ops);
    assert w.replicas == map[0 := Halfway(ids, ids, true, {} + {x})];
    ops := Extend(ops, w, Fail(0, 300_000));
    w := Run(ops);
    assert w.replicas == map[0 := Replica([], [], Restoring(BUCKET, ids, 300_000))];
  }

  lemma RestoredNext(before: seq<Op>, v: System, ids: set<string>, id: string) returns (ops: seq<Op>, w: System)
    requires v == Run(before) && v.replicas == map[0 := Replica([], [], Restoring(BUCKET, ids, 300_000))] && id in ids
    ensures w == Run(ops)
    ensures w.replicas == map[0 := if ids - {id} == {} then IDLE
                                   else Replica([], [], Restoring(BUCKET, ids - {id}, 300_000))]
    ensures w.store == Added(v.store, BUCKET, id, 0, 300_000) && w.settled == v.settled && w.status == v.status
  {
    ops := Extend(before, v, Restore(0, id, 0));
    w := Run(ops);
  }

  /** Everything goes back and is taken again. */
  lemma TakenAgain(x: string, y: string, z: string) returns (ops: seq<Op>, w: System)
    requires x != y && x != z && y != z
    ensures w == Run(ops) && w.replicas == map[0 := Replica([], [], Holding(BUCKET, {x, y, z}))]
    ensures w.settled == map[] && w.status == map[x := Digested, y := DigestPending, z := DigestPending]
  {
    ops, w := FailedAfterOne(x, y, z);
    assert {x, y, z} - {x} == {y, z} && {y, z} - {y} == {z} && {z} - {z} == {};
    ops, w := RestoredNext(ops, w, {x, y, z}, x);
    ops, w := RestoredNext(ops, w, {y, z}, y);
    ops, w := RestoredNext(ops, w, {z}, z);
    assert Items(w.store, BUCKET) == {x, y, z} && BUCKET in w.store.due;
    ops := TakenOne(ops, w, BUCKET);
    w := Run(ops);
  }

  /** "They stay CAPPED" and "nothing is dropped" fail: of three capped notifications whose send
      failed after one fold, the other two are below the minimum and stay in DIGEST_PENDING,
      in no bucket, whatever happens later. */
  lemma HalfFoldedPileIsLeftPending(x: string, y: string, z: string) returns (ops: seq<Op>)
    requires x != y && x != z && y != z
    ensures forall more: seq<Op>, id :: id in {y, z} ==>
              var w := Run(ops + more);
              && id in w.settled && w.settled[id] == BelowMinimum
              && id in w.status && w.status[id] == DigestPending
              && SoleAt(w, id, DigestRuns.Done)
  {
    var w: System;
    ops, w := TakenAgain(x, y, z);
    assert SelectedOf(w, {x, y, z}) == {y, z} && |{y, z}| == 2;
    ops := Extend(ops, w, Select(0));
    forall more: seq<Op>, id | id in {y, z}
      ensures var t := Run(ops + more);
              && id in t.settled && t.settled[id] == BelowMinimum
              && id in t.status && t.status[id] == DigestPending
              && SoleAt(t, id, DigestRuns.Done)
    {
      SettledForGood(ops, more, id);
      InvHolds(ops + more);
      assert OnePlace(Run(ops + more), id) && IsAt(Run(ops + more), id, DigestRuns.Done);
    }
  }
}
