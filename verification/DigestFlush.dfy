/** Folding the held notifications of one bucket into a digest
    (src/notifications/digest/digest-flush.service.ts), run by one replica alone;
    DigestRuns has the same steps interleaved. */
module DigestFlush {
  import opened Redis
  import opened Events
  import opened States
  import opened Digest

  const RETRY_DELAY := 300_000

  datatype Outcome = Sent | Empty | BelowThreshold | Deferred | Failed | NoUser

  /** The digest row that stands for the folded notifications. */
  datatype Summary = Summary(user: string, source: Source, of: seq<string>, classification: Classification)

  predicate Held(rows: map<string, Row>, id: string) {
    id in rows && rows[id].status in {DigestPending, Capped}
  }

  function Selected(rows: map<string, Row>, ids: seq<string>): (r: seq<string>)
    ensures forall id :: id in r <==> id in ids && Held(rows, id)
    ensures |r| <= |ids|
    ensures (forall i, j :: 0 <= i < j < |ids| ==> ids[i] != ids[j]) ==>
              forall i, j :: 0 <= i < j < |r| ==> r[i] != r[j]
  {
    if ids == [] then []
    else
      var rest := Selected(rows, ids[..|ids| - 1]);
      if Held(rows, ids[|ids| - 1]) then rest + [ids[|ids| - 1]] else rest
  }

  /** The digest is the user's and stands for all the items, and it is promotional as soon as
      one of them is: the stricter rules then apply. */
  ghost predicate Summarises(s: Summary, b: Bucket, items: seq<string>, rows: map<string, Row>) {
    && s.user == b.user && s.source == b.source && s.of == items
    && (s.classification == Promotional <==>
          exists id :: id in items && id in rows && rows[id].classification == Promotional)
  }

  function PromotedRow(row: Row): Row {
    if row.status == Capped then Write(row, Capped, DigestPending) else row
  }

  /** The aggregator names its own "from" states. */
  function FoldedRow(row: Row): Row {
    Write(PromotedRow(row), DigestPending, Digested)
  }

  function AllPromoted(rows: map<string, Row>, ids: set<string>): map<string, Row> {
    map x | x in rows :: if x in ids then PromotedRow(rows[x]) else rows[x]
  }

  function AllFolded(rows: map<string, Row>, ids: set<string>): map<string, Row> {
    map x | x in rows :: if x in ids then FoldedRow(rows[x]) else rows[x]
  }

  lemma {:induction false} RestoredDue(s: Store, b: Bucket, ids: seq<string>, now: int, dueAt: int)
    ensures Restored(s, b, ids, now, dueAt).due == if ids == [] then s.due else AddLt(s.due, b, dueAt)
  {
    if ids != [] { RestoredDue(s, b, ids[..|ids| - 1], now, dueAt); }
  }

  /** The store as it was, with the bucket due again. */
  ghost predicate BackAgain(before: Store, after: Store, b: Bucket, dueAt: int) {
    && after.due == AddLt(before.due, b, dueAt)
    && forall c :: Items(after, c) == Items(before, c)
  }

  class DigestFlushService {
    const buckets: DigestBucketService
    const db: Database
    var digests: seq<Summary>

    constructor (buckets: DigestBucketService, db: Database)
      ensures this.buckets == buckets && this.db == db && digests == []
    {
      this.buckets, this.db, digests := buckets, db, [];
    }

    /** `quietUntil` is the end of the user's quiet window if it is open; `queued` is whether
        the digest row could be rendered and queued; after `writes` folds the database fails.
        `items` are the ids still held. */
    method Flush(b: Bucket, userFound: bool, quietUntil: Option<int>, queued: bool, writes: nat, now: int)
      returns (outcome: Outcome, ghost items: seq<string>)
      modifies this, buckets, buckets.due, db
      ensures forall id :: id in items <==>
                && id in Items(old(buckets.Now()), b) && id in old(db.rows)
                && old(db.rows)[id].status in {DigestPending, Capped}
      ensures var deferred :=
                userFound && Items(old(buckets.Now()), b) != {} && b.source in {Hourly, Daily} && quietUntil.Some?;
              && (outcome.NoUser? <==> !userFound)
              && (outcome.Deferred? <==> deferred)
              && (outcome.Empty? <==> userFound && !deferred && items == [])
              && (outcome.BelowThreshold? <==> userFound && !deferred && 0 < |items| < MinItems(b.source))
              && (outcome.Sent? <==>
                  userFound && !deferred && |items| >= MinItems(b.source) && queued && writes >= |items|)
      ensures outcome.Deferred? ==> BackAgain(old(buckets.Now()), buckets.Now(), b, quietUntil.value)
      ensures outcome.Failed? ==> BackAgain(old(buckets.Now()), buckets.Now(), b, now + 300_000)
      ensures !outcome.Deferred? && !outcome.Failed? ==> buckets.Now() == Emptied(old(buckets.Now()), b)
      ensures db.rows == if outcome.Sent? || outcome.Failed? then Attempted(old(db.rows), items, queued, writes)
          else old(db.rows)
      ensures outcome.Sent? ==> db.rows == AllFolded(old(db.rows), Members(items))
      ensures |digests| == |old(digests)| + if outcome.Sent? || (outcome.Failed? && queued) then 1 else 0
      ensures digests[..|old(digests)|] == old(digests)
      ensures |digests| > |old(digests)| ==> Summarises(digests[|old(digests)|], b, items, old(db.rows))
    {
      var ids := buckets.Take(b);
      ghost var start := old(buckets.Now());
      items := Selected(db.rows, ids);
      if !userFound { return NoUser, items; }
      if |ids| == 0 {
        assert Items(start, b) == {} by { assert forall id :: id in Items(start, b) ==> id in ids; }
        return Empty, items;
      }
      assert ids[0] in Items(start, b);
      if (b.source == Hourly || b.source == Daily) && quietUntil.Some? {
        buckets.Restore(b, ids, now, quietUntil.value);
        PutBack(start, b, ids, now, quietUntil.value);
        return Deferred, items;
      }
      var held := Selected(db.rows, ids);
      if |held| == 0 { return Empty, items; }
      if |held| < MinItems(b.source) { return BelowThreshold, items; }
      var sent := Send(b, held, queued, writes);
      if sent { return Outcome.Sent, items; }
      buckets.Restore(b, ids, now, now + RETRY_DELAY);
      PutBack(start, b, ids, now, now + RETRY_DELAY);
      outcome := Outcome.Failed;
    }

    /** Promotes the capped ones, creates and queues the digest, then folds every item. */
    method Send(b: Bucket, items: seq<string>, queued: bool, writes: nat) returns (sent: bool)
      requires forall id :: id in items ==> Held(db.rows, id)
      requires forall i, j :: 0 <= i < j < |items| ==> items[i] != items[j]
      modifies `digests, db
      ensures sent == (queued && writes >= |items|)
      ensures db.rows == Attempted(old(db.rows), items, queued, writes)
      ensures sent ==> db.rows == AllFolded(old(db.rows), Members(items))
      ensures |digests| == |old(digests)| + if queued then 1 else 0
      ensures digests[..|old(digests)|] == old(digests)
      ensures queued ==> Summarises(digests[|old(digests)|], b, items, old(db.rows))
    {
      ghost var rows := db.rows;
      Promote(items);
      if !queued { return false; }
      SameClassifications(rows, items);
      var promotional := exists id :: id in items && id in db.rows && db.rows[id].classification == Promotional;
      digests := digests + [Summary(b.user, b.source, items, if promotional then Promotional else Transactional)];
      sent := Fold(items, writes);
      FoldAfterPromotion(rows, items);
      assert items[..|items|] == items;
    }

    method Promote(items: seq<string>)
      requires forall id :: id in items ==> Held(db.rows, id)
      modifies db
      ensures db.rows == AllPromoted(old(db.rows), Members(items))
    {
      for i := 0 to |items|
        invariant db.rows == AllPromoted(old(db.rows), Members(items[..i]))
      {
        assert items[..i + 1] == items[..i] + [items[i]];
        assert Held(old(db.rows), items[i]);
        var row := db.rows[items[i]];
        if row.status == Capped {
          db.rows := db.rows[items[i] :=
              row.(status := DigestPending, log := row.log + [Entry(Some(Capped), DigestPending)])];
        }
      }
      assert items[..|items|] == items;
    }

    /** The status written and the entry logged do not look at the row. */
    method Fold(items: seq<string>, writes: nat) returns (done: bool)
      requires forall id :: id in items ==> id in db.rows
      requires forall i, j :: 0 <= i < j < |items| ==> items[i] != items[j]
      modifies db
      ensures done == (writes >= |items|)
      ensures db.rows == AllDigested(old(db.rows), Members(if done then items else items[..writes]))
    {
      for i := 0 to |items|
        invariant i <= writes && db.rows == AllDigested(old(db.rows), Members(items[..i]))
      {
        if i == writes { return false; }
        assert items[..i + 1] == items[..i] + [items[i]];
        assert items[i] in old(db.rows) && items[i] !in items[..i];
        var row := db.rows[items[i]];
        db.rows := db.rows[items[i] :=
            row.(status := Digested, log := row.log + [Entry(Some(DigestPending), Digested)])];
      }
      assert items[..|items|] == items;
      done := true;
    }
  }

  /** The rows after a send, whole or cut short. */
  function Attempted(rows: map<string, Row>, items: seq<string>, queued: bool, writes: nat): map<string, Row> {
    var promoted := AllPromoted(rows, Members(items));
    if !queued then promoted
    else AllDigested(promoted, Members(if writes >= |items| then items else items[..writes]))
  }

  function AllDigested(rows: map<string, Row>, ids: set<string>): map<string, Row> {
    map x | x in rows :: if x in ids then Write(rows[x], DigestPending, Digested) else rows[x]
  }

  lemma FoldAfterPromotion(rows: map<string, Row>, items: seq<string>)
    ensures AllDigested(AllPromoted(rows, Members(items)), Members(items)) == AllFolded(rows, Members(items))
  {
  }

  lemma SameClassifications(rows: map<string, Row>, items: seq<string>)
    ensures var after := AllPromoted(rows, Members(items));
            forall id :: id in items ==>
              (id in after <==> id in rows) && (id in rows ==> after[id].classification == rows[id].classification)
  {
  }

  lemma PutBack(start: Store, b: Bucket, ids: seq<string>, now: int, dueAt: int)
    requires ids != [] && forall id :: id in ids <==> id in Items(start, b)
    ensures BackAgain(start, Restored(Emptied(start, b), b, ids, now, dueAt), b, dueAt)
  {
    TakeThenRestore(start, b, ids, now, dueAt);
    RestoredDue(Emptied(start, b), b, ids, now, dueAt);
  }
}
