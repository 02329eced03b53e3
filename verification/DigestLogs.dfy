/** The state logs of held notifications, and what becomes of the ones a digest leaves. */
module DigestLogs {
  import opened Redis
  import opened States
  import opened Digest
  import opened DigestRuns

  // ---- The digest names its "from" states without looking, and is right ----

  /** What the digest has logged for a notification that came with one status and has another. */
  function Writes(from: Status, to: Status): seq<Entry> {
    if from == to then []
    else
      (if from == Capped then [Entry(Some(Capped), DigestPending)] else []) +
      (if to == Digested then [Entry(Some(DigestPending), Digested)] else [])
  }

  predicate LogOk(w: System, id: string)
    requires id in w.status
  {
    && id in w.log && id in w.origin && w.origin[id].status in {Capped, DigestPending}
    && w.status[id] in {Capped, DigestPending, Digested}
    && w.log[id] == w.origin[id].log + Writes(w.origin[id].status, w.status[id])
    && (w.origin[id].status == DigestPending ==> w.status[id] != Capped)
  }

  ghost predicate LogsOk(w: System) {
    forall id :: id in w.status ==> LogOk(w, id)
  }

  /** Whatever a replica is about to write, the row is in the state the write names. */
  lemma WritesStartAtStatus(ops: seq<Op>, op: Op)
    requires Possible(Run(ops), op) && (op.Promote? || op.Fold?)
    ensures op.id in Run(ops).status && Run(ops).status[op.id] == if op.Promote? then Capped else DigestPending
  {
    InvHolds(ops);
    WriteStartsAtStatus(Run(ops), op);
  }

  lemma WriteStartsAtStatus(w: System, op: Op)
    requires Inv(w) && Possible(w, op) && (op.Promote? || op.Fold?)
    ensures op.id in w.status && w.status[op.id] == if op.Promote? then Capped else DigestPending
  {
    assert JobOk(w, op.k);
    HeldIsKnown(w, op.k, op.id);
  }

  lemma WrittenLog(w: System, id: string, from: Status, to: Status)
    requires id in w.status && LogOk(w, id) && w.status[id] == from
    requires (from == Capped && to == DigestPending) || (from == DigestPending && to == Digested)
    ensures LogOk(Written(w, id, from, to), id)
  {
  }

  lemma WriteKeepsLogs(w: System, id: string, from: Status, to: Status)
    requires LogsOk(w) && id in w.status && w.status[id] == from
    requires (from == Capped && to == DigestPending) || (from == DigestPending && to == Digested)
    ensures LogsOk(Written(w, id, from, to))
  {
    var t := Written(w, id, from, to);
    forall x | x in t.status ensures LogOk(t, x) {
      assert LogOk(w, x);
      if x == id { WrittenLog(w, id, from, to); }
    }
  }

  lemma SameLogs(w: System, t: System)
    requires LogsOk(w) && t.status == w.status && t.log == w.log && t.origin == w.origin
    ensures LogsOk(t)
  {
    forall x | x in t.status ensures LogOk(t, x) { assert LogOk(w, x); }
  }

  lemma AddKeepsLogs(w: System, op: Op)
    requires LogsOk(w) && op.Add? && Possible(w, op)
    ensures LogsOk(Apply(w, op))
  {
    var t := Apply(w, op);
    forall x | x in t.status ensures LogOk(t, x) {
      if x != op.id { assert LogOk(w, x); }
    }
  }

  lemma PromoteKeepsLogs(w: System, k: nat, id: string)
    requires Inv(w) && LogsOk(w) && Possible(w, Promote(k, id))
    ensures LogsOk(Apply(w, Promote(k, id)))
  {
    WriteStartsAtStatus(w, Promote(k, id));
    WriteKeepsLogs(w, id, Capped, DigestPending);
    SameLogs(Written(w, id, Capped, DigestPending), Apply(w, Promote(k, id)));
  }

  lemma FoldKeepsLogs(w: System, k: nat, id: string)
    requires Inv(w) && LogsOk(w) && Possible(w, Fold(k, id))
    ensures LogsOk(Apply(w, Fold(k, id)))
  {
    WriteStartsAtStatus(w, Fold(k, id));
    WriteKeepsLogs(w, id, DigestPending, Digested);
    SameLogs(Written(w, id, DigestPending, Digested), Apply(w, Fold(k, id)));
  }

  /** Only three kinds of step touch a row. */
  lemma RowsUntouched(w: System, op: Op)
    requires Possible(w, op) && !op.Promote? && !op.Fold? && !op.Add?
    ensures Apply(w, op).status == w.status && Apply(w, op).log == w.log && Apply(w, op).origin == w.origin
  {
    match op
    case Take(k) => assert Apply(w, op) == Taken(w, k);
    case Select(k) => assert Apply(w, op) == Chosen(w, k);
    case Finish(k) => assert Apply(w, op) == Finished(w, k);
    case Claim(k) => assert Apply(w, op) == Claimed(w, k);
    case Start(k, lookup) => assert Apply(w, op) == Started(w, k, lookup);
    case Restore(k, id, now) => assert Apply(w, op) == RestoredOne(w, k, id, now);
    case _ =>
  }

  lemma ApplyKeepsLogs(w: System, op: Op)
    requires Inv(w) && LogsOk(w)
    ensures LogsOk(Apply(w, op))
  {
    if Possible(w, op) {
      if op.Promote? {
        PromoteKeepsLogs(w, op.k, op.id);
      } else if op.Fold? {
        FoldKeepsLogs(w, op.k, op.id);
      } else if op.Add? {
        AddKeepsLogs(w, op);
      } else {
        RowsUntouched(w, op);
        SameLogs(w, Apply(w, op));
      }
    }
  }

  lemma {:induction false} LogsHold(ops: seq<Op>)
    ensures LogsOk(Run(ops))
  {
    if ops != [] {
      InvHolds(ops[..|ops| - 1]);
      LogsHold(ops[..|ops| - 1]);
      ApplyKeepsLogs(Run(ops[..|ops| - 1]), ops[|ops| - 1]);
    }
  }

  /** So in every interleaving a log that was a path when the notification was held stays one. */
  lemma LogsStayPaths(ops: seq<Op>, id: string)
    requires id in Run(ops).origin && id in Run(ops).status
    requires IsPath(Run(ops).origin[id].log, Run(ops).origin[id].status)
    ensures id in Run(ops).log && IsPath(Run(ops).log[id], Run(ops).status[id])
  {
    LogsHold(ops);
    var o, to := Run(ops).origin[id], Run(ops).status[id];
    assert LogOk(Run(ops), id);
    assert o.log + [] == o.log;
    if o.status == Capped && to != Capped { Step(o.log, Capped, DigestPending); }
    if to == Digested {
      if o.status == Capped {
        var log := o.log + [Entry(Some(Capped), DigestPending)];
        Step(log, DigestPending, Digested);
        assert log + [Entry(Some(DigestPending), Digested)] == Run(ops).log[id];
      } else {
        Step(o.log, DigestPending, Digested);
        assert o.log + [Entry(Some(DigestPending), Digested)] == Run(ops).log[id];
      }
    }
  }

  // ---- What is left behind, and for good ----

  predicate PromotesAt(ops: seq<Op>, i: nat, id: string)
    requires i < |ops|
  {
    ops[i].Promote? && ops[i].id == id && Possible(Run(ops[..i]), ops[i])
  }

  /** Some send promoted the notification. */
  predicate Promoted(ops: seq<Op>, id: string) {
    exists i :: 0 <= i < |ops| && PromotesAt(ops, i, id)
  }

  lemma PromotedLater(ops: seq<Op>, id: string)
    requires ops != []
    ensures Promoted(ops, id) <==>
            Promoted(ops[..|ops| - 1], id) || PromotesAt(ops, |ops| - 1, id)
  {
    var before := ops[..|ops| - 1];
    if i :| 0 <= i < |before| && PromotesAt(before, i, id) {
      assert before[..i] == ops[..i];
      assert PromotesAt(ops, i, id);
    }
    if i :| 0 <= i < |ops| && PromotesAt(ops, i, id) && i < |before| {
      assert before[..i] == ops[..i];
      assert PromotesAt(before, i, id);
    }
  }

  /** A notification is still CAPPED exactly if it came so and no send has promoted it. */
  predicate CappedIff(w: System, id: string, promoted: bool) {
    if id in w.status then
      id in w.origin && (w.status[id] == Capped <==> w.origin[id].status == Capped && !promoted)
    else !promoted
  }

  lemma CappedStep(w: System, op: Op, id: string, promoted: bool)
    requires Inv(w) && CappedIff(w, id, promoted)
    ensures CappedIff(Apply(w, op), id, promoted || (op.Promote? && op.id == id && Possible(w, op)))
  {
    if Possible(w, op) && (op.Promote? || op.Fold?) { WriteStartsAtStatus(w, op); }
  }

  lemma {:induction false} CappedUntilPromoted(ops: seq<Op>, id: string)
    ensures CappedIff(Run(ops), id, Promoted(ops, id))
  {
    if ops != [] {
      var before := ops[..|ops| - 1];
      CappedUntilPromoted(before, id);
      InvHolds(before);
      PromotedLater(ops, id);
      CappedStep(Run(before), ops[|ops| - 1], id, Promoted(before, id));
    }
  }

  /** An item left below the minimum is in DIGEST_PENDING exactly if it came so or an earlier
      send promoted it, and CAPPED otherwise. */
  lemma LeftPendingIff(ops: seq<Op>, id: string)
    requires id in Run(ops).settled && Run(ops).settled[id] == BelowMinimum
    ensures var w := Run(ops);
            && id in w.status && id in w.origin
            && w.status[id] == (if w.origin[id].status == DigestPending || Promoted(ops, id) then DigestPending
                else Capped)
  {
    InvHolds(ops);
    LogsHold(ops);
    CappedUntilPromoted(ops, id);
    assert LogOk(Run(ops), id);
  }

  predicate SameFor(w: System, t: System, id: string) {
    && id in w.settled && id in w.status && id in w.log
    && id in t.settled && t.settled[id] == w.settled[id]
    && id in t.status && t.status[id] == w.status[id]
    && id in t.log && t.log[id] == w.log[id]
  }

  /** What settles is what a replica holds, or the bucket of a user nobody knows. */
  lemma NotAgain(w: System, id: string, p: Place)
    requires Places(w) && id in w.settled && p != DigestRuns.Done
    ensures !IsAt(w, id, p)
  {
    assert OnePlace(w, id) && IsAt(w, id, DigestRuns.Done);
  }

  lemma SettlingOthers(w: System, ids: set<string>, reason: Reason, id: string)
    requires id in w.settled && id !in ids
    ensures id in Settle(w, ids, reason).settled && Settle(w, ids, reason).settled[id] == w.settled[id]
  {
  }

  lemma ReasonStaysInSelect(w: System, k: nat, id: string)
    requires Inv(w) && id in w.settled && DigestRuns.At(w, k).job.Holding?
    ensures id in Chosen(w, k).settled && Chosen(w, k).settled[id] == w.settled[id]
  {
    NotAgain(w, id, InHands(k));
  }

  lemma ReasonStaysInFinish(w: System, k: nat, id: string)
    requires Inv(w) && id in w.settled && Possible(w, Finish(k))
    ensures id in Finished(w, k).settled && Finished(w, k).settled[id] == w.settled[id]
  {
    NotAgain(w, id, InHands(k));
    assert JobOk(w, k);
  }

  lemma ReasonStaysInTake(w: System, k: nat, id: string)
    requires Inv(w) && id in w.settled && DigestRuns.At(w, k).job.Looked?
    ensures id in Taken(w, k).settled && Taken(w, k).settled[id] == w.settled[id]
  {
    NotAgain(w, id, InBucket(DigestRuns.At(w, k).job.b));
  }

  lemma ReasonStays(w: System, op: Op, id: string)
    requires Inv(w) && id in w.settled
    ensures id in Apply(w, op).settled && Apply(w, op).settled[id] == w.settled[id]
  {
    if Possible(w, op) {
      match op {
        case Take(k) => ReasonStaysInTake(w, k, id);
        case Drop(k) =>
          NotAgain(w, id, InHands(k));
          SettlingOthers(With(w, k, NoJob), DigestRuns.At(w, k).job.ids, LookupFailed, id);
        case Select(k) => ReasonStaysInSelect(w, k, id);
        case Finish(k) => ReasonStaysInFinish(w, k, id);
        case _ =>
      }
    }
  }

  lemma RowStays(w: System, op: Op, id: string)
    requires Inv(w) && LogsOk(w) && id in w.settled
    ensures var t := Apply(w, op);
            && id in w.status && id in w.log && id in t.status && id in t.log
            && t.status[id] == w.status[id] && t.log[id] == w.log[id]
  {
    assert id in w.status && LogOk(w, id);
    if Possible(w, op) {
      if op.Promote? {
        NotHeld(w, op.k, id, op.id);
      } else if op.Fold? {
        NotHeld(w, op.k, id, op.id);
      } else if !op.Add? {
        RowsUntouched(w, op);
      }
    }
  }

  lemma NotHeld(w: System, k: nat, id: string, other: string)
    requires Inv(w) && id in w.settled && DigestRuns.At(w, k).job.Sending?
    requires other in DigestRuns.At(w, k).job.items + DigestRuns.At(w, k).job.capped
    ensures id != other
  {
    NotAgain(w, id, InHands(k));
    assert JobOk(w, k);
  }

  /** Settled is for good: nothing that happens later changes reason, status or log. */
  lemma {:induction false} SettledForGood(ops: seq<Op>, more: seq<Op>, id: string)
    requires id in Run(ops).settled
    ensures SameFor(Run(ops), Run(ops + more), id)
    decreases |more|
  {
    if more == [] {
      assert ops + more == ops;
      InvHolds(ops);
      LogsHold(ops);
      assert id in Run(ops).status && LogOk(Run(ops), id);
    } else {
      var shorter := more[..|more| - 1];
      SettledForGood(ops, shorter, id);
      InvHolds(ops + shorter);
      LogsHold(ops + shorter);
      assert (ops + more)[..|ops + more| - 1] == ops + shorter;
      ReasonStays(Run(ops + shorter), more[|more| - 1], id);
      RowStays(Run(ops + shorter), more[|more| - 1], id);
      assert Run(ops + more) == Apply(Run(ops + shorter), more[|more| - 1]);
    }
  }
}
