/** Undisturbed, the commands of one replica add up to what `ReleaseDue` does as a whole. */
module ReleaseSolo {
  import Redis
  import opened ScheduledRelease
  import opened ReleaseRuns

  /** The replica reads the depths of the first `i` members. */
  function AfterReads(w: System, k: nat, due: seq<Member>, i: nat): System {
    if i == 0 then Apply(w, Begin(k, due)) else Apply(AfterReads(w, k, due, i - 1), Read(k))
  }

  /** And then claims and finishes the first `i` of them. */
  function AfterClaims(w: System, k: nat, due: seq<Member>, fails: set<Member>, later: int, i: nat): System
    requires i <= |due|
  {
    if i == 0 then AfterReads(w, k, due, |due|)
    else
      var t := AfterClaims(w, k, due, fails, later, i - 1);
      Apply(Apply(t, Claim(k)), Finish(k, due[i - 1] in fails, later))
  }

  lemma {:induction false} ReadsSnapshot(w: System, k: nat, due: seq<Member>, i: nat)
    requires Possible(w, Begin(k, due)) && w.batches !in w.depth && i <= |due|
    ensures var t := AfterReads(w, k, due, i);
            && t == w.(replicas := t.replicas, depth := t.depth, batches := w.batches + 1)
            && At(t, k) == Replica(w.batches, due[i..], due, Redis.None, 0)
            && Depths(t, w.batches) == Snapshot(w.held, due[..i])
  {
    if i > 0 {
      ReadsSnapshot(w, k, due, i - 1);
      assert due[i - 1..][1..] == due[i..];
      assert due[..i][..i - 1] == due[..i - 1];
    }
  }

  lemma ClaimAndFinish(t: System, k: nat, fails: bool, later: int)
    requires At(t, k).unread == [] && At(t, k).todo != [] && At(t, k).hand.None? && At(t, k).todo[0] in t.entries
    ensures var r := At(t, k);
            var m := r.todo[0];
            var u := Apply(Apply(t, Claim(k)), Finish(k, fails, later));
            && At(u, k) == r.(todo := r.todo[1..], claims := r.claims + 1)
            && u.depth == t.depth
            && u.entries == (if m.Garbage? || fails then (t.entries - {m})[m := later + 30_000] else t.entries - {m})
            && u.held == if m.Garbage? || fails then t.held else ReleasedIn(t.held, m, Depths(t, r.batch))
  {
  }

  ghost predicate Handled(w: System, t: System, k: nat, due: seq<Member>, fails: set<Member>, later: int, i: nat)
    requires i <= |due|
  {
    && At(t, k) == Replica(w.batches, [], due[i..], Redis.None, i)
    && Depths(t, w.batches) == Snapshot(w.held, due)
    && t.entries == LeftIn(w.entries, due[..i], fails, later)
    && t.held == ReleasedAll(w.held, due[..i], Snapshot(w.held, due), fails)
  }

  lemma HandledNext(w: System, t: System, k: nat, due: seq<Member>, fails: set<Member>, later: int, i: nat)
    requires i < |due| && due[i] !in due[..i] && due[i] in w.entries
    requires Handled(w, t, k, due, fails, later, i)
    ensures Handled(w, Apply(Apply(t, Claim(k)), Finish(k, due[i] in fails, later)), k, due, fails, later, i + 1)
  {
    BatchLosesNothing(w.entries, due[..i], fails, later, due[i]);
    ClaimAndFinish(t, k, due[i] in fails, later);
    assert due[i..][1..] == due[i + 1..];
    assert due[..i + 1][..i] == due[..i];
  }

  lemma {:induction false} ClaimsRelease(w: System, k: nat, due: seq<Member>, fails: set<Member>, later: int, i: nat)
    requires Possible(w, Begin(k, due)) && w.batches !in w.depth && i <= |due|
    requires forall a, b :: 0 <= a < b < |due| ==> due[a] != due[b]
    requires forall m :: m in due ==> m in w.entries
    ensures Handled(w, AfterClaims(w, k, due, fails, later, i), k, due, fails, later, i)
  {
    if i == 0 {
      ReadsSnapshot(w, k, due, |due|);
      assert due[..|due|] == due;
    } else {
      ClaimsRelease(w, k, due, fails, later, i - 1);
      assert due[i - 1] in due;
      HandledNext(w, AfterClaims(w, k, due, fails, later, i - 1), k, due, fails, later, i - 1);
    }
  }

  /** From any state a run can reach: a replica that begins a batch of the set's members and
      is not interrupted leaves the set and the notifications as `ReleaseDue` does, and is idle. */
  lemma SoloBatch(ops: seq<Op>, k: nat, due: seq<Member>, fails: set<Member>, later: int)
    requires Possible(Run(ops), Begin(k, due))
    requires forall a, b :: 0 <= a < b < |due| ==> due[a] != due[b]
    requires forall m :: m in due ==> m in Run(ops).entries
    ensures var w := Run(ops);
            var t := AfterClaims(w, k, due, fails, later, |due|);
            && t.entries == LeftIn(w.entries, due, fails, later)
            && t.held == ReleasedAll(w.held, due, Snapshot(w.held, due), fails)
            && At(t, k) == Replica(w.batches, [], [], Redis.None, |due|)
  {
    BatchesHold(ops);
    ClaimsRelease(Run(ops), k, due, fails, later, |due|);
    assert due[..|due|] == due;
  }
}
