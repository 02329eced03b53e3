/** Claims that interleave on a clock: every Redis command of every claimant is a step of its
    own, and the keys a claim wants are fixed when it begins. Ids are distinct. */
module DeduplicationRaces {
  import opened Redis
  import opened Sets
  import opened Deduplication

  datatype Phase =
    | Taking(next: nat)                    // about to SET NX the next wanted key
    | Asking(next: nat)                    // SET NX failed, about to GET the holder
    | Undoing(holder: Option<string>)      // told of a holder, about to DEL what was taken
    | Won
    | Lost(holder: Option<string>)

  /** `taken` says when each key was taken, `released` which a winner has given back. */
  datatype Claimant = Claimant(event: Event, began: int, phase: Phase, taken: map<Key, int>, released: set<Key>)
  {
    function Keys(): (w: seq<Key>)
      ensures 1 <= |w| <= 2 && w[|w| - 1] == OwnKey()
      ensures forall i :: 0 <= i < |w| - 1 ==> w[i].Idempotency?
    {
      Wanted(event, began)
    }

    function OwnKey(): Key {
      Fingerprint(event.eventType, event.entity, BucketOf(began))
    }
  }

  datatype System = System(now: int, store: map<Key, Cell<string>>, claimants: map<string, Claimant>)

  datatype Op =
    | Tick(ms: nat)
    | Begin(id: string, event: Event)
    | SetNx(id: string)
    | Get(id: string)
    | Undo(id: string)
    | Release(id: string, key: Key)

  predicate Enabled(s: System, op: Op) {
    match op
    case Tick(_) => true
    case Begin(id, _) => id !in s.claimants
    case SetNx(id) =>
      && id in s.claimants && s.claimants[id].phase.Taking?
      && s.claimants[id].phase.next < |s.claimants[id].Keys()|
    case Get(id) =>
      && id in s.claimants && s.claimants[id].phase.Asking?
      && s.claimants[id].phase.next < |s.claimants[id].Keys()|
    case Undo(id) => id in s.claimants && s.claimants[id].phase.Undoing?
    case Release(id, key) =>
      && id in s.claimants && s.claimants[id].phase.Won?
      && Read(At(s.store, key), s.now) == Some(id)
  }

  function Advanced(c: Claimant, next: nat): Phase {
    if next + 1 < |c.Keys()| then Taking(next + 1) else Won
  }

  function With(s: System, id: string, c: Claimant): System {
    s.(claimants := s.claimants[id := c])
  }

  function Tried(s: System, id: string): System
    requires Enabled(s, SetNx(id))
  {
    var c := s.claimants[id];
    var key := c.Keys()[c.phase.next];
    if Live(At(s.store, key), s.now) then With(s, id, c.(phase := Asking(c.phase.next)))
    else With(s.(store := s.store[key := SetEx(id, s.now, Lifetime(key))]), id,
              c.(phase := Advanced(c, c.phase.next), taken := c.taken[key := s.now]))
  }

  function Asked(s: System, id: string): System
    requires Enabled(s, Get(id))
  {
    var c := s.claimants[id];
    var holder := Read(At(s.store, c.Keys()[c.phase.next]), s.now);
    With(s, id, c.(phase := if holder == Some(id) then Advanced(c, c.phase.next) else Undoing(holder)))
  }

  function Undone(s: System, id: string): System
    requires Enabled(s, Undo(id))
  {
    var c := s.claimants[id];
    With(s.(store := s.store - c.taken.Keys), id, c.(phase := Lost(c.phase.holder), taken := map[]))
  }

  function Apply(s: System, op: Op): System {
    if !Enabled(s, op) then s
    else
      match op
      case Tick(ms) => s.(now := s.now + ms)
      case Begin(id, event) => With(s, id, Claimant(event, s.now, Taking(0), map[], {}))
      case SetNx(id) => Tried(s, id)
      case Get(id) => Asked(s, id)
      case Undo(id) => Undone(s, id)
      case Release(id, key) =>
        With(s.(store := s.store - {key}), id, s.claimants[id].(released := s.claimants[id].released + {key}))
  }

  function Run(ops: seq<Op>): System {
    if ops == [] then System(0, map[], map[]) else Apply(Run(ops[..|ops| - 1]), ops[|ops| - 1])
  }

  // ---- What every run keeps ----

  predicate ClaimantInv(now: int, id: string, c: Claimant) {
    && c.began <= now
    && (forall k :: k in c.taken ==> k in c.Keys() && c.began <= c.taken[k] <= now)
    && (c.released != {} ==> c.phase.Won?)
    && (forall k :: k in c.taken && k.Fingerprint? ==> c.phase.Won?)
    && match c.phase
       case Taking(next) => next < |c.Keys()| && forall i :: 0 <= i < |c.Keys()| ==>
           (c.Keys()[i] in c.taken <==> i < next)
       case Asking(next) => next < |c.Keys()| && forall i :: 0 <= i < |c.Keys()| ==>
           (c.Keys()[i] in c.taken <==> i < next)
       case Undoing(holder) => holder != Some(id)
       case Won => forall k :: k in c.Keys() ==> k in c.taken
       case Lost(holder) => c.taken == map[] && holder != Some(id)
  }

  /** The store holds what its owner wrote when it took the key. */
  predicate Owned(s: System, k: Key) {
    var cell := At(s.store, k);
    cell.Present? ==>
      && cell.value in s.claimants && k in s.claimants[cell.value].taken
      && cell == SetEx(cell.value, s.claimants[cell.value].taken[k], Lifetime(k))
  }

  ghost predicate Inv(s: System) {
    && (forall id :: id in s.claimants ==> ClaimantInv(s.now, id, s.claimants[id]))
    && (forall k :: Owned(s, k))
  }

  lemma TookNext(now: int, id: string, c: Claimant)
    requires ClaimantInv(now, id, c) && c.phase.Taking?
    ensures var next := c.phase.next;
            ClaimantInv(now, id, c.(phase := Advanced(c, next), taken := c.taken[c.Keys()[next] := now]))
  {
  }

  lemma TriedKeepsInv(s: System, id: string)
    requires Inv(s) && Enabled(s, SetNx(id))
    ensures Inv(Tried(s, id))
  {
    var t := Tried(s, id);
    assert ClaimantInv(s.now, id, s.claimants[id]);
    TookNext(s.now, id, s.claimants[id]);
    forall x | x in t.claimants ensures ClaimantInv(t.now, x, t.claimants[x]) {
      assert ClaimantInv(s.now, x, s.claimants[x]);
    }
    forall k ensures Owned(t, k) { assert Owned(s, k); }
  }

  /** A key the claimant has not taken is never its own. */
  lemma AskedKeepsInv(s: System, id: string)
    requires Inv(s) && Enabled(s, Get(id))
    ensures Inv(Asked(s, id)) && Asked(s, id).claimants[id].phase.Undoing?
  {
    var t, c := Asked(s, id), s.claimants[id];
    var key := c.Keys()[c.phase.next];
    assert ClaimantInv(s.now, id, c) && Owned(s, key);
    assert key !in c.taken;
    forall x | x in t.claimants ensures ClaimantInv(t.now, x, t.claimants[x]) {
      assert ClaimantInv(s.now, x, s.claimants[x]);
    }
    forall k ensures Owned(t, k) { assert Owned(s, k); }
  }

  lemma UndoneKeepsInv(s: System, id: string)
    requires Inv(s) && Enabled(s, Undo(id))
    ensures Inv(Undone(s, id))
  {
    var t := Undone(s, id);
    forall x | x in t.claimants ensures ClaimantInv(t.now, x, t.claimants[x]) {
      assert ClaimantInv(s.now, x, s.claimants[x]);
    }
    forall k ensures Owned(t, k) { assert Owned(s, k); }
  }

  lemma InvKept(s: System, op: Op)
    requires Inv(s)
    ensures Inv(Apply(s, op))
  {
    if Enabled(s, op) {
      match op {
        case SetNx(id) => TriedKeepsInv(s, id);
        case Get(id) => AskedKeepsInv(s, id);
        case Undo(id) => UndoneKeepsInv(s, id);
        case _ =>
          var t := Apply(s, op);
          forall x | x in t.claimants ensures ClaimantInv(t.now, x, t.claimants[x]) {
            if x in s.claimants { assert ClaimantInv(s.now, x, s.claimants[x]); }
          }
          forall k ensures Owned(t, k) { assert Owned(s, k); }
      }
    }
  }

  lemma {:induction false} InvHolds(ops: seq<Op>)
    ensures Inv(Run(ops))
  {
    if ops != [] {
      InvHolds(ops[..|ops| - 1]);
      InvKept(Run(ops[..|ops| - 1]), ops[|ops| - 1]);
    }
  }

  // ---- Two winners of one key ----

  /** `id` has won, and its claim on `key` has been neither released nor outlived. */
  predicate Holds(s: System, id: string, key: Key) {
    && id in s.claimants && s.claimants[id].phase.Won?
    && key in s.claimants[id].taken && key !in s.claimants[id].released
    && s.now < s.claimants[id].taken[key] + Lifetime(key)
  }

  /** No claim takes so long that what it gives back has already died. */
  predicate Prompt(s: System, op: Op) {
    op.Undo? && Enabled(s, op) ==>
      forall k :: k in s.claimants[op.id].taken ==> s.now < s.claimants[op.id].taken[k] + Lifetime(k)
  }

  ghost predicate PromptRun(ops: seq<Op>) {
    forall i {:trigger Run(ops[..i])} :: 0 <= i < |ops| ==> Prompt(Run(ops[..i]), ops[i])
  }

  /** While a taken key lives and is not released, it is in the store under its taker. */
  predicate Kept(s: System, id: string, key: Key)
    requires id in s.claimants
  {
    var c := s.claimants[id];
    key in c.taken && key !in c.released && s.now < c.taken[key] + Lifetime(key) ==>
      At(s.store, key) == SetEx(id, c.taken[key], Lifetime(key))
  }

  ghost predicate AllKept(s: System) {
    forall id, k :: id in s.claimants ==> Kept(s, id, k)
  }

  lemma KeptByTry(s: System, other: string, id: string, key: Key)
    requires Enabled(s, SetNx(other)) && id in s.claimants && Kept(s, id, key)
    ensures Kept(Tried(s, other), id, key)
  {
  }

  lemma KeptByUndo(s: System, other: string, id: string, key: Key)
    requires Enabled(s, Undo(other)) && Prompt(s, Undo(other))
    requires id in s.claimants && Kept(s, id, key) && Kept(s, other, key)
    requires s.claimants[other].released == {}
    ensures Kept(Undone(s, other), id, key)
  {
  }

  lemma KeptStep(s: System, op: Op, id: string, key: Key)
    requires Inv(s) && AllKept(s) && Prompt(s, op) && Enabled(s, op) && id in Apply(s, op).claimants
    ensures Kept(Apply(s, op), id, key)
  {
    if id in s.claimants {
      assert Kept(s, id, key);
      match op {
        case SetNx(other) => KeptByTry(s, other, id, key);
        case Undo(other) =>
          assert Kept(s, other, key) && ClaimantInv(s.now, other, s.claimants[other]);
          KeptByUndo(s, other, id, key);
        case _ =>
      }
    }
  }

  lemma {:induction false} KeptHolds(ops: seq<Op>)
    requires PromptRun(ops)
    ensures AllKept(Run(ops))
  {
    if ops != [] {
      var before := ops[..|ops| - 1];
      forall i | 0 <= i < |before| ensures Prompt(Run(before[..i]), before[i]) {
        assert before[..i] == ops[..i];
      }
      KeptHolds(before);
      InvHolds(before);
      assert Prompt(Run(ops[..|ops| - 1]), ops[|ops| - 1]);
      if Enabled(Run(before), ops[|ops| - 1]) {
        forall id, k | id in Run(ops).claimants ensures Kept(Run(ops), id, k) {
          KeptStep(Run(before), ops[|ops| - 1], id, k);
        }
      }
    }
  }

  /** Two winners never hold the same key: one has given it back or outlived it. */
  lemma WinnersShareNoKey(ops: seq<Op>, a: string, b: string, key: Key)
    requires PromptRun(ops) && Holds(Run(ops), a, key) && Holds(Run(ops), b, key)
    ensures a == b
  {
    KeptHolds(ops);
    assert Kept(Run(ops), a, key) && Kept(Run(ops), b, key);
  }

  /** A claimant that was told "duplicate" leaves no key behind, and is never told its own id. */
  lemma DuplicateLeavesNothing(ops: seq<Op>, id: string)
    requires id in Run(ops).claimants && Run(ops).claimants[id].phase.Lost?
    ensures forall k :: At(Run(ops).store, k).Present? ==> At(Run(ops).store, k).value != id
    ensures Run(ops).claimants[id].phase.holder != Some(id)
  {
    InvHolds(ops);
    var s := Run(ops);
    assert ClaimantInv(s.now, id, s.claimants[id]);
    forall k | At(s.store, k).Present? ensures At(s.store, k).value != id {
      assert Owned(s, k);
    }
  }

  /** Ingestion stops only when it is given the id of the original (src/events/events.service.ts:90). */
  predicate Proceeds(c: Claimant) {
    c.phase.Won? || c.phase == Lost(None)
  }

  /** So two events that share a live key both go ahead only if one of them was refused
      by a holder that had vanished by the time it asked for its name. */
  lemma BothProceedOnlyPastVanishedHolder(ops: seq<Op>, a: string, b: string, key: Key)
    requires PromptRun(ops)
    requires var s := Run(ops);
             && a != b && a in s.claimants && b in s.claimants
             && Proceeds(s.claimants[a]) && Proceeds(s.claimants[b])
             && (s.claimants[a].phase.Won? ==> Holds(s, a, key)) && (s.claimants[b].phase.Won? ==> Holds(s, b, key))
    ensures Run(ops).claimants[a].phase == Lost(None) || Run(ops).claimants[b].phase == Lost(None)
  {
    if Run(ops).claimants[a].phase.Won? && Run(ops).claimants[b].phase.Won? {
      WinnersShareNoKey(ops, a, b, key);
    }
  }

  // ---- Successes per bucket, without release ----

  /** No fingerprint a claimant wants dies between the start of its claim and its SET NX. */
  predicate Timely(s: System, op: Op) {
    op.SetNx? && Enabled(s, op) ==>
      var c := s.claimants[op.id];
      var key := c.Keys()[c.phase.next];
      key.Fingerprint? && At(s.store, key).Present? && !Live(At(s.store, key), s.now) ==>
          !Live(At(s.store, key), c.began)
  }

  ghost predicate TimelyRun(ops: seq<Op>) {
    forall i {:trigger Run(ops[..i])} :: 0 <= i < |ops| ==> Timely(Run(ops[..i]), ops[i]) && !ops[i].Release?
  }

  /** A fingerprint, once taken, stays in the store under its taker, even past its life. */
  predicate Marked(s: System, id: string, key: Key)
    requires id in s.claimants
  {
    key in s.claimants[id].taken && key.Fingerprint? ==>
      At(s.store, key) == SetEx(id, s.claimants[id].taken[key], BUCKET)
  }

  ghost predicate AllMarked(s: System) {
    forall id, k :: id in s.claimants ==> Marked(s, id, k)
  }

  /** Whoever wants the fingerprint of a bucket began before any holder's claim on it dies. */
  lemma BucketOutlasts(c: Claimant, d: Claimant, key: Key)
    requires key in c.Keys() && key in d.Keys() && key.Fingerprint?
    ensures d.began < c.began + BUCKET
  {
  }

  lemma MarkedStep(s: System, op: Op, id: string, key: Key)
    requires Inv(s) && AllMarked(s) && Timely(s, op) && Enabled(s, op) && !op.Release? && id in Apply(s, op).claimants
    ensures Marked(Apply(s, op), id, key)
  {
    if id in s.claimants {
      assert Marked(s, id, key) && ClaimantInv(s.now, id, s.claimants[id]);
      if op.SetNx? {
        var d := s.claimants[op.id];
        assert ClaimantInv(s.now, op.id, d);
        if key in s.claimants[id].taken && key.Fingerprint? && key == d.Keys()[d.phase.next] {
          BucketOutlasts(s.claimants[id], d, key);
        }
      } else if op.Undo? {
        assert ClaimantInv(s.now, op.id, s.claimants[op.id]);
      }
    }
  }

  lemma {:induction false} MarkedHolds(ops: seq<Op>)
    requires TimelyRun(ops)
    ensures AllMarked(Run(ops))
  {
    if ops != [] {
      var before := ops[..|ops| - 1];
      forall i | 0 <= i < |before| ensures Timely(Run(before[..i]), before[i]) && !before[i].Release? {
        assert before[..i] == ops[..i];
      }
      MarkedHolds(before);
      InvHolds(before);
      assert Timely(Run(ops[..|ops| - 1]), ops[|ops| - 1]);
      if Enabled(Run(before), ops[|ops| - 1]) {
        forall id, k | id in Run(ops).claimants ensures Marked(Run(ops), id, k) {
          MarkedStep(Run(before), ops[|ops| - 1], id, k);
        }
      }
    }
  }

  /** One event type and entity succeeds at most once per 5-minute bucket. */
  lemma OncePerBucket(ops: seq<Op>, a: string, b: string)
    requires TimelyRun(ops) && a in Run(ops).claimants && b in Run(ops).claimants
    requires Run(ops).claimants[a].phase.Won? && Run(ops).claimants[b].phase.Won?
    requires Run(ops).claimants[a].OwnKey() == Run(ops).claimants[b].OwnKey()
    ensures a == b
  {
    InvHolds(ops);
    MarkedHolds(ops);
    var s := Run(ops);
    var key := s.claimants[a].OwnKey();
    assert ClaimantInv(s.now, a, s.claimants[a]) && ClaimantInv(s.now, b, s.claimants[b]);
    assert s.claimants[a].Keys()[|s.claimants[a].Keys()| - 1] == key;
    assert s.claimants[b].Keys()[|s.claimants[b].Keys()| - 1] == key;
    assert Marked(s, a, key) && Marked(s, b, key);
  }

  predicate Succeeded(s: System, id: string, eventType: string, entity: string) {
    && id in s.claimants && s.claimants[id].phase.Won?
    && s.claimants[id].event.eventType == eventType && s.claimants[id].event.entity == entity
  }

  /** The claims on an event that began in [from, until) and succeeded. */
  function Successes(s: System, eventType: string, entity: string, from: int, until: int): set<string> {
    set id | id in s.claimants && Succeeded(s, id, eventType, entity) && from <= s.claimants[id].began < until
  }

  function InBucket(s: System, ids: set<string>, bucket: int): set<string> {
    set id | id in ids && id in s.claimants && BucketOf(s.claimants[id].began) == bucket
  }

  lemma OneInBucket(ops: seq<Op>, ids: set<string>, eventType: string, entity: string, bucket: int)
    requires TimelyRun(ops) && forall id :: id in ids ==> Succeeded(Run(ops), id, eventType, entity)
    ensures |InBucket(Run(ops), ids, bucket)| <= 1
  {
    var one := InBucket(Run(ops), ids, bucket);
    forall a, b | a in one && b in one ensures a == b { OncePerBucket(ops, a, b); }
    AtMostOne(one);
  }

  /** And at most twice among the claims that begin in any five minutes. */
  lemma TwiceInFiveMinutes(ops: seq<Op>, eventType: string, entity: string, from: int)
    requires TimelyRun(ops)
    ensures |Successes(Run(ops), eventType, entity, from, from + 300_000)| <= 2
  {
    var s := Run(ops);
    var ids := Successes(s, eventType, entity, from, from + BUCKET);
    var first, second := InBucket(s, ids, BucketOf(from)), InBucket(s, ids, BucketOf(from) + 1);
    OneInBucket(ops, ids, eventType, entity, BucketOf(from));
    OneInBucket(ops, ids, eventType, entity, BucketOf(from) + 1);
    assert ids == first + second;
  }

  /** The successes of [from, from + 5 minutes) by the instant the fingerprint was taken. */
  function Completions(s: System, eventType: string, entity: string, from: int): set<string> {
    set id | id in s.claimants && Succeeded(s, id, eventType, entity)
             && s.claimants[id].OwnKey() in s.claimants[id].taken
             && from <= s.claimants[id].taken[s.claimants[id].OwnKey()] < from + BUCKET
  }

  lemma ThreeBuckets(s: System, ids: set<string>, b: int)
    requires forall id :: id in ids ==> id in s.claimants && b - 1 <= BucketOf(s.claimants[id].began) <= b + 1
    ensures |ids| <= |InBucket(s, ids, b - 1)| + |InBucket(s, ids, b)| + |InBucket(s, ids, b + 1)|
  {
    assert ids == InBucket(s, ids, b - 1) + InBucket(s, ids, b) + InBucket(s, ids, b + 1);
  }

  lemma BeganNearby(c: Claimant, from: int)
    requires var key := c.OwnKey();
             key in c.taken && c.began <= c.taken[key] < c.began + BUCKET && from <= c.taken[key] < from + BUCKET
    ensures BucketOf(from) - 1 <= BucketOf(c.began) <= BucketOf(from) + 1
  {
  }

  /** The claim did not take five minutes to set its fingerprint. */
  predicate Quick(c: Claimant) {
    c.OwnKey() in c.taken ==> c.taken[c.OwnKey()] < c.began + BUCKET
  }

  /** Counted by completion it can be three, and if no claim takes five minutes it is no more. */
  lemma ThriceByCompletion(ops: seq<Op>, eventType: string, entity: string, from: int)
    requires TimelyRun(ops)
    requires forall id :: id in Run(ops).claimants ==> Quick(Run(ops).claimants[id])
    ensures |Completions(Run(ops), eventType, entity, from)| <= 3
  {
    var s := Run(ops);
    InvHolds(ops);
    var ids := Completions(s, eventType, entity, from);
    var b := BucketOf(from);
    OneInBucket(ops, ids, eventType, entity, b - 1);
    OneInBucket(ops, ids, eventType, entity, b);
    OneInBucket(ops, ids, eventType, entity, b + 1);
    forall id | id in ids ensures b - 1 <= BucketOf(s.claimants[id].began) <= b + 1 {
      assert ClaimantInv(s.now, id, s.claimants[id]);
      BeganNearby(s.claimants[id], from);
    }
    ThreeBuckets(s, ids, b);
  }

  predicate TakenByOther(s: System, id: string, key: Key) {
    exists x :: x in s.claimants && x != id && key in s.claimants[x].taken
  }

  /** The condition is exact, step by step: the SET NX of a fingerprint makes a second winner
      of its bucket exactly if the key died since the claim began. */
  lemma SecondWinnerIff(ops: seq<Op>, id: string)
    requires TimelyRun(ops) && Enabled(Run(ops), SetNx(id))
    requires var c := Run(ops).claimants[id]; c.phase.next == |c.Keys()| - 1
    ensures var s, key := Run(ops), Run(ops).claimants[id].OwnKey();
            (Tried(s, id).claimants[id].phase.Won? && TakenByOther(s, id, key))
            <==> !Timely(s, SetNx(id))
  {
    var s := Run(ops);
    var c := s.claimants[id];
    var key := c.OwnKey();
    InvHolds(ops);
    MarkedHolds(ops);
    assert ClaimantInv(s.now, id, c) && Owned(s, key) && key !in c.taken;
    if x :| x != id && x in s.claimants && key in s.claimants[x].taken {
      assert Marked(s, x, key) && ClaimantInv(s.now, x, s.claimants[x]);
      BucketOutlasts(s.claimants[x], c, key);
    }
  }

  // ---- Concrete runs ----

  const EVENT := Event(None, "TXNX-004", "user")

  function MarkOf(began: int): Key {
    Fingerprint("TXNX-004", "user", BucketOf(began))
  }

  function Winner(began: int, taken: int): Claimant {
    Claimant(EVENT, began, Won, map[MarkOf(began) := taken], {})
  }

  function Fresh(began: int): Claimant {
    Claimant(EVENT, began, Taking(0), map[], {})
  }

  lemma Extend(ops: seq<Op>, s: System, op: Op) returns (longer: seq<Op>)
    requires s == Run(ops)
    ensures longer == ops + [op] && Run(longer) == Apply(s, op)
  {
    longer := ops + [op];
    assert longer[..|ops|] == ops;
  }

  /** A claim and its one SET NX, `delay` apart, on a key nobody holds. */
  lemma ClaimedAlone(before: seq<Op>, s: System, id: string, delay: nat) returns (ops: seq<Op>)
    requires s == Run(before) && id !in s.claimants && !Live(At(s.store, MarkOf(s.now)), s.now + delay)
    ensures var key := MarkOf(s.now);
            Run(ops) == System(s.now + delay, s.store[key := SetEx(id, s.now + delay, BUCKET)],
                               s.claimants[id := Winner(s.now, s.now + delay)])
  {
    var began := s.(claimants := s.claimants[id := Fresh(s.now)]);
    ops := Extend(before, s, Begin(id, EVENT));
    ops := Extend(ops, began, Tick(delay));
    ops := Extend(ops, began.(now := s.now + delay), SetNx(id));
    assert Run(ops).claimants == s.claimants[id := Winner(s.now, s.now + delay)];
  }

  /** A fingerprint computed one millisecond before its bucket ends, and set two later, finds
      the first claim of the bucket dead: both succeed. */
  lemma LateClaimWinsToo(a: string, b: string) returns (ops: seq<Op>)
    requires a != b
    ensures var s := Run(ops);
            && a in s.claimants && b in s.claimants
            && s.claimants[a] == Winner(0, 0) && s.claimants[b] == Winner(299_999, 300_001)
            && s.claimants[a].OwnKey() == s.claimants[b].OwnKey()
  {
    ops := ClaimedAlone([], System(0, map[], map[]), a, 0);
    var s := System(0, map[MarkOf(0) := SetEx(a, 0, BUCKET)], map[a := Winner(0, 0)]);
    ops := Extend(ops, s, Tick(299_999));
    ops := ClaimedAlone(ops, s.(now := 299_999), b, 2);
  }

  /** Three completions within five minutes, of claims that each take two milliseconds at most. */
  lemma ThreeCompletions(a: string, b: string, c: string) returns (ops: seq<Op>)
    requires a != b && a != c && b != c
    ensures {a, b, c} <= Completions(Run(ops), "TXNX-004", "user", 300_001)
  {
    ops := Extend([], System(0, map[], map[]), Tick(299_999));
    ops := ClaimedAlone(ops, System(299_999, map[], map[]), a, 2);
    var s := System(300_001, map[MarkOf(299_999) := SetEx(a, 300_001, BUCKET)], map[a := Winner(299_999, 300_001)]);
    ops := ClaimedAlone(ops, s, b, 0);
    var t := System(300_001, s.store[MarkOf(300_001) := SetEx(b, 300_001, BUCKET)],
        s.claimants[b := Winner(300_001, 300_001)]);
    ops := Extend(ops, t, Tick(299_999));
    ops := ClaimedAlone(ops, t.(now := 600_000), c, 0);
    assert Run(ops).claimants == t.claimants[c := Winner(600_000, 600_000)];
  }

  /** b's SET NX fails because a holds the key; a gives it back; b's GET finds nobody. */
  lemma AskedTooLate(a: string, b: string) returns (ops: seq<Op>)
    requires a != b
    ensures Run(ops) == System(0, map[],
        map[a := Winner(0, 0).(released := {MarkOf(0)}), b := Fresh(0).(phase := Lost(None))])
  {
    var held := map[MarkOf(0) := SetEx(a, 0, BUCKET)];
    var gone := Winner(0, 0).(released := {MarkOf(0)});
    assert held - {MarkOf(0)} == map[] && {} + {MarkOf(0)} == {MarkOf(0)};
    ops := ClaimedAlone([], System(0, map[], map[]), a, 0);
    ops := Extend(ops, System(0, held, map[a := Winner(0, 0)]), Begin(b, EVENT));
    ops := Extend(ops, System(0, held, map[a := Winner(0, 0), b := Fresh(0)]), SetNx(b));
    ops := Extend(ops, System(0, held, map[a := Winner(0, 0), b := Fresh(0).(phase := Asking(0))]),
        Release(a, MarkOf(0)));
    ops := Extend(ops, System(0, map[], map[a := gone, b := Fresh(0).(phase := Asking(0))]), Get(b));
    ops := Extend(ops, System(0, map[], map[a := gone, b := Fresh(0).(phase := Undoing(None))]), Undo(b));
  }

  /** So two events of one key both go ahead: b past its vanished holder, and d after it. */
  lemma VanishedHolderLetsBothProceed(a: string, b: string, d: string) returns (ops: seq<Op>)
    requires a != b && b != d && a != d
    ensures var s := Run(ops);
            && b in s.claimants && Proceeds(s.claimants[b]) && s.claimants[b].OwnKey() == MarkOf(0)
            && Holds(s, d, MarkOf(0))
  {
    ops := AskedTooLate(a, b);
    ops := ClaimedAlone(ops, Run(ops), d, 0);
  }
}
