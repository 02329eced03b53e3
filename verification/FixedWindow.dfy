/** What a counter that is created by its first hit and dies a fixed time later
    can promise about a rolling window. */
module FixedWindow {
  import opened Redis
  import opened Sets

  /** One increment. A `checked` hit was let through only because the counter was below its cap. */
  datatype Hit = Hit(time: int, checked: bool)

  /** The counter after the first `n` hits. */
  function Replay(h: seq<Hit>, window: int, n: nat): Cell<int>
    requires n <= |h|
  {
    if n == 0 then Absent else Incr(Replay(h, window, n - 1), h[n - 1].time, window)
  }

  ghost predicate Ordered(h: seq<Hit>) {
    forall i, j :: 0 <= i < j < |h| ==> h[i].time <= h[j].time
  }

  ghost predicate HitRespects(h: seq<Hit>, window: int, cap: int, i: nat)
    requires i < |h|
  {
    h[i].checked ==> Count(Replay(h, window, i), h[i].time) < cap
  }

  ghost predicate Respects(h: seq<Hit>, window: int, cap: int) {
    forall i {:trigger HitRespects(h, window, cap, i)} :: 0 <= i < |h| ==> HitRespects(h, window, cap, i)
  }

  /** The hit that created the counter which hit `i` incremented. */
  function Opener(h: seq<Hit>, window: int, i: nat): (o: nat)
    requires i < |h|
    ensures o <= i
  {
    if i == 0 then 0
    else
      var o := Opener(h, window, i - 1);
      if h[i].time >= h[o].time + window then i else o
  }

  lemma {:induction false} ReplayFromOpener(h: seq<Hit>, window: int, i: nat)
    requires window > 0 && i < |h|
    ensures var o := Opener(h, window, i);
            Replay(h, window, i + 1) == Present(i - o + 1, Some(h[o].time + window))
  {
    if i > 0 { ReplayFromOpener(h, window, i - 1); }
  }

  lemma CountBefore(h: seq<Hit>, window: int, i: nat)
    requires window > 0 && i < |h|
    ensures Count(Replay(h, window, i), h[i].time) == i - Opener(h, window, i)
  {
    if i > 0 { ReplayFromOpener(h, window, i - 1); }
  }

  lemma {:induction false} SameOpener(h: seq<Hit>, window: int, k: nat, p: nat)
    requires window > 0 && p < |h| && Opener(h, window, p) <= k <= p
    ensures Opener(h, window, k) == Opener(h, window, p)
    decreases p
  {
    if k < p { SameOpener(h, window, k, p - 1); }
  }

  lemma {:induction false} ReplayPrefix(h: seq<Hit>, more: seq<Hit>, window: int, n: nat)
    requires n <= |h|
    ensures Replay(h + more, window, n) == Replay(h, window, n)
  {
    if n > 0 { ReplayPrefix(h, more, window, n - 1); }
  }

  lemma AppendHit(h: seq<Hit>, hit: Hit, window: int, cap: int)
    requires Ordered(h) && Respects(h, window, cap)
    requires h != [] ==> h[|h| - 1].time <= hit.time
    requires hit.checked ==> Count(Replay(h, window, |h|), hit.time) < cap
    ensures Ordered(h + [hit]) && Respects(h + [hit], window, cap)
    ensures Replay(h + [hit], window, |h| + 1) == Incr(Replay(h, window, |h|), hit.time, window)
  {
    forall i | 0 <= i < |h| + 1 ensures HitRespects(h + [hit], window, cap, i) {
      ReplayPrefix(h, [hit], window, i);
      if i < |h| { assert HitRespects(h, window, cap, i); }
    }
    ReplayPrefix(h, [hit], window, |h|);
  }

  ghost function CheckedIn(h: seq<Hit>, from: int, until: int): set<int> {
    set i | 0 <= i < |h| && h[i].checked && from <= h[i].time < until
  }

  ghost function CheckedOf(h: seq<Hit>, window: int, opener: int): set<int> {
    set i | 0 <= i < |h| && h[i].checked && Opener(h, window, i) == opener
  }

  /** The last hit before `until`, given that there is one. */
  lemma {:induction false} LastBefore(h: seq<Hit>, until: int, some: nat, n: nat) returns (l: nat)
    requires Ordered(h) && some < n <= |h| && h[some].time < until
    requires forall i :: n <= i < |h| ==> h[i].time >= until
    ensures some <= l < |h| && h[l].time < until
    ensures forall i :: l < i < |h| ==> h[i].time >= until
    decreases n
  {
    if h[n - 1].time < until { l := n - 1; } else { l := LastBefore(h, until, some, n - 1); }
  }

  /** A counter admits at most `cap` checked hits between its creation and its expiry. */
  lemma LifetimeBound(h: seq<Hit>, window: int, cap: nat, opener: nat)
    requires window > 0 && Respects(h, window, cap)
    ensures |CheckedOf(h, window, opener)| <= cap
  {
    forall i | i in CheckedOf(h, window, opener) ensures i in Range(opener, opener + cap) {
      assert HitRespects(h, window, cap, i);
      CountBefore(h, window, i);
    }
    SubsetSize(CheckedOf(h, window, opener), Range(opener, opener + cap));
  }

  /** The hits that can be checked hits of an interval whose last hit is `l`:
      those of the counter `l` fell on, and those of the counter before it, whose
      own first hit lies outside the interval. */
  ghost function Slots(h: seq<Hit>, window: int, cap: int, l: nat): (slots: set<int>)
    requires cap >= 1 && l < |h|
    ensures |slots| <= 2 * cap - 1
  {
    var second := Opener(h, window, l);
    var later := Range(second, second + cap);
    if second == 0 then later
    else
      var first := Opener(h, window, second - 1);
      Range(first + 1, first + cap) + later
  }

  lemma HitHasSlot(h: seq<Hit>, window: int, cap: int, from: int, l: nat, k: nat)
    requires window > 0 && cap >= 1 && Ordered(h) && Respects(h, window, cap)
    requires k <= l < |h| && h[l].time < from + window
    requires h[k].checked && from <= h[k].time
    ensures k in Slots(h, window, cap, l)
  {
    if Opener(h, window, l) <= k {
      SlotOfLater(h, window, cap, l, k);
    } else {
      SlotOfEarlier(h, window, cap, from, l, k);
    }
    InSlots(h, window, cap, l, k);
  }

  lemma InSlots(h: seq<Hit>, window: int, cap: int, l: nat, k: nat)
    requires cap >= 1 && l < |h|
    requires || Opener(h, window, l) <= k < Opener(h, window, l) + cap
             || (k < Opener(h, window, l) && (var first := Opener(h, window, Opener(h, window, l) - 1);
                                              first < k < first + cap))
    ensures k in Slots(h, window, cap, l)
  {
  }

  lemma SlotOfLater(h: seq<Hit>, window: int, cap: int, l: nat, k: nat)
    requires window > 0 && cap >= 1 && Respects(h, window, cap)
    requires k <= l < |h| && Opener(h, window, l) <= k && h[k].checked
    ensures k < Opener(h, window, l) + cap
  {
    assert HitRespects(h, window, cap, k);
    CountBefore(h, window, k);
    SameOpener(h, window, k, l);
  }

  lemma SlotOfEarlier(h: seq<Hit>, window: int, cap: int, from: int, l: nat, k: nat)
    requires window > 0 && cap >= 1 && Ordered(h) && Respects(h, window, cap)
    requires l < |h| && k < Opener(h, window, l) && h[l].time < from + window
    requires h[k].checked && from <= h[k].time
    ensures var first := Opener(h, window, Opener(h, window, l) - 1); first < k < first + cap
  {
    var second := Opener(h, window, l);
    var first := Opener(h, window, second - 1);
    assert HitRespects(h, window, cap, k);
    CountBefore(h, window, k);
    SecondOpens(h, window, l);
    assert h[second].time <= h[l].time;
    assert h[first].time < from;
    SameOpener(h, window, k, second - 1);
  }

  /** Any half-open interval as long as the window holds at most 2 * cap - 1 of them. */
  lemma RollingBound(h: seq<Hit>, window: int, cap: int, from: int)
    requires window > 0 && cap >= 1 && Ordered(h) && Respects(h, window, cap)
    ensures |CheckedIn(h, from, from + window)| <= 2 * cap - 1
  {
    var s := CheckedIn(h, from, from + window);
    if some :| some in s {
      var l := LastBefore(h, from + window, some, |h|);
      var slots := Slots(h, window, cap, l);
      forall k | k in s ensures k in slots {
        HitHasSlot(h, window, cap, from, l, k);
      }
      SubsetSize(s, slots);
    }
  }

  lemma {:induction false} SecondOpens(h: seq<Hit>, window: int, l: nat)
    requires window > 0 && l < |h| && Opener(h, window, l) > 0
    ensures var o := Opener(h, window, l);
            h[o].time >= h[Opener(h, window, o - 1)].time + window
    decreases l
  {
    if Opener(h, window, l) != l { SecondOpens(h, window, l - 1); }
  }

  /** One hit opens the counter, the rest of the first cap comes just before it
      dies, and the whole of the next cap comes the moment it has died. */
  function Burst(window: int, cap: nat): seq<Hit> {
    seq(2 * cap, i requires 0 <= i < 2 * cap =>
      Hit(if i == 0 then 0 else if i < cap then window - 1 else window, true))
  }

  lemma {:induction false} BurstOpener(window: int, cap: nat, i: nat)
    requires window >= 2 && i < 2 * cap
    ensures Opener(Burst(window, cap), window, i) == if i < cap then 0 else cap
  {
    if i > 0 { BurstOpener(window, cap, i - 1); }
  }

  lemma BurstRespects(window: int, cap: int)
    requires window >= 2 && cap >= 1
    ensures Respects(Burst(window, cap), window, cap)
  {
    var h := Burst(window, cap);
    forall i | 0 <= i < |h| ensures HitRespects(h, window, cap, i) {
      CountBefore(h, window, i);
      BurstOpener(window, cap, i);
    }
  }

  /** The bound cannot be improved: the burst respects the cap and reaches it. */
  lemma BoundIsReached(window: int, cap: int)
    requires window >= 2 && cap >= 1
    ensures var h := Burst(window, cap);
            && Ordered(h) && Respects(h, window, cap)
            && |CheckedIn(h, window - 1, 2 * window - 1)| == 2 * cap - 1
  {
    BurstRespects(window, cap);
    assert CheckedIn(Burst(window, cap), window - 1, 2 * window - 1) == Range(1, 2 * cap);
  }
}
