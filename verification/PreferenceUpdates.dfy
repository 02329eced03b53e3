/** What an update stores, and that resolving follows the latest one
    (src/preferences/preferences.service.ts, src/preferences/preference-resolver.service.ts). */
module PreferenceUpdates {
  import opened Redis
  import opened Events
  import opened Preferences

  // ---- What the stored rows decide ----

  predicate AnyRow(rows: seq<Row>, key: string) {
    exists r :: r in rows && RowKey(r) == key
  }

  /** Rows of the event type, if there are any, stand before those of its category. */
  function Governing(rows: seq<Row>, e: EventType): string {
    if AnyRow(rows, EventName(e)) then EventName(e) else CategoryName(e.category)
  }

  predicate IsDefault(c: Channel, e: EventType, account: AccountType) {
    c in SystemDefaults(e.category) || (c == WhatsApp && account in {Premium, Hni})
  }

  lemma SegmentAddsWhatsApp(c: Channel, e: EventType, account: AccountType)
    ensures c in SegmentChannels(e, account) <==> IsDefault(c, e, account)
  {
    DedupeKeepsElements(SystemDefaults(e.category) + [WhatsApp]);
  }

  /** The row of the governing key decides about its channel; a channel without one is on
      exactly if it is a default, which WhatsApp is for premium and HNI users. */
  lemma RowsDecide(rows: seq<Row>, e: EventType, account: AccountType, c: Channel)
    requires Consistent(rows) && c in ALL_CHANNELS
    ensures var key, wanted := Governing(rows, e), c in Channels(Load(rows), e, account);
            && (c in RegulatoryChannels(e) ==> wanted)
            && (c !in RegulatoryChannels(e) ==>
                  && (FromRow(rows, key, c, true) ==> wanted)
                  && (FromRow(rows, key, c, false) ==> !wanted)
                  && (!FromRow(rows, key, c, true) && !FromRow(rows, key, c, false) ==>
                        (wanted <==> IsDefault(c, e, account))))
  {
    LoadReflectsRows(rows, EventName(e), c);
    LoadReflectsRows(rows, CategoryName(e.category), c);
    LayersCombine(Load(rows), e, account);
    SegmentAddsWhatsApp(c, e, account);
  }

  /** The digest mode is that of the category's own rows, whatever the event type's say. */
  lemma CategoryRowsSetMode(rows: seq<Row>, e: EventType, r: Row)
    requires Consistent(rows) && r in rows && RowKey(r) == CategoryName(e.category)
    ensures DigestFor(Load(rows), e) == r.digest
  {
    LoadReflectsRows(rows, CategoryName(e.category), Sms);
  }

  // ---- What one update stores ----

  predicate RowOf(r: Row, category: string, c: Channel) {
    r.category == category && r.channel == c
  }

  ghost predicate HasRow(rows: seq<Row>, category: string, c: Channel) {
    exists r :: r in rows && RowOf(r, category, c)
  }

  /** A channel the update does not name is switched on, and without a mode digests are off. */
  predicate Wants(u: Update, c: Channel) {
    c in u.channels ==> u.channels[c]
  }

  predicate Agrees(r: Row, u: Update) {
    (r.enabled <==> Wants(u, r.channel)) && r.digest == match u.digest case Some(mode) => mode case None => Immediate
  }

  /** Every channel has a row of the update's category, and all of them say what it says. */
  ghost predicate Follows(rows: seq<Row>, u: Update) {
    && (forall c :: c in ALL_CHANNELS ==> HasRow(rows, u.category, c))
    && (forall r :: r in rows && r.category == u.category ==> Agrees(r, u))
  }

  predicate Elsewhere(x: Row, r: Row) {
    !RowOf(x, r.category, r.channel)
  }

  /** `x` is the row that an upsert of `r` leaves in place of what was there. */
  ghost predicate Replaces(x: Row, rows: seq<Row>, r: Row) {
    || (x == r && forall y :: y in rows ==> Elsewhere(y, r))
    || exists y :: y in rows && !Elsewhere(y, r) && x == y.(enabled := r.enabled, digest := r.digest)
  }

  lemma {:induction false} UpsertElements(rows: seq<Row>, r: Row, x: Row)
    requires Stored(rows)
    ensures x in Upsert(rows, r) <==> (x in rows && Elsewhere(x, r)) || Replaces(x, rows, r)
  {
    if rows != [] {
      assert rows == [rows[0]] + rows[1..];
      if Elsewhere(rows[0], r) {
        UpsertElements(rows[1..], r, x);
        assert Replaces(x, rows, r) <==> Replaces(x, rows[1..], r);
      } else {
        assert rows[0] in rows;
        forall y | y in rows[1..] ensures Elsewhere(y, r) {
          var k :| 0 <= k < |rows[1..]| && rows[1..][k] == y;
          assert rows[k + 1] == y;
        }
      }
    }
  }

  /** The event type of a row is the one its first update named. */
  ghost predicate KeepsType(x: Row, rows: seq<Row>, u: Update) {
    || (exists y :: y in rows && RowOf(y, u.category, x.channel) && x.eventType == y.eventType)
    || ((forall y :: y in rows ==> !RowOf(y, u.category, x.channel)) && x.eventType == u.eventType)
  }

  /** The rows after the first `n` channels of an update. */
  ghost predicate Done(rows: seq<Row>, after: seq<Row>, u: Update, n: nat)
    requires n <= |ALL_CHANNELS|
  {
    && Stored(after)
    && (forall c :: c in ALL_CHANNELS[..n] ==> HasRow(after, u.category, c))
    && (forall r :: r in after && r.category == u.category && r.channel in ALL_CHANNELS[..n] ==>
          Agrees(r, u) && KeepsType(r, rows, u))
    && (forall r: Row :: !(r.category == u.category && r.channel in ALL_CHANNELS[..n]) ==> (r in after <==> r in rows))
  }

  /** One upsert sets one channel of the category. */
  ghost predicate OneSet(before: seq<Row>, after: seq<Row>, u: Update, c: Channel) {
    && Stored(after)
    && (HasRow(after, u.category, c))
    && (forall r :: r in after && RowOf(r, u.category, c) ==> Agrees(r, u) && KeepsType(r, before, u))
    && (forall r: Row :: !RowOf(r, u.category, c) ==> (r in after <==> r in before))
  }

  lemma UpsertSetsOne(before: seq<Row>, u: Update, c: Channel)
    requires Stored(before) && c in ALL_CHANNELS
    ensures OneSet(before, Upsert(before, NewRow(u, c)), u, c)
  {
    var r := NewRow(u, c);
    var after := Upsert(before, r);
    UpsertKeepsStored(before, r);
    forall x ensures x in after <==> (x in before && Elsewhere(x, r)) || Replaces(x, before, r) {
      UpsertElements(before, r, x);
    }
    if y :| y in before && RowOf(y, u.category, c) {
      assert Replaces(y.(enabled := r.enabled, digest := r.digest), before, r);
    } else {
      assert Replaces(r, before, r);
    }
    forall x | x in after && RowOf(x, u.category, c) ensures Agrees(x, u) && KeepsType(x, before, u) {
      assert Replaces(x, before, r);
    }
  }

  lemma TypeOfUntouched(rows: seq<Row>, before: seq<Row>, u: Update, x: Row)
    requires forall r: Row :: RowOf(r, u.category, x.channel) ==> (r in before <==> r in rows)
    requires KeepsType(x, before, u)
    ensures KeepsType(x, rows, u)
  {
  }

  lemma DoneNext(rows: seq<Row>, before: seq<Row>, after: seq<Row>, u: Update, n: nat)
    requires n < |ALL_CHANNELS| && Done(rows, before, u, n) && OneSet(before, after, u, ALL_CHANNELS[n])
    ensures Done(rows, after, u, n + 1)
  {
    var c := ALL_CHANNELS[n];
    assert ALL_CHANNELS[..n + 1] == ALL_CHANNELS[..n] + [c] && c !in ALL_CHANNELS[..n];
    forall d | d in ALL_CHANNELS[..n + 1] ensures HasRow(after, u.category, d) {
      if d != c {
        var r :| r in before && RowOf(r, u.category, d);
        assert r in after;
      }
    }
    forall r | r in after && r.category == u.category && r.channel in ALL_CHANNELS[..n + 1]
      ensures Agrees(r, u) && KeepsType(r, rows, u)
    {
      if r.channel == c { TypeOfUntouched(rows, before, u, r); }
    }
  }

  lemma {:induction false} UpsertAllDone(rows: seq<Row>, u: Update, n: nat)
    requires Stored(rows) && n <= |ALL_CHANNELS|
    ensures Done(rows, UpsertAll(rows, u, n), u, n)
  {
    if n > 0 {
      UpsertAllDone(rows, u, n - 1);
      UpsertSetsOne(UpsertAll(rows, u, n - 1), u, ALL_CHANNELS[n - 1]);
      DoneNext(rows, UpsertAll(rows, u, n - 1), UpsertAll(rows, u, n), u, n - 1);
    }
  }

  /** An accepted update sets every channel of its category, new or not, and nothing else. */
  lemma UpdateTakesEffect(user: Profile, u: Update)
    requires Stored(user.rows) && !TooShort(user, u)
    ensures var after := Updated(user, u).rows;
            && Stored(after) && Follows(after, u)
            && (forall r :: r in after && r.category == u.category ==> KeepsType(r, user.rows, u))
            && (forall r: Row :: r.category != u.category ==> (r in after <==> r in user.rows))
  {
    UpsertAllDone(user.rows, u, |ALL_CHANNELS|);
    assert ALL_CHANNELS[..|ALL_CHANNELS|] == ALL_CHANNELS;
  }

  // ---- Whole runs ----

  predicate AcceptedAt(rows: seq<Row>, ops: seq<Op>, i: int) {
    0 <= i < |ops| && ops[i].Change? && !TooShort(Run(rows, ops[..i]), ops[i].update)
  }

  /** Operation `i` is the last accepted update of the category. */
  ghost predicate LastUpdate(rows: seq<Row>, ops: seq<Op>, i: int, category: string) {
    && AcceptedAt(rows, ops, i) && ops[i].update.category == category
    && forall j :: i < j < |ops| && AcceptedAt(rows, ops, j) ==> ops[j].update.category != category
  }

  lemma RowsAfter(rows: seq<Row>, ops: seq<Op>)
    requires ops != []
    ensures var before, last := Run(rows, ops[..|ops| - 1]), |ops| - 1;
            Run(rows, ops).rows ==
              if AcceptedAt(rows, ops, last) then Updated(before, ops[last].update).rows else before.rows
  {
  }

  lemma LastUpdateBefore(rows: seq<Row>, ops: seq<Op>, i: int, category: string)
    requires LastUpdate(rows, ops, i, category) && i < |ops| - 1
    ensures LastUpdate(rows, ops[..|ops| - 1], i, category)
  {
    var before := ops[..|ops| - 1];
    assert before[..i] == ops[..i];
    forall j | i < j < |before| && AcceptedAt(rows, before, j) ensures before[j].update.category != category {
      assert before[..j] == ops[..j];
      assert AcceptedAt(rows, ops, j);
    }
  }

  /** The stored rows of a category are always those of its latest update. */
  lemma {:induction false} LatestUpdateStands(rows: seq<Row>, ops: seq<Op>, i: int, category: string)
    requires Stored(rows) && LastUpdate(rows, ops, i, category)
    ensures Stored(Run(rows, ops).rows) && Follows(Run(rows, ops).rows, ops[i].update)
  {
    var last := |ops| - 1;
    var before := ops[..last];
    StaysStored(rows, before);
    RowsAfter(rows, ops);
    if i == last {
      UpdateTakesEffect(Run(rows, before), ops[i].update);
    } else {
      LastUpdateBefore(rows, ops, i, category);
      LatestUpdateStands(rows, before, i, category);
      if AcceptedAt(rows, ops, last) {
        FollowedStill(Run(rows, before), ops[last].update, ops[i].update);
      }
    }
  }

  lemma FollowedStill(user: Profile, u: Update, earlier: Update)
    requires Stored(user.rows) && Follows(user.rows, earlier)
    requires !TooShort(user, u) && u.category != earlier.category
    ensures Stored(Updated(user, u).rows) && Follows(Updated(user, u).rows, earlier)
  {
    UpdateTakesEffect(user, u);
    var after := Updated(user, u).rows;
    forall c | c in ALL_CHANNELS ensures HasRow(after, earlier.category, c) {
      var r :| r in user.rows && RowOf(r, earlier.category, c);
      assert r in after;
    }
  }

  lemma {:induction false} StaysStored(rows: seq<Row>, ops: seq<Op>)
    requires Stored(rows)
    ensures Stored(Run(rows, ops).rows)
  {
    if ops != [] {
      StaysStored(rows, ops[..|ops| - 1]);
      var op := ops[|ops| - 1];
      if AcceptedAt(rows, ops, |ops| - 1) { UpdateTakesEffect(Run(rows, ops[..|ops| - 1]), op.update); }
    }
  }

  // ---- What the resolver makes of it ----

  lemma CachedRows(rows: seq<Row>, ops: seq<Op>, now: int, queried: seq<Row>)
    requires Consistent(Run(rows, ops).rows) && IsOrder(queried, Run(rows, ops).rows)
    ensures var cache := Warmed(Run(rows, ops), now, queried).cache;
            cache.Present? && cache.value == Load(Run(rows, ops).rows)
  {
    var user := Run(rows, ops);
    CacheIsCurrent(rows, ops);
    SameElements(queried, user.rows);
    LoadIgnoresOrder(user.rows, queried);
    if Live(user.cache, now) {
      var filled :| IsOrder(filled, user.rows) && user.cache.value == Load(filled);
      SameElements(filled, user.rows);
      LoadIgnoresOrder(user.rows, filled);
    }
  }

  lemma RowFollows(rows: seq<Row>, u: Update, r: Row)
    requires Follows(rows, u) && r in rows && r.category == u.category
    ensures FromRow(rows, RowKey(r), r.channel, Wants(u, r.channel))
  {
    assert Agrees(r, u);
  }

  /** Cache or no cache, resolving follows the latest update of a category for every channel
      whose row governs the event; and for the digest mode if the row is the category's. */
  lemma ResolvingFollowsLatestUpdate(rows: seq<Row>, ops: seq<Op>, i: int, r: Row, e: EventType, account: AccountType,
                                     now: int, queried: seq<Row>)
    requires Stored(rows) && LastUpdate(rows, ops, i, r.category) && r in Run(rows, ops).rows
    requires Consistent(Run(rows, ops).rows) && RowKey(r) == Governing(Run(rows, ops).rows, e)
    requires IsOrder(queried, Run(rows, ops).rows)
    ensures var cache, u := Warmed(Run(rows, ops), now, queried).cache, ops[i].update;
            && cache.Present?
            && (r.channel in Channels(cache.value, e, account) <==>
                  r.channel in RegulatoryChannels(e) || Wants(u, r.channel))
            && (RowKey(r) == CategoryName(e.category) ==>
                  DigestFor(cache.value, e) == match u.digest case Some(mode) => mode case None => Immediate)
  {
    var after := Run(rows, ops).rows;
    LatestUpdateStands(rows, ops, i, r.category);
    CachedRows(rows, ops, now, queried);
    RowFollows(after, ops[i].update, r);
    RowsDecide(after, e, account, r.channel);
    if RowKey(r) == CategoryName(e.category) { CategoryRowsSetMode(after, e, r); }
  }

  /** No row, and no update, is about an event type, or has one's name for its category. */
  predicate Plain(rows: seq<Row>, e: EventType) {
    forall r :: r in rows ==> r.eventType.None? && r.category != EventName(e)
  }

  predicate PlainUpdates(ops: seq<Op>, e: EventType) {
    forall op :: op in ops && op.Change? ==> op.update.eventType.None? && op.update.category != EventName(e)
  }

  lemma {:induction false} RowsStayPlain(ops: seq<Op>, e: EventType)
    requires PlainUpdates(ops, e)
    ensures Plain(Run([], ops).rows, e)
  {
    if ops != [] {
      var before, op := ops[..|ops| - 1], ops[|ops| - 1];
      assert op in ops;
      RowsStayPlain(before, e);
      StaysStored([], before);
      RowsAfter([], ops);
      if AcceptedAt([], ops, |ops| - 1) {
        UpdateTakesEffect(Run([], before), op.update);
        forall r | r in Run([], ops).rows ensures r.eventType.None? && r.category != EventName(e) {
          if r.category == op.update.category { assert KeepsType(r, Run([], before).rows, op.update); }
        }
      }
    }
  }

  /** A user who only ever updates whole categories gets exactly what the latest update of
      the event's category says, and what the regulator mandates. */
  lemma PlainUpdatesAreFollowed(ops: seq<Op>, i: int, e: EventType, account: AccountType, c: Channel,
                                now: int, queried: seq<Row>)
    requires PlainUpdates(ops, e) && LastUpdate([], ops, i, CategoryName(e.category)) && c in ALL_CHANNELS
    requires IsOrder(queried, Run([], ops).rows)
    ensures var cache, u := Warmed(Run([], ops), now, queried).cache, ops[i].update;
            && cache.Present?
            && (c in Channels(cache.value, e, account) <==> c in RegulatoryChannels(e) || Wants(u, c))
            && DigestFor(cache.value, e) == match u.digest case Some(mode) => mode case None => Immediate
  {
    var after := Run([], ops).rows;
    RowsStayPlain(ops, e);
    RowsStayUniform([], ops);
    LatestUpdateStands([], ops, i, CategoryName(e.category));
    assert HasRow(after, CategoryName(e.category), c);
    var r :| r in after && RowOf(r, CategoryName(e.category), c);
    ResolvingFollowsLatestUpdate([], ops, i, r, e, account, now, queried);
  }
}
