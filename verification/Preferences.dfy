/** One user's notification preferences: the stored rows, their Redis cache, the four-layer
    resolver and the quiet window (src/preferences). */
module Preferences {
  import opened Redis
  import opened Events
  import opened QuietHours

  datatype DigestMode = Immediate | Hourly | Daily

  datatype Row = Row(category: string, eventType: Option<string>, channel: Channel, enabled: bool, digest: DigestMode)

  datatype CategoryPrefs = CategoryPrefs(channels: map<Channel, bool>, digest: DigestMode)

  type Cached = map<string, CategoryPrefs>

  const CACHE_TTL := 3_600_000
  const MIN_QUIET_WINDOW := 360

  function CategoryName(c: Category): string {
    match c
    case Txnx => "TXNX"
    case Risk => "RISK"
    case Sipx => "SIPX"
    case Mktx => "MKTX"
    case Regx => "REGX"
    case Digest => "DIGEST"
  }

  function EventName(e: EventType): string {
    if e.category == Digest then "DIGEST"
    else CategoryName(e.category) + "-00" + [('0' as int + e.number % 10) as char]
  }

  // ---- The layers ----

  function SystemDefaults(c: Category): seq<Channel> {
    match c
    case Risk => [Sms, Push, InApp]
    case Txnx => [Sms, Push, Email]
    case Sipx => [Push, Email]
    case Mktx => [Push, InApp]
    case Regx => [Email, Sms]
    case Digest => [Push, InApp]
  }

  function RegulatoryChannels(e: EventType): seq<Channel> {
    match e
    case Event(Risk, 1) => [Sms, Push]
    case Event(Risk, 2) => [Sms, Push, Email]
    case Event(Risk, 3) => [Sms, Push, Email]
    case Event(Mktx, 2) => [Sms, Push]
    case Event(Txnx, 1) => [Sms, Push, Email]
    case Event(Txnx, 2) => [Sms, Push, Email]
    case Event(Txnx, 3) => [Push, Sms]
    case Event(Txnx, 5) => [Sms, Push]
    case Event(Sipx, 2) => [Sms, Email]
    case Event(Sipx, 3) => [Sms, Push, Email]
    case Event(Regx, 1) => [Sms, Email, Push]
    case Event(Regx, 3) => [Email]
    case _ => []
  }

  /** The regulator's table names channels for exactly the events of the mandatory list. */
  lemma MandatedAreListed(e: EventType)
    ensures RegulatoryChannels(e) != [] <==> e in REGULATORY_MANDATORY_EVENTS
  {
  }

  datatype AccountType = Basic | Premium | Hni

  /** [...new Set(s)]: the first occurrence of each element, in order. */
  function Dedupe(s: seq<Channel>): seq<Channel> {
    if s == [] then []
    else
      var before := Dedupe(s[..|s| - 1]);
      if s[|s| - 1] in before then before else before + [s[|s| - 1]]
  }

  function SegmentChannels(e: EventType, account: AccountType): seq<Channel> {
    var defaults := SystemDefaults(e.category);
    if account == Basic then defaults else Dedupe(defaults + [WhatsApp])
  }

  /** The settings for the event type, or failing that for its category. */
  function Settings(prefs: Cached, e: EventType): Option<map<Channel, bool>> {
    if EventName(e) in prefs then Some(prefs[EventName(e)].channels)
    else if CategoryName(e.category) in prefs then Some(prefs[CategoryName(e.category)].channels)
    else None
  }

  predicate Enabled(settings: map<Channel, bool>, c: Channel, defaults: seq<Channel>) {
    if c in settings then settings[c] else c in defaults
  }

  function Filter(channels: seq<Channel>, settings: map<Channel, bool>, defaults: seq<Channel>): seq<Channel> {
    if channels == [] then []
    else
      Filter(channels[..|channels| - 1], settings, defaults) +
      if Enabled(settings, channels[|channels| - 1], defaults) then [channels[|channels| - 1]] else []
  }

  function UserChannels(prefs: Cached, e: EventType, account: AccountType): seq<Channel> {
    var defaults := SegmentChannels(e, account);
    match Settings(prefs, e)
    case None => defaults
    case Some(settings) => Filter(ALL_CHANNELS, settings, defaults)
  }

  function Channels(prefs: Cached, e: EventType, account: AccountType): seq<Channel> {
    Dedupe(UserChannels(prefs, e, account) + RegulatoryChannels(e))
  }

  function DigestFor(prefs: Cached, e: EventType): DigestMode {
    if CategoryName(e.category) in prefs then prefs[CategoryName(e.category)].digest else Immediate
  }

  ghost predicate NoDuplicates(s: seq<Channel>) {
    forall i, j :: 0 <= i < j < |s| ==> s[i] != s[j]
  }

  lemma {:induction false} DedupeKeepsElements(s: seq<Channel>)
    ensures NoDuplicates(Dedupe(s))
    ensures forall c :: c in Dedupe(s) <==> c in s
  {
    if s != [] {
      DedupeKeepsElements(s[..|s| - 1]);
      assert forall c :: c in s <==> c in s[..|s| - 1] || c == s[|s| - 1];
    }
  }

  lemma {:induction false} FilterElements(channels: seq<Channel>, settings: map<Channel, bool>, defaults: seq<Channel>)
    ensures forall c :: c in Filter(channels, settings, defaults) <==> c in channels && Enabled(settings, c, defaults)
  {
    if channels != [] {
      FilterElements(channels[..|channels| - 1], settings, defaults);
      assert forall c :: c in channels <==> c in channels[..|channels| - 1] || c == channels[|channels| - 1];
    }
  }

  /** Does the user's own layer ask for the channel? An explicit setting wins over the defaults. */
  predicate UserWants(prefs: Cached, e: EventType, account: AccountType, c: Channel) {
    var defaults := SegmentChannels(e, account);
    match Settings(prefs, e)
    case None => c in defaults
    case Some(settings) => c in ALL_CHANNELS && Enabled(settings, c, defaults)
  }

  /** The result has no duplicates, and a channel is in it exactly when the regulator
      mandates it or the user's layers ask for it. */
  lemma LayersCombine(prefs: Cached, e: EventType, account: AccountType)
    ensures NoDuplicates(Channels(prefs, e, account))
    ensures forall c :: c in Channels(prefs, e, account) <==>
                        c in RegulatoryChannels(e) || UserWants(prefs, e, account, c)
  {
    DedupeKeepsElements(UserChannels(prefs, e, account) + RegulatoryChannels(e));
    var settings := Settings(prefs, e);
    if settings.Some? { FilterElements(ALL_CHANNELS, settings.value, SegmentChannels(e, account)); }
  }

  lemma RegulatoryChannelsSurvive(prefs: Cached, e: EventType, account: AccountType, c: Channel)
    requires c in RegulatoryChannels(e)
    ensures c in Channels(prefs, e, account)
  {
    LayersCombine(prefs, e, account);
  }

  // ---- Storage ----

  function RowKey(r: Row): string {
    if r.eventType.Some? then r.eventType.value else r.category
  }

  /** The first row of a key sets its digest mode, every row sets its channel. */
  function Load(rows: seq<Row>): Cached {
    if rows == [] then map[]
    else
      var before, r := Load(rows[..|rows| - 1]), rows[|rows| - 1];
      var entry := if RowKey(r) in before then before[RowKey(r)] else CategoryPrefs(map[], r.digest);
      before[RowKey(r) := entry.(channels := entry.channels[r.channel := r.enabled])]
  }

  /** Update the row of this category and channel, or append a new one. */
  function Upsert(rows: seq<Row>, r: Row): seq<Row> {
    if rows == [] then [r]
    else if rows[0].category == r.category && rows[0].channel == r.channel then
      [rows[0].(enabled := r.enabled, digest := r.digest)] + rows[1..]
    else [rows[0]] + Upsert(rows[1..], r)
  }

  datatype Update = Update(
    category: string, eventType: Option<string>, channels: map<Channel, bool>, digest: Option<DigestMode>,
    quietStart: Option<TimeOfDay>, quietEnd: Option<TimeOfDay>)

  function NewRow(u: Update, c: Channel): Row {
    Row(u.category, u.eventType, c, if c in u.channels then u.channels[c] else true,
        if u.digest.Some? then u.digest.value else Immediate)
  }

  function UpsertAll(rows: seq<Row>, u: Update, n: nat): seq<Row>
    requires n <= |ALL_CHANNELS|
  {
    if n == 0 then rows else Upsert(UpsertAll(rows, u, n - 1), NewRow(u, ALL_CHANNELS[n - 1]))
  }

  datatype Profile = Profile(rows: seq<Row>, cache: Cell<Cached>, quietStart: TimeOfDay, quietEnd: TimeOfDay)

  function GetOr<T>(o: Option<T>, default: T): T {
    if o.Some? then o.value else default
  }

  predicate TooShort(user: Profile, u: Update) {
    && (u.quietStart.Some? || u.quietEnd.Some?)
    && WindowLength(GetOr(u.quietStart, user.quietStart), GetOr(u.quietEnd, user.quietEnd)) < MIN_QUIET_WINDOW
  }

  function Updated(user: Profile, u: Update): Profile {
    if TooShort(user, u) then user
    else Profile(UpsertAll(user.rows, u, |ALL_CHANNELS|), Absent,
              GetOr(u.quietStart, user.quietStart), GetOr(u.quietEnd, user.quietEnd))
  }

  datatype Resolved = Resolved(channels: seq<Channel>, digest: DigestMode)

  /** The query that fills the cache names no order: it may return the rows in any. */
  predicate IsOrder(order: seq<Row>, rows: seq<Row>) {
    multiset(order) == multiset(rows)
  }

  /** `order` is how the query returns the rows, if it is made. */
  function Warmed(user: Profile, now: int, order: seq<Row>): Profile {
    if Live(user.cache, now) then user else user.(cache := SetEx(Load(order), now, CACHE_TTL))
  }

  class PreferencesService {
    var rows: seq<Row>
    var cache: Cell<Cached>
    var quietStart: TimeOfDay
    var quietEnd: TimeOfDay

    ghost function State(): Profile
      reads this
    {
      Profile(rows, cache, quietStart, quietEnd)
    }

    constructor (rows: seq<Row>)
      ensures State() == Profile(rows, Absent, 1260, 480)
    {
      this.rows, cache, quietStart, quietEnd := rows, Absent, 1260, 480;
    }

    method UpdatePreferences(u: Update) returns (accepted: bool)
      modifies this
      ensures accepted == !TooShort(old(State()), u)
      ensures accepted <==>
                || (u.quietStart.None? && u.quietEnd.None?)
                || WindowLength(GetOr(u.quietStart, old(quietStart)), GetOr(u.quietEnd, old(quietEnd))) >= 360
      ensures State() == Updated(old(State()), u)
    {
      if u.quietStart.Some? || u.quietEnd.Some? {
        var start: int := GetOr(u.quietStart, quietStart);
        var end: int := GetOr(u.quietEnd, quietEnd);
        var length := (end - start + 1440) % 1440;
        if length < MIN_QUIET_WINDOW { return false; }
      }
      for i := 0 to |ALL_CHANNELS|
        invariant rows == UpsertAll(old(rows), u, i)
        invariant cache == old(cache) && quietStart == old(quietStart) && quietEnd == old(quietEnd)
      {
        rows := Upsert(rows, NewRow(u, ALL_CHANNELS[i]));
      }
      if u.quietStart.Some? { quietStart := u.quietStart.value; }
      if u.quietEnd.Some? { quietEnd := u.quietEnd.value; }
      cache := Absent;
      accepted := true;
    }

    method LoadFromDb(order: seq<Row>) returns (prefs: Cached)
      requires IsOrder(order, rows)
      ensures prefs == Load(order)
    {
      prefs := map[];
      for i := 0 to |order|
        invariant prefs == Load(order[..i])
      {
        assert order[..i + 1][..i] == order[..i];
        var r := order[i];
        if RowKey(r) !in prefs { prefs := prefs[RowKey(r) := CategoryPrefs(map[], r.digest)]; }
        var entry := prefs[RowKey(r)];
        prefs := prefs[RowKey(r) := entry.(channels := entry.channels[r.channel := r.enabled])];
      }
      assert order[..|order|] == order;
    }

    /** The cache is read at `now`, and once more at `later` for the digest mode. */
    method Resolve(e: EventType, account: AccountType, now: int, later: int, order: seq<Row>) returns (r: Resolved)
      requires IsOrder(order, rows)
      modifies this
      ensures State() == Warmed(old(State()), now, order)
      ensures r.channels == Channels(cache.value, e, account)
      ensures r.digest == if Live(cache, later) then DigestFor(cache.value, e) else Immediate
    {
      if !Live(cache, now) {
        var prefs := LoadFromDb(order);
        cache := SetEx(prefs, now, CACHE_TTL);
      }
      var channels := Channels(cache.value, e, account);
      var digest := if Live(cache, later) then DigestFor(cache.value, e) else Immediate;
      r := Resolved(channels, digest);
    }
  }

  // ---- Whole runs ----

  datatype Op = Change(update: Update) | Look(now: int, order: seq<Row>)

  function Apply(user: Profile, op: Op): Profile {
    match op
    case Change(u) => Updated(user, u)
    case Look(now, order) => if IsOrder(order, user.rows) then Warmed(user, now, order) else user
  }

  function Run(rows: seq<Row>, ops: seq<Op>): Profile {
    if ops == [] then Profile(rows, Absent, 1260, 480) else Apply(Run(rows, ops[..|ops| - 1]), ops[|ops| - 1])
  }

  lemma {:induction false} CacheIsCurrent(rows: seq<Row>, ops: seq<Op>)
    ensures var user := Run(rows, ops);
            user.cache.Present? ==> exists order :: IsOrder(order, user.rows) && user.cache.value == Load(order)
  {
    if ops != [] {
      var before, op := Run(rows, ops[..|ops| - 1]), ops[|ops| - 1];
      CacheIsCurrent(rows, ops[..|ops| - 1]);
      if op.Look? && IsOrder(op.order, before.rows) && !Live(before.cache, op.now) {
        assert Run(rows, ops).cache.value == Load(op.order);
      }
    }
  }

  /** Warm, cold or expired, and in whatever order the rows came when the cache was filled
      or come now, the cache never changes the channels, provided the rows do not contradict
      each other; and it changes the digest mode exactly when it expires between the two
      reads of one resolution and the stored mode is not IMMEDIATE. */
  lemma CacheAgreesWithRows(rows: seq<Row>, ops: seq<Op>, e: EventType, account: AccountType, now: int, later: int,
                            queried: seq<Row>, order: seq<Row>)
    requires var user := Run(rows, ops);
             Consistent(user.rows) && IsOrder(queried, user.rows) && IsOrder(order, user.rows)
    ensures var cache := Warmed(Run(rows, ops), now, queried).cache;
            && cache.Present?
            && Channels(cache.value, e, account) == Channels(Load(order), e, account)
            && ((if Live(cache, later) then DigestFor(cache.value, e) else Immediate) == DigestFor(Load(order), e)
                <==> Live(cache, later) || DigestFor(Load(order), e) == Immediate)
  {
    var user := Run(rows, ops);
    CacheIsCurrent(rows, ops);
    if Live(user.cache, now) {
      var filled :| IsOrder(filled, user.rows) && user.cache.value == Load(filled);
      SameElements(filled, user.rows);
      SameElements(order, user.rows);
      LoadIgnoresOrder(user.rows, filled);
      LoadIgnoresOrder(user.rows, order);
    } else {
      SameElements(queried, user.rows);
      SameElements(order, user.rows);
      LoadIgnoresOrder(user.rows, queried);
      LoadIgnoresOrder(user.rows, order);
    }
  }

  /** The digest mode does get lost: resolved one millisecond before the cache dies. */
  lemma ModeLostBetweenReads(c: Channel, account: AccountType)
    ensures var rows := [Row("TXNX", None, c, true, Hourly)];
            var user := Run(rows, [Look(0, rows)]);
            var cache := Warmed(user, 3_599_999, rows).cache;
            && cache == user.cache && !Live(cache, 3_600_000)
            && DigestFor(Load(rows), Event(Txnx, 4)) == Hourly
  {
    var rows := [Row("TXNX", None, c, true, Hourly)];
    var ops := [Look(0, rows)];
    assert ops[..0] == [] && rows[..0] == [];
    assert Run(rows, []).rows == rows;
    assert Load(rows) == map["TXNX" := CategoryPrefs(map[c := true], Hourly)];
  }

  /** Every sequence of updates keeps the quiet window between 6 hours and a day less a minute. */
  lemma {:induction false} QuietWindowKept(rows: seq<Row>, ops: seq<Op>)
    ensures 360 <= WindowLength(Run(rows, ops).quietStart, Run(rows, ops).quietEnd) <= 1439
  {
    if ops != [] { QuietWindowKept(rows, ops[..|ops| - 1]); }
  }

  // ---- The database returns the rows in no particular order ----

  ghost predicate OneRowPerChannel(rows: seq<Row>) {
    forall a, b :: a in rows && b in rows && a.category == b.category && a.channel == b.channel ==> a == b
  }

  ghost predicate OneModePerCategory(rows: seq<Row>) {
    forall a, b :: a in rows && b in rows && a.category == b.category ==> a.digest == b.digest
  }

  /** Rows that end under one key never disagree. */
  predicate Consistent(rows: seq<Row>) {
    forall a, b :: a in rows && b in rows && RowKey(a) == RowKey(b) ==>
      a.digest == b.digest && (a.channel == b.channel ==> a.enabled == b.enabled)
  }

  ghost predicate FromRow(rows: seq<Row>, key: string, c: Channel, enabled: bool) {
    exists r :: r in rows && RowKey(r) == key && r.channel == c && r.enabled == enabled
  }

  ghost predicate HasDigest(rows: seq<Row>, key: string, digest: DigestMode) {
    exists r :: r in rows && RowKey(r) == key && r.digest == digest
  }

  lemma {:induction false} LoadReflectsRows(rows: seq<Row>, key: string, c: Channel)
    ensures key in Load(rows) <==> exists r :: r in rows && RowKey(r) == key
    ensures key in Load(rows) ==> HasDigest(rows, key, Load(rows)[key].digest)
    ensures key in Load(rows) ==>
              (c in Load(rows)[key].channels <==> exists r :: r in rows && RowKey(r) == key && r.channel == c)
    ensures key in Load(rows) && c in Load(rows)[key].channels ==> FromRow(rows, key, c, Load(rows)[key].channels[c])
  {
    if rows != [] {
      var before, last := rows[..|rows| - 1], rows[|rows| - 1];
      LoadReflectsRows(before, key, c);
      assert forall r :: r in rows <==> r in before || r == last;
    }
  }

  lemma SameElements(a: seq<Row>, b: seq<Row>)
    requires IsOrder(a, b)
    ensures forall r :: r in a <==> r in b
  {
    forall r ensures r in a <==> r in b {
      assert r in a <==> r in multiset(a);
      assert r in b <==> r in multiset(b);
    }
  }

  lemma SameEntry(a: seq<Row>, b: seq<Row>, key: string, c: Channel)
    requires forall r :: r in a <==> r in b
    requires Consistent(a)
    ensures key in Load(a) <==> key in Load(b)
    ensures key in Load(a) ==>
              && Load(a)[key].digest == Load(b)[key].digest
              && (c in Load(a)[key].channels <==> c in Load(b)[key].channels)
              && (c in Load(a)[key].channels ==> Load(a)[key].channels[c] == Load(b)[key].channels[c])
  {
    LoadReflectsRows(a, key, c);
    LoadReflectsRows(b, key, c);
  }

  lemma LoadIgnoresOrder(a: seq<Row>, b: seq<Row>)
    requires forall r :: r in a <==> r in b
    requires Consistent(a)
    ensures Load(a) == Load(b)
  {
    forall key ensures key in Load(a) <==> key in Load(b) { SameEntry(a, b, key, Sms); }
    forall key | key in Load(a) ensures Load(a)[key] == Load(b)[key] {
      SameEntry(a, b, key, Sms);
      forall c
        ensures c in Load(a)[key].channels <==> c in Load(b)[key].channels
        ensures c in Load(a)[key].channels ==> Load(a)[key].channels[c] == Load(b)[key].channels[c]
      {
        SameEntry(a, b, key, c);
      }
      assert Load(a)[key].channels == Load(b)[key].channels;
    }
  }

  /** The last row of a key and channel decides whether the channel is on ... */
  lemma {:induction false} LastRowSets(before: seq<Row>, r: Row, rest: seq<Row>)
    requires forall x :: x in rest ==> RowKey(x) != RowKey(r) || x.channel != r.channel
    ensures var loaded := Load(before + [r] + rest);
            RowKey(r) in loaded && r.channel in loaded[RowKey(r)].channels
            && loaded[RowKey(r)].channels[r.channel] == r.enabled
    decreases |rest|
  {
    var all := before + [r] + rest;
    if rest == [] {
      assert all == before + [r] && all[..|all| - 1] == before;
    } else {
      var last := |rest| - 1;
      LastRowSets(before, r, rest[..last]);
      assert all[..|all| - 1] == before + [r] + rest[..last];
      assert all[|all| - 1] == rest[last] && rest[last] in rest;
    }
  }

  /** ... and the first row of a key its digest mode. */
  lemma {:induction false} FirstRowSets(r: Row, rest: seq<Row>)
    ensures RowKey(r) in Load([r] + rest) && Load([r] + rest)[RowKey(r)].digest == r.digest
    decreases |rest|
  {
    var all := [r] + rest;
    if rest == [] {
      assert all[..0] == [];
    } else {
      FirstRowSets(r, rest[..|rest| - 1]);
      assert all[..|all| - 1] == [r] + rest[..|rest| - 1];
    }
  }

  lemma TakenOut(rows: seq<Row>, i: nat) returns (rest: seq<Row>)
    requires i < |rows|
    ensures IsOrder([rows[i]] + rest, rows) && IsOrder(rest + [rows[i]], rows)
  {
    rest := rows[..i] + rows[i + 1..];
    assert rows == rows[..i] + [rows[i]] + rows[i + 1..];
  }

  ghost predicate AnyOrderLoads(rows: seq<Row>, loaded: Cached) {
    forall order :: IsOrder(order, rows) ==> Load(order) == loaded
  }

  /** Some order loads the digest mode of any given row, and some its channel setting. */
  lemma SomeOrderObeys(rows: seq<Row>, a: Row)
    requires a in rows && AnyOrderLoads(rows, Load(rows))
    ensures RowKey(a) in Load(rows) && Load(rows)[RowKey(a)].digest == a.digest
    ensures a.channel in Load(rows)[RowKey(a)].channels && Load(rows)[RowKey(a)].channels[a.channel] == a.enabled
  {
    var i :| 0 <= i < |rows| && rows[i] == a;
    var rest := TakenOut(rows, i);
    FirstRowSets(a, rest);
    LastRowSets(rest, a, []);
    assert rest + [a] + [] == rest + [a];
  }

  /** Exactly when the order in which the database returns the rows does not matter. */
  lemma AnyOrderIff(rows: seq<Row>)
    ensures AnyOrderLoads(rows, Load(rows)) <==> Consistent(rows)
  {
    if Consistent(rows) {
      forall order | IsOrder(order, rows) ensures Load(order) == Load(rows) {
        SameElements(order, rows);
        LoadIgnoresOrder(rows, order);
      }
    }
    if AnyOrderLoads(rows, Load(rows)) {
      forall a, b | a in rows && b in rows && RowKey(a) == RowKey(b)
        ensures a.digest == b.digest && (a.channel == b.channel ==> a.enabled == b.enabled)
      {
        SomeOrderObeys(rows, a);
        SomeOrderObeys(rows, b);
      }
    }
  }

  // ---- Which rows updates can store ----

  ghost predicate Stored(rows: seq<Row>) {
    && (forall i, j :: 0 <= i < j < |rows| ==>
        rows[i].category != rows[j].category || rows[i].channel != rows[j].channel)
    && (forall r :: r in rows ==> r.channel in ALL_CHANNELS)
  }

  lemma {:induction false} UpsertKeepsStored(rows: seq<Row>, r: Row)
    requires Stored(rows) && r.channel in ALL_CHANNELS
    ensures Stored(Upsert(rows, r))
    ensures forall x :: x in Upsert(rows, r) ==>
              if x.category == r.category && x.channel == r.channel then x.digest == r.digest else x in rows
  {
    if rows != [] && !(rows[0].category == r.category && rows[0].channel == r.channel) {
      var rest := Upsert(rows[1..], r);
      UpsertKeepsStored(rows[1..], r);
      forall j | 0 <= j < |rest| ensures rest[j].category != rows[0].category || rest[j].channel != rows[0].channel {
        assert rest[j] in rest;
        if rest[j] in rows[1..] {
          var k :| 0 <= k < |rows[1..]| && rows[1..][k] == rest[j];
          assert rows[k + 1] == rest[j];
        }
      }
    }
  }

  lemma UpsertMode(rows: seq<Row>, before: seq<Row>, u: Update, n: nat)
    requires 0 < n <= |ALL_CHANNELS| && Stored(before)
    requires forall x :: x in before ==>
               if x.category == u.category && x.channel in ALL_CHANNELS[..n - 1]
               then x.digest == GetOr(u.digest, Immediate) else x in rows
    ensures var after := Upsert(before, NewRow(u, ALL_CHANNELS[n - 1]));
            && Stored(after)
            && forall x :: x in after ==>
                 if x.category == u.category && x.channel in ALL_CHANNELS[..n]
                 then x.digest == GetOr(u.digest, Immediate) else x in rows
  {
    UpsertKeepsStored(before, NewRow(u, ALL_CHANNELS[n - 1]));
    assert ALL_CHANNELS[..n] == ALL_CHANNELS[..n - 1] + [ALL_CHANNELS[n - 1]];
  }

  lemma {:induction false} UpsertAllModes(rows: seq<Row>, u: Update, n: nat)
    requires Stored(rows) && n <= |ALL_CHANNELS|
    ensures Stored(UpsertAll(rows, u, n))
    ensures forall x :: x in UpsertAll(rows, u, n) ==>
              if x.category == u.category && x.channel in ALL_CHANNELS[..n]
              then x.digest == GetOr(u.digest, Immediate) else x in rows
  {
    if n > 0 {
      UpsertAllModes(rows, u, n - 1);
      UpsertMode(rows, UpsertAll(rows, u, n - 1), u, n);
    }
  }

  /** Updates keep one row per channel and one digest mode per category. */
  lemma {:induction false} RowsStayUniform(rows: seq<Row>, ops: seq<Op>)
    requires Stored(rows) && OneModePerCategory(rows)
    ensures var r := Run(rows, ops).rows; Stored(r) && OneRowPerChannel(r) && OneModePerCategory(r)
  {
    if ops != [] {
      var before, op := Run(rows, ops[..|ops| - 1]), ops[|ops| - 1];
      RowsStayUniform(rows, ops[..|ops| - 1]);
      if op.Change? && !TooShort(before, op.update) {
        UpsertAllModes(before.rows, op.update, |ALL_CHANNELS|);
        assert ALL_CHANNELS[..|ALL_CHANNELS|] == ALL_CHANNELS;
        var after := Run(rows, ops).rows;
        forall a, b | a in after && b in after && a.category == b.category ensures a.digest == b.digest {
          assert a.channel in ALL_CHANNELS && b.channel in ALL_CHANNELS;
        }
      }
    }
  }

  /** Each key belongs to one category: its own name, or an event type of its own. */
  ghost predicate AtHome(category: string, eventType: Option<string>, home: string -> string) {
    home(category) == category && (eventType.Some? ==> home(eventType.value) == category)
  }

  ghost predicate AllAtHome(rows: seq<Row>, home: string -> string) {
    forall r :: r in rows ==> AtHome(r.category, r.eventType, home)
  }

  lemma {:induction false} UpsertKeepsHome(rows: seq<Row>, r: Row, home: string -> string)
    requires AllAtHome(rows, home) && AtHome(r.category, r.eventType, home)
    ensures AllAtHome(Upsert(rows, r), home)
  {
    if rows != [] && !(rows[0].category == r.category && rows[0].channel == r.channel) {
      UpsertKeepsHome(rows[1..], r, home);
    }
  }

  lemma {:induction false} UpsertAllKeepsHome(rows: seq<Row>, u: Update, n: nat, home: string -> string)
    requires AllAtHome(rows, home) && AtHome(u.category, u.eventType, home) && n <= |ALL_CHANNELS|
    ensures AllAtHome(UpsertAll(rows, u, n), home)
  {
    if n > 0 {
      UpsertAllKeepsHome(rows, u, n - 1, home);
      UpsertKeepsHome(UpsertAll(rows, u, n - 1), NewRow(u, ALL_CHANNELS[n - 1]), home);
    }
  }

  /** If every update names event types of its own category only, no run stores rows that
      contradict each other, so every order loads the same. */
  lemma {:induction false} HomelyRunsAreConsistent(rows: seq<Row>, ops: seq<Op>, home: string -> string)
    requires Stored(rows) && OneModePerCategory(rows) && AllAtHome(rows, home)
    requires forall op :: op in ops && op.Change? ==> AtHome(op.update.category, op.update.eventType, home)
    ensures AllAtHome(Run(rows, ops).rows, home) && Consistent(Run(rows, ops).rows)
  {
    RowsStayUniform(rows, ops);
    if ops != [] {
      var op := ops[|ops| - 1];
      HomelyRunsAreConsistent(rows, ops[..|ops| - 1], home);
      assert op in ops;
      if op.Change? { UpsertAllKeepsHome(Run(rows, ops[..|ops| - 1]).rows, op.update, |ALL_CHANNELS|, home); }
    }
    forall a, b | a in Run(rows, ops).rows && b in Run(rows, ops).rows && RowKey(a) == RowKey(b)
      ensures a.category == b.category
    {
      assert home(RowKey(a)) == a.category && home(RowKey(b)) == b.category;
    }
  }

  function NewRows(u: Update): seq<Row> {
    seq(|ALL_CHANNELS|, i requires 0 <= i < |ALL_CHANNELS| => NewRow(u, ALL_CHANNELS[i]))
  }

  lemma {:induction false} UpsertOfNew(rows: seq<Row>, r: Row)
    requires forall x :: x in rows ==> x.category != r.category || x.channel != r.channel
    ensures Upsert(rows, r) == rows + [r]
  {
    if rows != [] {
      UpsertOfNew(rows[1..], r);
      assert rows[0] in rows && rows == [rows[0]] + rows[1..];
    }
  }

  /** The first update of a category appends its five rows. */
  lemma {:induction false} UpsertAllOfNew(rows: seq<Row>, u: Update, n: nat)
    requires n <= |ALL_CHANNELS| && forall x :: x in rows ==> x.category != u.category
    ensures UpsertAll(rows, u, n) == rows + NewRows(u)[..n]
  {
    if n > 0 {
      UpsertAllOfNew(rows, u, n - 1);
      forall x | x in NewRows(u)[..n - 1] ensures x.channel != ALL_CHANNELS[n - 1] {
        var i :| 0 <= i < n - 1 && NewRows(u)[i] == x;
        assert ALL_CHANNELS[i] != ALL_CHANNELS[n - 1];
      }
      UpsertOfNew(rows + NewRows(u)[..n - 1], NewRow(u, ALL_CHANNELS[n - 1]));
      assert NewRows(u)[..n] == NewRows(u)[..n - 1] + [NewRow(u, ALL_CHANNELS[n - 1])];
    }
  }

  lemma SmsIsFirst(u: Update)
    ensures NewRows(u)[0] == NewRow(u, Sms) && NewRows(u) == [NewRows(u)[0]] + NewRows(u)[1..]
    ensures forall x :: x in NewRows(u)[1..] ==> x.channel != Sms
  {
    forall x | x in NewRows(u)[1..] ensures x.channel != Sms {
      var i :| 0 <= i < |NewRows(u)[1..]| && NewRows(u)[1..][i] == x;
      assert NewRows(u)[i + 1] == x && ALL_CHANNELS[i + 1] != Sms;
    }
  }

  /** Whichever update's rows come last decides about SMS. */
  lemma LaterRowsDecide(first: Update, second: Update)
    requires first.eventType == second.eventType == Some("RISK-004") && Sms in second.channels
    ensures Sms in Channels(Load(NewRows(first) + NewRows(second)), Event(Risk, 4), Basic) <==> second.channels[Sms]
  {
    var rows := NewRows(first) + NewRows(second);
    SmsIsFirst(second);
    LastRowSets(NewRows(first), NewRows(second)[0], NewRows(second)[1..]);
    assert rows == NewRows(first) + [NewRows(second)[0]] + NewRows(second)[1..];
    assert EventName(Event(Risk, 4)) == "RISK-004";
    LayersCombine(Load(rows), Event(Risk, 4), Basic);
  }

  lemma RowsOfTwo(first: Update, second: Update)
    requires first.category != second.category && !TooShort(Run([], []), first)
    requires second.quietStart.None? && second.quietEnd.None?
    ensures Run([], [Change(first), Change(second)]).rows == NewRows(first) + NewRows(second)
  {
    var ops := [Change(first), Change(second)];
    assert ops[..1] == [Change(first)] && ops[..1][..0] == [];
    UpsertAllOfNew([], first, |ALL_CHANNELS|);
    UpsertAllOfNew(NewRows(first), second, |ALL_CHANNELS|);
    assert NewRows(first)[..|ALL_CHANNELS|] == NewRows(first) && NewRows(second)[..|ALL_CHANNELS|] == NewRows(second);
    assert Run([], ops[..1]).rows == NewRows(first);
  }

  /** Two updates that name one event type under different categories: the stored rows
      answer for it one way or the other, as the query happens to return them. */
  lemma TwoCategoriesDisagree()
    ensures var off := Update("TXNX", Some("RISK-004"), map[Sms := false], None, None, None);
            var on := Update("RISK", Some("RISK-004"), map[Sms := true], None, None, None);
            var rows := Run([], [Change(off), Change(on)]).rows;
            var order := NewRows(on) + NewRows(off);
            && IsOrder(order, rows)
            && Sms in Channels(Load(rows), Event(Risk, 4), Basic)
            && Sms !in Channels(Load(order), Event(Risk, 4), Basic)
  {
    var off := Update("TXNX", Some("RISK-004"), map[Sms := false], None, None, None);
    var on := Update("RISK", Some("RISK-004"), map[Sms := true], None, None, None);
    var ops := [Change(off), Change(on)];
    RowsOfTwo(off, on);
    LaterRowsDecide(off, on);
    LaterRowsDecide(on, off);
  }

}
