/** Consent and do-not-disturb checks made at dispatch (src/compliance/dnd). */
module Compliance {
  import opened Redis
  import opened Events

  // ---- Consent: an append-only log whose latest record decides ----

  datatype ConsentType = OptIn | OptOut | WhatsAppOptIn | WhatsAppOptOut

  datatype ConsentRecord = ConsentRecord(user: string, channel: Channel, kind: ConsentType)
  {
    predicate Granted() { kind == OptIn || kind == WhatsAppOptIn }
  }

  /** WhatsApp types belong to the WhatsApp channel and only to it. */
  predicate ValidCombination(channel: Channel, kind: ConsentType) {
    (channel == WhatsApp) <==> (kind == WhatsAppOptIn || kind == WhatsAppOptOut)
  }

  predicate RequiresConsent(channel: Channel, classification: Classification) {
    channel == WhatsApp || ((channel == Sms || channel == Email) && classification == Promotional)
  }

  function Latest(log: seq<ConsentRecord>, user: string, channel: Channel): Option<ConsentRecord> {
    if log == [] then None
    else if log[|log| - 1].user == user && log[|log| - 1].channel == channel then Some(log[|log| - 1])
    else Latest(log[..|log| - 1], user, channel)
  }

  predicate HasConsent(log: seq<ConsentRecord>, user: string, channel: Channel) {
    var latest := Latest(log, user, channel);
    latest.Some? && latest.value.Granted()
  }

  datatype ConsentDecision = NotRequired | NoRecord | Withdrawn | GrantedBy(record: ConsentRecord)
  {
    predicate Allowed() { NotRequired? || GrantedBy? }
  }

  /** Records of other users and channels never decide; the last matching one always does. */
  lemma {:induction false} LatestDecides(log: seq<ConsentRecord>, user: string, channel: Channel, i: nat)
    requires i < |log| && log[i].user == user && log[i].channel == channel
    requires forall j :: i < j < |log| ==> log[j].user != user || log[j].channel != channel
    ensures Latest(log, user, channel) == Some(log[i])
  {
    if i < |log| - 1 { LatestDecides(log[..|log| - 1], user, channel, i); }
  }

  class ConsentService {
    var log: seq<ConsentRecord>

    constructor ()
      ensures log == []
    {
      log := [];
    }

    method Record(user: string, channel: Channel, kind: ConsentType) returns (accepted: bool)
      modifies this
      ensures accepted == ValidCombination(channel, kind)
      ensures log == if accepted then old(log) + [ConsentRecord(user, channel, kind)] else old(log)
    {
      var isWhatsAppType := kind == WhatsAppOptIn || kind == WhatsAppOptOut;
      if channel == WhatsApp && !isWhatsAppType { return false; }
      if channel != WhatsApp && isWhatsAppType { return false; }
      log := log + [ConsentRecord(user, channel, kind)];
      accepted := true;
    }

    /** Throws (None) only if the lookup is needed and unavailable. */
    method Evaluate(user: string, channel: Channel, classification: Classification, available: bool)
      returns (r: Option<ConsentDecision>)
      ensures r.None? <==> RequiresConsent(channel, classification) && !available
      ensures r.Some? ==> (r.value.NotRequired? <==> !RequiresConsent(channel, classification))
      ensures r.Some? ==> (r.value.Allowed() <==>
                            !RequiresConsent(channel, classification) || HasConsent(log, user, channel))
      ensures r.Some? && RequiresConsent(channel, classification) ==>
                var latest := Latest(log, user, channel);
                && (r.value.NoRecord? <==> latest.None?)
                && (r.value.GrantedBy? <==> latest.Some? && latest.value.kind in {OptIn, WhatsAppOptIn})
                && (r.value.Withdrawn? <==> latest.Some? && latest.value.kind in {OptOut, WhatsAppOptOut})
                && (r.value.GrantedBy? ==> latest == Some(r.value.record))
    {
      if !RequiresConsent(channel, classification) { return Some(NotRequired); }
      if !available { return None; }
      var record := Latest(log, user, channel);
      if record.None? { return Some(NoRecord); }
      r := Some(if record.value.Granted() then GrantedBy(record.value) else Withdrawn);
    }
  }

  // ---- DND: the registry behind a 24-hour cache ----

  const DND_TTL := 86_400_000

  datatype Registry = Registry(registered: set<string>, cache: map<string, Cell<bool>>)

  /** The answer a lookup at `now` gives, from the cache or else the registry. */
  function Answer(d: Registry, user: string, now: int): bool {
    var cached := Redis.Read(At(d.cache, user), now);
    if cached.Some? then cached.value else user in d.registered
  }

  function LookedUp(d: Registry, user: string, now: int): Registry {
    if Live(At(d.cache, user), now) then d
    else d.(cache := d.cache[user := SetEx(user in d.registered, now, DND_TTL)])
  }

  function StatusChanged(d: Registry, user: string, registered: bool): Registry {
    Registry(if registered then d.registered + {user} else d.registered - {user}, d.cache - {user})
  }

  function Refreshed(d: Registry, users: set<string>, now: int): Registry {
    d.(cache := d.cache + map u | u in users :: SetEx(u in d.registered, now, DND_TTL))
  }

  datatype RegistryStatus = Registered | NotRegistered | NotChecked | Unknown

  datatype DndResult = DndResult(
    allowed: bool, classification: Classification, status: RegistryStatus,
    regulatoryOverride: bool, registryUnavailable: bool)

  predicate SubjectToDnd(channel: Channel) {
    channel == Sms || channel == Other("voice")
  }

  class DndService {
    var registry: Registry

    constructor ()
      ensures registry == Registry({}, map[])
    {
      registry := Registry({}, map[]);
    }

    method IsDndRegistered(user: string, now: int) returns (registered: bool)
      modifies this
      ensures registered == Answer(old(registry), user, now)
      ensures registry == LookedUp(old(registry), user, now)
    {
      var cached := Redis.Read(At(registry.cache, user), now);
      if cached.Some? { return cached.value; }
      registered := user in registry.registered;
      registry := registry.(cache := registry.cache[user := SetEx(registered, now, DND_TTL)]);
    }

    method UpdateDndStatus(user: string, registered: bool)
      modifies this
      ensures registry == StatusChanged(old(registry), user, registered)
    {
      var listed := if registered then registry.registered + {user} else registry.registered - {user};
      registry := registry.(registered := listed);
      registry := registry.(cache := registry.cache - {user});
    }

    /** `available` is false when neither cache nor database answers. */
    method Check(user: string, event: EventType, channel: Channel, available: bool, now: int) returns (r: DndResult)
      modifies this
      ensures registry == if SubjectToDnd(channel) && available then LookedUp(old(registry), user, now)
          else old(registry)
      ensures r.classification == Classify(event)
      ensures SubjectToDnd(channel) ==>
                r.status == if !available then Unknown
                            else if Answer(old(registry), user, now) then Registered else NotRegistered
      ensures r.allowed <==>
                || !SubjectToDnd(channel) || Classify(event) == Transactional
                || (available && !Answer(old(registry), user, now))
      ensures r.registryUnavailable <==> SubjectToDnd(channel) && !available
      ensures r.regulatoryOverride <==> SubjectToDnd(channel) && event in CRITICAL_EVENTS && r.status == Registered
    {
      var classification := Classify(event);
      if channel != Sms && channel != Other("voice") {
        return DndResult(true, classification, NotChecked, false, false);
      }
      var status := Unknown;
      if available {
        var registered := IsDndRegistered(user, now);
        status := if registered then Registered else NotRegistered;
      }
      var unavailable := status == Unknown;
      if event in CRITICAL_EVENTS {
        return DndResult(true, classification, status, status == Registered, unavailable);
      }
      if classification == Transactional {
        return DndResult(true, classification, status, false, unavailable);
      }
      if status == Unknown {
        return DndResult(false, classification, status, false, unavailable);
      }
      r := DndResult(status == NotRegistered, classification, status, false, unavailable);
    }
  }

  /** CRITICAL events are all transactional, so neither check ever stops one by SMS, push or in-app. */
  lemma CriticalIsTransactional(event: EventType, channel: Channel)
    requires event in CRITICAL_EVENTS
    ensures Classify(event) == Transactional
    ensures channel != WhatsApp ==> !RequiresConsent(channel, Classify(event))
  {
  }

  /** A cached answer, alive or not, is the registry's present one. */
  ghost predicate CacheCurrent(d: Registry) {
    forall u :: u in d.cache && d.cache[u].Present? ==> d.cache[u].value == (u in d.registered)
  }

  datatype DndOp =
    | Lookup(user: string, now: int)
    | Change(user: string, registered: bool)
    | Refresh(users: set<string>, now: int)

  function ApplyDnd(d: Registry, op: DndOp): Registry {
    match op
    case Lookup(user, now) => LookedUp(d, user, now)
    case Change(user, registered) => StatusChanged(d, user, registered)
    case Refresh(users, now) => Refreshed(d, users, now)
  }

  lemma DndStep(d: Registry, op: DndOp, user: string, now: int)
    requires CacheCurrent(d)
    ensures CacheCurrent(ApplyDnd(d, op))
    ensures Answer(ApplyDnd(d, op), user, now) == (user in ApplyDnd(d, op).registered)
  {
  }

  function DndRun(ops: seq<DndOp>): Registry {
    if ops == [] then Registry({}, map[]) else ApplyDnd(DndRun(ops[..|ops| - 1]), ops[|ops| - 1])
  }

  /** After any operations, one at a time, a check sees the registry as it is now. */
  lemma {:induction false} AnswerIsCurrent(ops: seq<DndOp>, user: string, now: int)
    ensures CacheCurrent(DndRun(ops))
    ensures Answer(DndRun(ops), user, now) == (user in DndRun(ops).registered)
  {
    if ops != [] {
      AnswerIsCurrent(ops[..|ops| - 1], user, now);
      DndStep(DndRun(ops[..|ops| - 1]), ops[|ops| - 1], user, now);
    }
  }

  /** A refreshed user is answered from the cache for a day, and rightly. */
  lemma RefreshWarms(d: Registry, users: set<string>, user: string, now: int, later: int)
    requires user in users && now <= later
    ensures var t := Refreshed(d, users, now);
            && (Redis.Read(At(t.cache, user), later).Some? <==> later < now + 86_400_000)
            && Answer(t, user, later) == (user in d.registered)
  {
  }

  /** A check whose database read comes before a status change and whose cache write
      comes after it leaves the old answer in the cache, for a day exactly. */
  lemma InterruptedLookupGoesStale(user: string, now: int, later: int)
    requires now <= later
    ensures var start := Registry({}, map[]);
            var changed := StatusChanged(start, user, true);
            var written := changed.(cache := changed.cache[user := SetEx(user in start.registered, now, DND_TTL)]);
            user in written.registered && (!Answer(written, user, later) <==> later < now + 86_400_000)
  {
  }
}
