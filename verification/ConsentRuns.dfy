/** Consent and do-not-disturb registrations as the operations of a run recorded them. */
module ConsentRuns {
  import opened Redis
  import opened Events
  import opened Compliance
  import opened Delivery
  import opened DeliveryRuns

  /** The operation records a consent of the user for the channel, of a kind that belongs to it. */
  predicate Records(op: Op, user: string, channel: Channel) {
    && op.Consent? && op.record.user == user && op.record.channel == channel
    && ValidCombination(channel, op.record.kind)
  }

  /** Operation `i` is the last accepted consent record of the user and channel. */
  ghost predicate LastConsent(ops: seq<Op>, i: int, user: string, channel: Channel) {
    && 0 <= i < |ops| && ops[i].Consent? && Possible(Run(ops[..i]), ops[i])
    && ops[i].record.user == user && ops[i].record.channel == channel
    && forall j :: i < j < |ops| ==> !Records(ops[j], user, channel)
  }

  ghost predicate OptedIn(ops: seq<Op>, user: string, channel: Channel) {
    exists i :: LastConsent(ops, i, user, channel) && ops[i].record.kind in {OptIn, WhatsAppOptIn}
  }

  lemma LogAfter(w: World, op: Op)
    ensures Apply(w, op).consent ==
              if op.Consent? && ValidCombination(op.record.channel, op.record.kind) then w.consent + [op.record]
              else w.consent
  {
  }

  lemma LatestAfter(log: seq<ConsentRecord>, r: ConsentRecord, user: string, channel: Channel)
    ensures Latest(log + [r], user, channel) ==
              if r.user == user && r.channel == channel then Some(r) else Latest(log, user, channel)
  {
    assert (log + [r])[..|log|] == log;
  }

  lemma LastConsentStep(ops: seq<Op>, i: int, user: string, channel: Channel)
    requires ops != []
    ensures var last := |ops| - 1;
            LastConsent(ops, i, user, channel) <==>
              if Records(ops[last], user, channel) then i == last else LastConsent(ops[..last], i, user, channel)
  {
    var last := |ops| - 1;
    if 0 <= i < last { assert ops[..last][..i] == ops[..i]; }
  }

  /** What the log answers for a user and channel is the last record accepted for them. */
  lemma {:induction false} LatestIsLastConsent(ops: seq<Op>, user: string, channel: Channel)
    ensures var latest := Latest(Run(ops).consent, user, channel);
            if latest.None? then forall i :: !LastConsent(ops, i, user, channel)
            else exists i :: LastConsent(ops, i, user, channel) && ops[i].record == latest.value
    ensures forall i, j :: LastConsent(ops, i, user, channel) && LastConsent(ops, j, user, channel) ==> i == j
  {
    if ops != [] {
      var last := |ops| - 1;
      var before, op := ops[..last], ops[last];
      LatestIsLastConsent(before, user, channel);
      LogAfter(Run(before), op);
      if op.Consent? { LatestAfter(Run(before).consent, op.record, user, channel); }
      forall i ensures LastConsent(ops, i, user, channel) <==>
          if Records(op, user, channel) then i == last else LastConsent(before, i, user, channel)
      {
        LastConsentStep(ops, i, user, channel);
      }
      if Records(op, user, channel) {
        assert LastConsent(ops, last, user, channel);
      } else if Latest(Run(before).consent, user, channel).Some? {
        var i :| LastConsent(before, i, user, channel)
                 && before[i].record == Latest(Run(before).consent, user, channel).value;
        assert LastConsent(ops, i, user, channel);
      }
    }
  }

  /** Consent stands exactly if the last record the user made for the channel opts in. */
  lemma HasConsentIff(ops: seq<Op>, user: string, channel: Channel)
    ensures HasConsent(Run(ops).consent, user, channel) <==> OptedIn(ops, user, channel)
  {
    LatestIsLastConsent(ops, user, channel);
  }

  /** Operation `i` is the last change of the user's registration. */
  predicate LastChange(ops: seq<Op>, i: int, user: string) {
    && 0 <= i < |ops| && ops[i].DndChange? && ops[i].user == user
    && forall j :: i < j < |ops| && ops[j].DndChange? ==> ops[j].user != user
  }

  ghost predicate OnDndList(ops: seq<Op>, user: string) {
    exists i :: LastChange(ops, i, user) && ops[i].registered
  }

  /** A user is registered exactly if the last change for the user says so. */
  lemma {:induction false} RegisteredIff(ops: seq<Op>, user: string)
    ensures user in Run(ops).dnd.registered <==> OnDndList(ops, user)
  {
    if ops != [] {
      var last := |ops| - 1;
      var before, op := ops[..last], ops[last];
      RegisteredIff(before, user);
      RegistryAfter(Run(before), op, user);
      if op.DndChange? && op.user == user {
        assert LastChange(ops, last, user);
      } else {
        forall i ensures LastChange(ops, i, user) <==> LastChange(before, i, user) { }
      }
    }
  }

  lemma RegistryAfter(w: World, op: Op, user: string)
    ensures user in Apply(w, op).dnd.registered <==>
              if op.DndChange? && op.user == user then op.registered else user in w.dnd.registered
  {
  }
}
