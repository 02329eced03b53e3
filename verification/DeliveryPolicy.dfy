/** What reaches a provider, over whole runs with consent and DND changing in between. */
module DeliveryPolicy {
  import opened Redis
  import opened Events
  import opened States
  import opened Compliance
  import opened Delivery
  import opened DeliveryRuns
  import opened ConsentRuns

  predicate Enforced(op: Op) {
    op.Deliver? ==> op.env.mode == Enforce
  }

  predicate EnforcedRun(ops: seq<Op>) {
    forall i :: 0 <= i < |ops| ==> Enforced(ops[i])
  }

  /** A digest takes its classification from what it folds; it never goes by SMS. */
  predicate Classified(row: Row) {
    && (row.channel == Sms ==> row.event.category != Digest)
    && (row.event.category != Digest ==> row.classification == Classify(row.event))
  }

  ghost predicate PolicyInv(w: World) {
    && CacheCurrent(w.dnd)
    && (forall id :: id in w.rows ==> Classified(w.rows[id]))
  }

  lemma RoundKeepsClassified(row: Row, verdict: Verdict)
    requires Classified(row)
    ensures Classified(RowAfter(row, verdict))
  {
  }

  lemma RoundKeepsPolicy(w: World, t: World, id: string, row: Row, verdict: Verdict, env: Env)
    requires PolicyInv(w) && Round(w, t, id, row, verdict, env)
    requires row == Resumed(w.rows[id]) || row == Resumed(w.rows[id]).(classification := Classify(row.event))
    ensures PolicyInv(t)
  {
    assert Classified(w.rows[id]);
    assert Classified(row);
    RoundKeepsClassified(row, verdict);
    DndStep(w.dnd, Lookup(row.user, env.now), row.user, env.now);
  }

  lemma DeliverKeepsPolicy(w: World, id: string, env: Env)
    requires PathInv(w) && PolicyInv(w) && w.queue[id] > 0
    ensures PolicyInv(Handled(w, id, env))
  {
    assert TokenOk(w, id);
    var row, verdict := HandlingIsARound(w, id, env);
    RoundKeepsPolicy(w, Handled(w, id, env), id, row, verdict, env);
  }

  /** Every other step leaves events, channels and classifications alone. */
  lemma RewrittenRow(w: World, t: World, id: string)
    requires PolicyInv(w) && id in w.rows && id in t.rows && t.rows == w.rows[id := t.rows[id]] && t.dnd == w.dnd
    requires t.rows[id] == w.rows[id].(status := t.rows[id].status, log := t.rows[id].log)
    ensures PolicyInv(t)
  {
    assert Classified(w.rows[id]);
  }

  lemma RenderedRow(w: World, id: string, channel: Channel)
    requires PolicyInv(w) && Possible(w, Render(id, channel))
    ensures PolicyInv(Rendered(w, id, channel))
  {
    assert Classified(w.rows[id]);
  }

  lemma DndStepKeepsPolicy(w: World, t: World, op: DndOp)
    requires PolicyInv(w) && t.rows == w.rows && t.dnd == ApplyDnd(w.dnd, op)
    ensures PolicyInv(t)
  {
    DndStep(w.dnd, op, "", 0);
  }

  lemma ApplyKeepsPolicy(w: World, op: Op)
    requires PathInv(w) && PolicyInv(w)
    ensures PolicyInv(Apply(w, op))
  {
    if Possible(w, op) {
      match op {
        case Deliver(id, env) => DeliverKeepsPolicy(w, id, env);
        case Requeue(slot) => RewrittenRow(w, Requeued(w, slot), slot.id);
        case Render(id, channel) => RenderedRow(w, id, channel);
        case Transition(id, to) => RewrittenRow(w, MovedTo(w, id, to), id);
        case Fold(id) => RewrittenRow(w, Folded(w, id), id);
        case DndChange(user, registered) => DndStepKeepsPolicy(w, Apply(w, op), Change(user, registered));
        case DndRefresh(users, now) => DndStepKeepsPolicy(w, Apply(w, op), Refresh(users, now));
        case _ =>
      }
    }
  }

  lemma {:induction false} PolicyInvHolds(ops: seq<Op>)
    ensures PathInv(Run(ops)) && PolicyInv(Run(ops))
  {
    PathInvHolds(ops);
    if ops != [] {
      PolicyInvHolds(ops[..|ops| - 1]);
      ApplyKeepsPolicy(Run(ops[..|ops| - 1]), ops[|ops| - 1]);
    }
  }

  /** What must be true of the system for a call to be made. */
  predicate Cleared(w: World, s: Send) {
    && (s.channel == WhatsApp ==> HasConsent(w.consent, s.user, WhatsApp))
    && (s.channel == Email && s.event.category != Digest && Classify(s.event) == Promotional ==>
          HasConsent(w.consent, s.user, Email))
    && (s.channel == Sms && Classify(s.event) == Promotional ==>
          HasConsent(w.consent, s.user, Sms) && s.user !in w.dnd.registered)
  }

  lemma CallsAreCleared(w: World, id: string, stored: Row, env: Env, i: nat)
    requires CacheCurrent(w.dnd) && Classified(stored) && env.mode == Enforce
    requires var verdict := Judge(w, stored, env);
             i < |CallsMade(id, stored, verdict, env)|
    ensures Cleared(w, CallsMade(id, stored, Judge(w, stored, env), env)[i])
  {
    assert Judge(w, stored, env).Success? || Judge(w, stored, env).Failure?;
    DndStep(w.dnd, Lookup(stored.user, env.now), stored.user, env.now);
  }

  /** One round in enforce mode: every call it adds is cleared by the consent log and the
      registry as they stand at that moment. */
  lemma RoundIsCleared(w: World, id: string, env: Env, i: nat)
    requires PathInv(w) && PolicyInv(w) && w.queue[id] > 0 && env.mode == Enforce
    requires |w.sends| <= i < |Handled(w, id, env).sends|
    ensures Handled(w, id, env).sends[..|w.sends|] == w.sends
    ensures Cleared(w, Handled(w, id, env).sends[i])
  {
    assert TokenOk(w, id) && Classified(w.rows[id]);
    var row, verdict := HandlingIsARound(w, id, env);
    var found := Resumed(w.rows[id]);
    assert CallsMade(id, row, verdict, env) == CallsMade(id, found, verdict, env);
    CallsAreCleared(w, id, found, env, i - |w.sends|);
  }

  lemma SendsOnlyGrow(w: World, op: Op)
    requires PathInv(w)
    ensures w.sends <= Apply(w, op).sends
    ensures Apply(w, op).sends != w.sends ==> Possible(w, op) && op.Deliver?
  {
    if Possible(w, op) && op.Deliver? {
      assert TokenOk(w, op.id);
      var row, verdict := HandlingIsARound(w, op.id, op.env);
    }
  }

  /** The same, by what the users did: opted in last, and not on the DND list. */
  ghost predicate ClearedBy(before: seq<Op>, s: Send) {
    var promotional := Classify(s.event) == Promotional;
    && (s.channel == WhatsApp ==> OptedIn(before, s.user, WhatsApp))
    && (s.channel == Email && s.event.category != Digest && promotional ==> OptedIn(before, s.user, Email))
    && (s.channel == Sms && promotional ==> OptedIn(before, s.user, Sms) && !OnDndList(before, s.user))
  }

  lemma ClearedByHistory(before: seq<Op>, s: Send)
    requires Cleared(Run(before), s)
    ensures ClearedBy(before, s)
  {
    HasConsentIff(before, s.user, s.channel);
    RegisteredIff(before, s.user);
  }

  ghost predicate MadeBy(ops: seq<Op>, k: nat, i: nat)
    requires k < |ops| && i < |Run(ops).sends|
  {
    && ops[k].Deliver? && Possible(Run(ops[..k]), ops[k])
    && |Run(ops[..k]).sends| <= i < |Run(ops[..k + 1]).sends|
    && ClearedBy(ops[..k], Run(ops).sends[i])
  }

  lemma MadeEarlier(ops: seq<Op>, k: nat, i: nat)
    requires ops != [] && k < |ops| - 1 && i < |Run(ops[..|ops| - 1]).sends|
    requires Run(ops[..|ops| - 1]).sends <= Run(ops).sends
    requires MadeBy(ops[..|ops| - 1], k, i)
    ensures MadeBy(ops, k, i)
  {
    var before := ops[..|ops| - 1];
    assert before[..k] == ops[..k] && before[..k + 1] == ops[..k + 1];
  }

  lemma MadeLast(ops: seq<Op>, i: nat)
    requires ops != [] && Enforced(ops[|ops| - 1])
    requires |Run(ops[..|ops| - 1]).sends| <= i < |Run(ops).sends|
    ensures MadeBy(ops, |ops| - 1, i)
  {
    var w, op := Run(ops[..|ops| - 1]), ops[|ops| - 1];
    PolicyInvHolds(ops[..|ops| - 1]);
    SendsOnlyGrow(w, op);
    assert ops[..|ops|] == ops;
    RoundIsCleared(w, op.id, op.env, i);
    ClearedByHistory(ops[..|ops| - 1], Run(ops).sends[i]);
  }

  /** In every run, every provider call belongs to a delivery at whose moment the user had
      last opted in, where that is needed, and was not on the DND list. */
  lemma {:induction false} EverySendWasCleared(ops: seq<Op>, i: nat)
    requires EnforcedRun(ops) && i < |Run(ops).sends|
    ensures exists k :: 0 <= k < |ops| && MadeBy(ops, k, i)
  {
    var before := ops[..|ops| - 1];
    PathInvHolds(before);
    SendsOnlyGrow(Run(before), ops[|ops| - 1]);
    if i < |Run(before).sends| {
      EverySendWasCleared(before, i);
      var k :| 0 <= k < |before| && MadeBy(before, k, i);
      MadeEarlier(ops, k, i);
    } else {
      MadeLast(ops, i);
    }
  }

  predicate NeedsOptIn(row: Row) {
    row.channel == WhatsApp || (row.channel in {Sms, Email} && row.classification == Promotional)
  }

  /** Unless the user's last record for the channel opts in, the next delivery that needs
      consent calls nobody; with the lookups working it settles as NO_CONSENT. */
  lemma WithdrawalStopsDelivery(ops: seq<Op>, id: string, env: Env)
    requires Possible(Run(ops), Deliver(id, env)) && env.mode == Enforce && id in Run(ops).rows
    requires var row := Run(ops).rows[id]; NeedsOptIn(row) && !OptedIn(ops, row.user, row.channel)
    ensures var t := Handled(Run(ops), id, env);
            && t.sends == Run(ops).sends
            && id in t.rows
            && (env.contactFound && env.consentUp ==> t.rows[id].status == NoConsent)
  {
    PathInvHolds(ops);
    HasConsentIff(ops, Run(ops).rows[id].user, Run(ops).rows[id].channel);
    WithdrawnRound(Run(ops), id, env);
  }

  /** An opt-out, made last, is such a case, for whatever channel it was made. */
  lemma OptOutStopsDelivery(ops: seq<Op>, i: int, id: string, env: Env)
    requires Possible(Run(ops), Deliver(id, env)) && env.mode == Enforce && id in Run(ops).rows
    requires NeedsOptIn(Run(ops).rows[id])
    requires LastConsent(ops, i, Run(ops).rows[id].user, Run(ops).rows[id].channel)
    requires ops[i].record.kind in {OptOut, WhatsAppOptOut}
    ensures var t := Handled(Run(ops), id, env);
            && t.sends == Run(ops).sends
            && id in t.rows
            && (env.contactFound && env.consentUp ==> t.rows[id].status == NoConsent)
  {
    LatestIsLastConsent(ops, Run(ops).rows[id].user, Run(ops).rows[id].channel);
    WithdrawalStopsDelivery(ops, id, env);
  }

  /** And an opt-in, made last, lets the delivery go exactly as if no consent were asked. */
  lemma OptInPasses(ops: seq<Op>, i: int, id: string, env: Env)
    requires Possible(Run(ops), Deliver(id, env)) && env.consentUp && id in Run(ops).rows
    requires LastConsent(ops, i, Run(ops).rows[id].user, Run(ops).rows[id].channel)
    requires ops[i].record.kind in {OptIn, WhatsAppOptIn}
    ensures Handled(Run(ops), id, env) == Handled(Run(ops), id, env.(mode := Off))
    ensures id in Handled(Run(ops), id, env).rows && Handled(Run(ops), id, env).rows[id].status != NoConsent
  {
    var row := Run(ops).rows[id];
    PathInvHolds(ops);
    HasConsentIff(ops, row.user, row.channel);
    GrantedRound(Run(ops), id, env);
  }

  /** Nobody is asked for consent where none is needed. */
  lemma NoOptInNeeded(ops: seq<Op>, id: string, env: Env)
    requires Possible(Run(ops), Deliver(id, env)) && id in Run(ops).rows && !NeedsOptIn(Run(ops).rows[id])
    ensures Handled(Run(ops), id, env) == Handled(Run(ops), id, env.(mode := Off))
    ensures id in Handled(Run(ops), id, env).rows && Handled(Run(ops), id, env).rows[id].status != NoConsent
  {
    PathInvHolds(ops);
    GrantedRound(Run(ops), id, env);
  }

  predicate Agreed(w: World, row: Row, env: Env) {
    || !RequiresConsent(row.channel, row.classification)
    || (env.consentUp && HasConsent(w.consent, row.user, row.channel))
  }

  lemma ModeMakesNoDifference(w: World, row: Row, env: Env)
    requires Agreed(w, row, env)
    ensures Judge(w, row, env) == Judge(w, row, env.(mode := Off))
    ensures ChecksDnd(w, row, env) == ChecksDnd(w, row, env.(mode := Off))
    ensures Judge(w, row, env) != Stopped(NoConsent)
  {
  }

  lemma DispatchedAlike(w: World, id: string, env: Env)
    requires id in w.rows && Agreed(w, w.rows[id], env)
    ensures Dispatched(w, id, env) == Dispatched(w, id, env.(mode := Off))
  {
    ModeMakesNoDifference(w, w.rows[id], env);
    var row, verdict := CheckedRow(w, w.rows[id], env), Judge(w, w.rows[id], env);
    assert RetryAfter(w.retry, id, row, verdict, env) == RetryAfter(w.retry, id, row, verdict, env.(mode := Off));
    assert CallsMade(id, row, verdict, env) == CallsMade(id, row, verdict, env.(mode := Off));
  }

  lemma GrantedRound(w: World, id: string, env: Env)
    requires PathInv(w) && w.queue[id] > 0 && id in w.rows && Agreed(w, w.rows[id], env)
    ensures Handled(w, id, env) == Handled(w, id, env.(mode := Off))
    ensures id in Handled(w, id, env).rows && Handled(w, id, env).rows[id].status != NoConsent
  {
    assert TokenOk(w, id);
    var found := Resumed(w.rows[id]);
    var taken := w.(queue := w.queue - multiset{id}, rows := w.rows[id := found]);
    ModeMakesNoDifference(w, found, env);
    DispatchedAlike(taken, id, env);
    HandledIsDispatched(w, id, env);
    HandledIsDispatched(w, id, env.(mode := Off));
    var row, verdict := HandlingIsARound(w, id, env);
    NotStopped(row, verdict);
  }

  lemma NotStopped(row: Row, verdict: Verdict)
    requires row.status == Queued && verdict != Stopped(NoConsent)
    ensures RowAfter(row, verdict).status != NoConsent
  {
  }

  lemma WithdrawnRound(w: World, id: string, env: Env)
    requires PathInv(w) && w.queue[id] > 0 && env.mode == Enforce && id in w.rows
    requires RequiresConsent(w.rows[id].channel, w.rows[id].classification)
    requires !HasConsent(w.consent, w.rows[id].user, w.rows[id].channel)
    ensures var t := Handled(w, id, env);
            && t.sends == w.sends
            && id in t.rows
            && (env.contactFound && env.consentUp ==> t.rows[id].status == NoConsent)
  {
    assert TokenOk(w, id);
    var row, verdict := HandlingIsARound(w, id, env);
    assert row == Resumed(w.rows[id]);
    assert CallsMade(id, row, verdict, env) == [];
  }

  /** The states a round can end in when the provider decides it. */
  function StatusByProvider(row: Row, env: Env): Status {
    if env.primary.Succeeds? then (if env.primary.receipt then Delivered else Sent)
    else if row.channel == Sms && env.fallback.Succeeds? then (if env.fallback.receipt then Delivered else Sent)
    else if Exhausted(row) then Dlq else Failed
  }

  lemma CriticalVerdict(w: World, row: Row, env: Env)
    requires row.event in CRITICAL_EVENTS && row.channel in {Sms, Email, Push, InApp} && Classified(row)
    requires env.contactFound
    ensures Judge(w, row, env) == ProviderVerdict(row.channel, env)
  {
    CriticalIsTransactional(row.event, row.channel);
  }

  /** Resuming, and the DND audit write, change nothing a provider sees. */
  lemma ProviderDecides(id: string, stored: Row, row: Row, env: Env)
    requires FoundAs(stored, row) && !row.channel.Other?
    ensures var verdict := ProviderVerdict(row.channel, env);
            && row.channel == stored.channel
            && RowAfter(row, verdict).status == StatusByProvider(stored, env)
            && CallsMade(id, row, verdict, env) == CallsMade(id, stored, verdict, env)
            && (!env.primary.CircuitOpen? ==>
                  CallsMade(id, row, verdict, env) != []
                      && CallsMade(id, row, verdict, env)[0].channel == stored.channel)
  {
  }

  lemma CriticalRound(w: World, id: string, env: Env)
    requires PathInv(w) && PolicyInv(w) && w.queue[id] > 0 && env.contactFound && id in w.rows
    requires w.rows[id].event in CRITICAL_EVENTS && w.rows[id].channel in {Sms, Email, Push, InApp}
    ensures var t, row := Handled(w, id, env), w.rows[id];
            && id in t.rows
            && t.rows[id].status == StatusByProvider(row, env)
            && t.sends == w.sends + CallsMade(id, row, ProviderVerdict(row.channel, env), env)
            && (!env.primary.CircuitOpen? ==> |t.sends| > |w.sends| && t.sends[|w.sends|].channel == row.channel)
  {
    assert TokenOk(w, id) && Classified(w.rows[id]);
    var row, verdict := HandlingIsARound(w, id, env);
    CriticalVerdict(w, Resumed(w.rows[id]), env);
    ProviderDecides(id, w.rows[id], row, env);
  }

  /** A CRITICAL event by SMS, push, email or in-app passes both checks, whatever the
      consent log, the registry and the enforcement mode: its next round with a resolvable
      recipient calls the provider, unless an open circuit refuses. */
  lemma CriticalReachesProvider(ops: seq<Op>, id: string, env: Env)
    requires Possible(Run(ops), Deliver(id, env)) && env.contactFound && id in Run(ops).rows
    requires Run(ops).rows[id].event in CRITICAL_EVENTS
    requires Run(ops).rows[id].channel in {Sms, Email, Push, InApp}
    ensures var w, t, row := Run(ops), Handled(Run(ops), id, env), Run(ops).rows[id];
            && id in t.rows
            && t.rows[id].status == StatusByProvider(row, env)
            && (!env.primary.CircuitOpen? ==> |t.sends| > |w.sends| && t.sends[|w.sends|].channel == row.channel)
  {
    PolicyInvHolds(ops);
    CriticalRound(Run(ops), id, env);
  }
}
