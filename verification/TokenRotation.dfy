/** Refresh-token rotation with reuse detection (src/auth/auth.service.ts). Times are in seconds. */
module TokenRotation {
  import opened Redis

  datatype Role = Admin | Operator | Service | User

  datatype Claims = Claims(refresh: bool, sub: string, role: Role, jti: string, family: string, exp: int)

  /** What a caller presents: a string no key of ours signed, or the claims of a signed token. */
  datatype Presented = Unverifiable | Signed(claims: Claims)

  /** The two kinds of keys: jti to family, and the revocation marker of a family. */
  datatype Store = Store(tokens: map<string, Cell<string>>, revoked: map<string, Cell<bool>>)

  function AtLeastOne(ttl: int): int {
    if ttl < 1 then 1 else ttl
  }

  function Redeemable(c: Presented, now: int): bool {
    c.Signed? && now < c.claims.exp && c.claims.refresh && c.claims.jti != "" && c.claims.family != ""
  }

  predicate IsRevoked(s: Store, family: string, now: int) {
    Live(At(s.revoked, family), now)
  }

  /** GETDEL */
  function Consume(s: Store, jti: string): Store {
    s.(tokens := s.tokens - {jti})
  }

  function Revoke(s: Store, family: string, exp: int, now: int): Store {
    s.(revoked := s.revoked[family := SetEx(true, now, AtLeastOne(exp - now))])
  }

  function Issue(s: Store, jti: string, family: string, now: int, lifetime: int): Store {
    s.(tokens := s.tokens[jti := SetEx(family, now, AtLeastOne(lifetime))])
  }

  datatype Outcome = Issued(claims: Claims) | Invalid | SessionRevoked | AlreadyUsed

  class AuthService {
    var store: Store
    const lifetime: int

    constructor (lifetime: int)
      ensures store == Store(map[], map[]) && this.lifetime == lifetime
    {
      store := Store(map[], map[]);
      this.lifetime := lifetime;
    }

    /** `jti` is the fresh random id of the token that may be issued. */
    method IssueToken(sub: string, role: Role, family: string, now: int, jti: string) returns (claims: Claims)
      modifies this
      ensures claims == Claims(true, sub, role, jti, family, now + lifetime)
      ensures store == Issue(old(store), jti, family, now, lifetime)
    {
      claims := Claims(true, sub, role, jti, family, now + lifetime);
      store := store.(tokens := store.tokens[jti := SetEx(family, now, AtLeastOne(claims.exp - now))]);
    }

    method Refresh(presented: Presented, now: int, jti: string) returns (r: Outcome)
      modifies this
      ensures r.Invalid? <==> !Redeemable(presented, now)
      ensures r.Invalid? || r.SessionRevoked? ==> store == old(store)
      ensures r.SessionRevoked? <==> Redeemable(presented, now) && IsRevoked(old(store), presented.claims.family, now)
      ensures r.AlreadyUsed? ==>
                && !Live(At(old(store).tokens, presented.claims.jti), now)
                && store == Revoke(Consume(old(store), presented.claims.jti), presented.claims.family,
                    presented.claims.exp, now)
      ensures r.Issued? ==>
                var c := presented.claims;
                && Live(At(old(store).tokens, c.jti), now)
                && r.claims == Claims(true, c.sub, c.role, jti, c.family, now + lifetime)
                && store == Issue(Consume(old(store), c.jti), jti, c.family, now, lifetime)
    {
      if !presented.Signed? || presented.claims.exp <= now { return Invalid; }
      var c := presented.claims;
      if !c.refresh || c.jti == "" || c.family == "" { return Invalid; }
      if Live(At(store.revoked, c.family), now) { return SessionRevoked; }
      var consumed := Read(At(store.tokens, c.jti), now);
      store := store.(tokens := store.tokens - {c.jti});
      if consumed.None? {
        var ttl := c.exp - now;
        store := store.(revoked := store.revoked[c.family := SetEx(true, now, if ttl < 1 then 1 else ttl)]);
        return AlreadyUsed;
      }
      var claims := IssueToken(c.sub, c.role, c.family, now, jti);
      r := Issued(claims);
    }
  }

  // ---- Refreshes that interleave: every Redis command is a step ----

  datatype Subject = Subject(sub: string, role: Role)

  datatype Flight =
    | Checking(claims: Claims)     // signature verified, about to look for the revocation marker
    | Consuming(claims: Claims)    // about to GETDEL the jti
    | Issuing(subject: Subject, family: string)    // about to SET a fresh jti of this family
    | Done(jti: string)
    | Refused

  /** `signed` holds every refresh token ever signed, `families` who logged in to start each
      family, `redeemed` every successful GETDEL in order. */
  datatype System = System(
    now: int, store: Store, signed: map<string, Claims>, families: map<string, Subject>,
    flights: map<string, Flight>, redeemed: seq<string>)

  datatype Op =
    | Tick(seconds: nat)
    | Login(flight: string, family: string, subject: Subject)
    | Start(flight: string, jti: string)
    | CheckMarker(flight: string)
    | GetDel(flight: string)
    | SetToken(flight: string, jti: string, lifetime: int)

  function Initial(now: int): System {
    System(now, Store(map[], map[]), map[], map[], map[], [])
  }

  predicate Enabled(s: System, op: Op) {
    match op
    case Tick(_) => true
    case Login(f, family, _) => f !in s.flights && family !in s.families && family != ""
    case Start(f, jti) => f !in s.flights && jti in s.signed
    case CheckMarker(f) => f in s.flights && s.flights[f].Checking?
    case GetDel(f) => f in s.flights && s.flights[f].Consuming?
    case SetToken(f, jti, _) => f in s.flights && s.flights[f].Issuing? && jti !in s.signed && jti != ""
  }

  function Apply(s: System, op: Op): System {
    if !Enabled(s, op) then s
    else
      match op
      case Tick(seconds) => s.(now := s.now + seconds)
      case Login(f, family, subject) =>
        s.(families := s.families[family := subject], flights := s.flights[f := Issuing(subject, family)])
      case Start(f, jti) =>
        var found := if Redeemable(Signed(s.signed[jti]), s.now) then Checking(s.signed[jti]) else Refused;
        s.(flights := s.flights[f := found])
      case CheckMarker(f) =>
        var c := s.flights[f].claims;
        s.(flights := s.flights[f := if IsRevoked(s.store, c.family, s.now) then Refused else Consuming(c)])
      case GetDel(f) =>
        var c := s.flights[f].claims;
        var found := Read(At(s.store.tokens, c.jti), s.now);
        var rest := Consume(s.store, c.jti);
        if found.Some? then
          s.(store := rest, flights := s.flights[f := Issuing(Subject(c.sub, c.role), c.family)],
              redeemed := s.redeemed + [c.jti])
        else
          s.(store := Revoke(rest, c.family, c.exp, s.now), flights := s.flights[f := Refused])
      case SetToken(f, jti, lifetime) =>
        var family, subject := s.flights[f].family, s.flights[f].subject;
        s.(store := Issue(s.store, jti, family, s.now, lifetime),
           signed := s.signed[jti := Claims(true, subject.sub, subject.role, jti, family, s.now + lifetime)],
           flights := s.flights[f := Done(jti)])
  }

  function Run(start: int, ops: seq<Op>): System {
    if ops == [] then Initial(start) else Apply(Run(start, ops[..|ops| - 1]), ops[|ops| - 1])
  }

  /** What can still produce a token of a family: a stored jti, or a redemption not yet reissued. */
  datatype Holder = Stored(jti: string) | InFlight(flight: string)

  predicate Holds(s: System, h: Holder, family: string) {
    match h
    case Stored(jti) => jti in s.store.tokens && s.store.tokens[jti].Present? && s.store.tokens[jti].value == family
    case InFlight(f) => f in s.flights && s.flights[f].Issuing? && s.flights[f].family == family
  }

  /** The token names the subject and role that logged in. */
  predicate Belongs(s: System, c: Claims) {
    c.family in s.families && s.families[c.family] == Subject(c.sub, c.role)
  }

  ghost predicate Inv(s: System) {
    && (forall h, g, family :: Holds(s, h, family) && Holds(s, g, family) ==> h == g)
    && (forall h, family :: Holds(s, h, family) ==> family in s.families)
    && (forall jti :: jti in s.store.tokens ==> jti in s.signed && jti !in s.redeemed)
    && (forall jti :: jti in s.signed ==> s.signed[jti].jti == jti && Belongs(s, s.signed[jti]))
    && (forall f :: f in s.flights && s.flights[f].Issuing? ==>
          s.flights[f].family in s.families && s.families[s.flights[f].family] == s.flights[f].subject)
    && (forall jti :: jti in s.store.tokens && s.store.tokens[jti].Present? ==>
        s.store.tokens[jti].value == s.signed[jti].family)
    && (forall jti :: jti in s.redeemed ==> jti in s.signed)
    && (forall i, j :: 0 <= i < j < |s.redeemed| ==> s.redeemed[i] != s.redeemed[j])
    && (forall f :: f in s.flights && (s.flights[f].Checking? || s.flights[f].Consuming?) ==>
          s.flights[f].claims.jti in s.signed && s.signed[s.flights[f].claims.jti] == s.flights[f].claims)
  }

  lemma GetDelKeepsInv(s: System, f: string)
    requires Inv(s) && Enabled(s, GetDel(f))
    ensures Inv(Apply(s, GetDel(f)))
  {
    var c, t := s.flights[f].claims, Apply(s, GetDel(f));
    forall h, family | Holds(t, h, family)
      ensures if h == InFlight(f) then Holds(s, Stored(c.jti), family) else Holds(s, h, family) && h != Stored(c.jti)
    {
    }
  }

  lemma SetTokenKeepsInv(s: System, op: Op)
    requires Inv(s) && op.SetToken? && Enabled(s, op)
    ensures Inv(Apply(s, op))
  {
    var family, t := s.flights[op.flight].family, Apply(s, op);
    forall h, fam | Holds(t, h, fam)
      ensures if h == Stored(op.jti) then Holds(s, InFlight(op.flight), fam)
              else Holds(s, h, fam) && h != InFlight(op.flight)
    {
    }
  }

  lemma OthersKeepInv(s: System, op: Op)
    requires Inv(s) && Enabled(s, op) && !op.GetDel? && !op.SetToken?
    ensures Inv(Apply(s, op))
  {
    var t := Apply(s, op);
    forall h, family | Holds(t, h, family)
      ensures Holds(s, h, family) || (op.Login? && h == InFlight(op.flight) && family == op.family)
    {
    }
  }

  lemma {:induction false} InvHolds(start: int, ops: seq<Op>)
    ensures Inv(Run(start, ops))
  {
    if ops != [] {
      var s, op := Run(start, ops[..|ops| - 1]), ops[|ops| - 1];
      InvHolds(start, ops[..|ops| - 1]);
      if Enabled(s, op) {
        match op {
          case GetDel(f) => GetDelKeepsInv(s, f);
          case SetToken(_, _, _) => SetTokenKeepsInv(s, op);
          case _ => OthersKeepInv(s, op);
        }
      }
    }
  }

  /** Under every interleaving a family has at most one stored jti or pending
      reissue, counted together. */
  lemma OneHolderPerFamily(start: int, ops: seq<Op>, h: Holder, g: Holder, family: string)
    requires Holds(Run(start, ops), h, family) && Holds(Run(start, ops), g, family)
    ensures h == g
  {
    InvHolds(start, ops);
  }

  /** No jti is redeemed twice, and a redeemed one is never stored again. */
  lemma RedeemedOnce(start: int, ops: seq<Op>, i: nat, j: nat)
    requires i < j < |Run(start, ops).redeemed|
    ensures Run(start, ops).redeemed[i] != Run(start, ops).redeemed[j]
    ensures Run(start, ops).redeemed[i] !in Run(start, ops).store.tokens
  {
    InvHolds(start, ops);
  }

  /** Rotation never changes who a family belongs to: every token ever signed for it
      carries the subject and the role of the login that started it. */
  lemma FamilyKeepsSubjectAndRole(start: int, ops: seq<Op>, a: string, b: string)
    requires a in Run(start, ops).signed && b in Run(start, ops).signed
    requires Run(start, ops).signed[a].family == Run(start, ops).signed[b].family
    ensures Run(start, ops).signed[a].sub == Run(start, ops).signed[b].sub
    ensures Run(start, ops).signed[a].role == Run(start, ops).signed[b].role
  {
    InvHolds(start, ops);
  }

  lemma {:induction false} RefusedForGood(start: int, ops: seq<Op>, more: seq<Op>, f: string)
    requires f in Run(start, ops).flights && Run(start, ops).flights[f] == Refused
    ensures f in Run(start, ops + more).flights && Run(start, ops + more).flights[f] == Refused
    decreases |more|
  {
    if more == [] {
      assert ops + more == ops;
    } else {
      var shorter := more[..|more| - 1];
      RefusedForGood(start, ops, shorter, f);
      assert (ops + more)[..|ops + more| - 1] == ops + shorter;
    }
  }

  /** A refresh that looks for the marker while it lives is refused, whatever happens afterwards. */
  lemma RevokedFamilyGetsNothing(start: int, ops: seq<Op>, f: string, more: seq<Op>)
    requires var s := Run(start, ops);
             && Enabled(s, CheckMarker(f))
             && IsRevoked(s.store, s.flights[f].claims.family, s.now)
    ensures var t := Run(start, ops + [CheckMarker(f)] + more);
            f in t.flights && t.flights[f] == Refused
  {
    var next := ops + [CheckMarker(f)];
    assert next[..|next| - 1] == ops;
    RefusedForGood(start, next, more, f);
  }

  // ---- How long a revocation lasts ----

  /** Replaying a used token blocks the family's newer token only until the replayed
      token itself would have expired: from then on, and until its own expiry, the
      newer token works again. */
  lemma RevocationWindow(s: System, f: string, jti: string, later: int)
    requires Inv(s) && Enabled(s, GetDel(f)) && later >= s.now
    requires Read(At(s.store.tokens, s.flights[f].claims.jti), s.now) == None
    requires jti in s.store.tokens && jti != s.flights[f].claims.jti
    requires s.store.tokens[jti].Present? && s.store.tokens[jti].expiry.Some?
    requires s.store.tokens[jti].value == s.flights[f].claims.family
    ensures var t := Apply(s, GetDel(f)).store;
            var c := s.flights[f].claims;
            (Live(At(t.tokens, jti), later) && !IsRevoked(t, c.family, later))
            <==> s.now + AtLeastOne(c.exp - s.now) <= later < s.store.tokens[jti].expiry.value
  {
  }

  lemma Extend(start: int, ops: seq<Op>, op: Op) returns (longer: seq<Op>)
    ensures longer == ops + [op] && Run(start, longer) == Apply(Run(start, ops), op)
  {
    longer := ops + [op];
    assert longer[..|ops|] == ops;
  }

  const DAY := 86_400

  lemma LoggedIn() returns (ops: seq<Op>)
    ensures var s := Run(0, ops);
            && s.now == DAY && s.store == Store(map["t1" := Present("family", Some(7 * DAY))], map[])
            && s.signed == map["t1" := Claims(true, "u", User, "t1", "family", 7 * DAY)]
            && s.families == map["family" := Subject("u", User)]
            && s.flights.Keys == {"login"}
  {
    ops := Extend(0, [], Login("login", "family", Subject("u", User)));
    ops := Extend(0, ops, SetToken("login", "t1", 7 * DAY));
    ops := Extend(0, ops, Tick(DAY));
  }

  /** Log in, rotate on day 1, and replay the first token on day 2. */
  lemma Rotated() returns (ops: seq<Op>)
    ensures var s := Run(0, ops);
            && s.now == DAY && s.store == Store(map["t2" := Present("family", Some(8 * DAY))], map[])
            && s.signed.Keys == {"t1", "t2"} && s.flights.Keys == {"login", "rotate"}
            && s.signed["t1"] == Claims(true, "u", User, "t1", "family", 7 * DAY)
            && s.signed["t2"] == Claims(true, "u", User, "t2", "family", 8 * DAY)
  {
    ops := LoggedIn();
    ops := Extend(0, ops, Start("rotate", "t1"));
    ops := Extend(0, ops, CheckMarker("rotate"));
    ops := Extend(0, ops, GetDel("rotate"));
    assert Run(0, ops).flights["rotate"] .Issuing?;
    assert Run(0, ops).store == Store(map[], map[]);
    ops := Extend(0, ops, SetToken("rotate", "t2", 7 * DAY));
  }

  lemma Replayed() returns (ops: seq<Op>)
    ensures var s := Run(0, ops);
            && s.now == 2 * DAY
            && s.store == Store(map["t2" := Present("family", Some(8 * DAY))],
                map["family" := Present(true, Some(7 * DAY))])
            && s.signed.Keys == {"t1", "t2"} && s.flights.Keys == {"login", "rotate", "replay"}
            && s.signed["t2"] == Claims(true, "u", User, "t2", "family", 8 * DAY)
            && s.flights["replay"] == Refused
  {
    ops := Rotated();
    ops := Extend(0, ops, Tick(DAY));
    ops := Extend(0, ops, Start("replay", "t1"));
    ops := Extend(0, ops, CheckMarker("replay"));
    assert Run(0, ops).flights["replay"].Consuming?;
    ops := Extend(0, ops, GetDel("replay"));
    assert Run(0, ops).store.tokens == map["t2" := Present("family", Some(8 * DAY))];
  }

  /** So a revoked family comes back: the token of day 1 is redeemed on day 7.5,
      although the reuse of its predecessor was detected on day 2. */
  lemma RevokedFamilyComesBack() returns (ops: seq<Op>)
    ensures var s := Run(0, ops);
            && s.now == 648_000
            && "family" in s.store.revoked
            && "replay" in s.flights && s.flights["replay"] == Refused
            && "revival" in s.flights && s.flights["revival"] == Done("t3")
  {
    ops := Replayed();
    ops := Extend(0, ops, Tick(475_200));
    ops := Extend(0, ops, Start("revival", "t2"));
    assert Run(0, ops).flights["revival"].Checking?;
    ops := Extend(0, ops, CheckMarker("revival"));
    assert Run(0, ops).flights["revival"].Consuming?;
    ops := Extend(0, ops, GetDel("revival"));
    assert Run(0, ops).flights["revival"] .Issuing?;
    ops := Extend(0, ops, SetToken("revival", "t3", 7 * DAY));
  }
}
