/** Which requests of the auth service succeed, exactly: every answer is the one that the history of what was
    handed out, redeemed and revoked gives, without a look at the tables. */
module AuthExact {
  import opened RuntimeTypes
  import opened AuthTokens
  import opened AuthStore
  import opened AuthTraces
  import opened AuthHistory

  /* ---- the answers, from the history ---- */

  /** A link needs a name, allowed scopes, and an identifier and a code of its own. */
  ghost predicate CanLink(log: seq<Event>, q: Request)
    requires q.CreateLink?
  {
    && Trim(q.name) != "" && ByteLength(Trim(q.name)) <= 120
    && (forall i :: 0 <= i < |q.scopes| ==> Trim(q.scopes[i]) in ALLOWED)
    && !LinkedAs(log, q.id) && !CodeUsed(log, q.code)
  }

  /** The code is that of a link which is not used up and has not expired. */
  ghost predicate Redeems(log: seq<Event>, conf: Config, code: string, now: Time, e: Event) {
    && e in log && e.Linked? && e.code == code && code != "" && ByteLength(code) <= 512
    && !PairedFrom(log, e.grant) && now < Micro(e.at + Configured(conf).pairingTTL)
  }

  ghost predicate NewIds(log: seq<Event>, q: Request)
    requires q.Pair?
  {
    !HasClient(log, q.client) && !HasSession(log, q.session) && !Minted(log, q.token)
  }

  /** The bearer is a token and the secret handed out with it, by one pairing or refresh; its session is not
      over and the token has not expired. */
  ghost predicate Opens(log: seq<Event>, conf: Config, bearer: string, now: Time, e: Event) {
    && e in log && Mints(e) && Presents(bearer, "at", e.token, e.access)
    && !Over(log, e.session) && now < Micro(e.at + Configured(conf).accessTTL)
  }

  /** The client of the session, with the name and the normalised scopes that its link asked for. */
  ghost predicate IsPrincipal(log: seq<Event>, p: Principal) {
    exists pair, link :: pair in log && link in log && Introduces(pair, link, p)
  }

  ghost predicate Introduces(pair: Event, link: Event, p: Principal) {
    && pair.Paired? && link.Linked? && link.grant == pair.grant
    && p.session == pair.session && p.client == pair.client
    && p.name == Trim(link.name) && ScopesAs(link.scopes, p.scopes)
  }

  /** The session was opened, its time has not run out, and nothing ended it. */
  ghost predicate StillOpen(log: seq<Event>, conf: Config, session: string, now: Time) {
    && !Over(log, session)
    && exists e :: e in log && e.Paired? && e.session == session && now < Micro(e.at + Configured(conf).refreshTTL)
  }

  /* ---- links and pairings ---- */

  /** A link is created exactly when it can be. */
  lemma LinkExact(st: State, conf: Config, q: Request)
    requires Backed(st, conf) && q.CreateLink?
    ensures Link(st, conf, q).log
            == if CanLink(st.log, q) then st.log + [Linked(q.id, q.code, q.name, q.scopes, q.now)] else st.log
  {
    NormalizeExact(q.scopes);
    GrantTaken(st.db.grants, st.log, conf, q.id);
    CodeTaken(st.db.grants, st.log, conf, q.code);
  }

  lemma GrantTaken(grants: map<string, Grant>, log: seq<Event>, conf: Config, id: string)
    requires GrantsBacked(grants, log, conf)
    ensures id in grants <==> LinkedAs(log, id)
  {
  }

  lemma CodeTaken(grants: map<string, Grant>, log: seq<Event>, conf: Config, code: string)
    requires GrantsBacked(grants, log, conf)
    ensures GrantWith(grants, Hash(code)).Some? <==> CodeUsed(log, code)
    ensures forall g :: HoldsCode(grants, g, Hash(code)) ==>
              exists e :: e in log && e.Linked? && e.grant == g && e.code == code && Links(e, conf, grants[g])
  {
    forall g | HoldsCode(grants, g, Hash(code))
      ensures exists e :: e in log && e.Linked? && e.grant == g && e.code == code && Links(e, conf, grants[g])
    {
      assert LinkedAs(log, g);
      var e :| e in log && e.Linked? && e.grant == g;
      assert Links(e, conf, grants[g]);
    }
    if CodeUsed(log, code) {
      var e :| e in log && e.Linked? && e.code == code;
      assert Links(e, conf, grants[e.grant]);
      assert HoldsCode(grants, e.grant, Hash(code));
    }
  }

  /** No two links share a code. */
  ghost predicate CodesApart(log: seq<Event>) {
    forall e, f :: e in log && f in log && e.Linked? && f.Linked? && e.code == f.code ==> e.grant == f.grant
  }

  lemma StepApart(st: State, conf: Config, q: Request)
    requires Backed(st, conf) && CodesApart(st.log)
    ensures CodesApart(Step(st, conf, q).log)
  {
    var next := Step(st, conf, q);
    if q.CreateLink? {
      LinkExact(st, conf, q);
      if next.log != st.log {
        var e := Linked(q.id, q.code, q.name, q.scopes, q.now);
        assert forall x :: x in next.log <==> x in st.log || x == e;
        assert forall x :: x in st.log && x.Linked? ==> x.code != q.code;
      }
    } else {
      OnlyLinksLink(st, conf, q);
    }
  }

  lemma OnlyLinksLink(st: State, conf: Config, q: Request)
    requires !q.CreateLink?
    ensures forall x :: x in Step(st, conf, q).log && x.Linked? ==> x in st.log
  {
  }

  /** A pairing succeeds exactly with the code of a link that can still be redeemed and new identifiers, and
      then it uses up that link. */
  lemma PairExact(st: State, conf: Config, q: Request)
    requires Backed(st, conf) && CodesApart(st.log) && q.Pair?
    ensures var next, code := Pairing(st, conf, q).log, Trim(q.code);
            if NewIds(st.log, q) && exists e :: Redeems(st.log, conf, code, q.now, e) then
              exists e :: Redeems(st.log, conf, code, q.now, e) && next == st.log + [PairedAs(e.grant, q)]
            else next == st.log
  {
    var code := Trim(q.code);
    PairingShape(st, conf, q);
    CodeTaken(st.db.grants, st.log, conf, code);
    IdsTaken(st, conf, q);
    var holder := GrantWith(st.db.grants, Hash(code));
    if holder.Some? {
      var e :| e in st.log && e.Linked? && e.grant == holder.value && e.code == code
               && Links(e, conf, st.db.grants[holder.value]);
      ExchangeAnswers(st.db, Hash(code), q.now, PairMaterial(conf, q));
      HolderRedeems(st, conf, code, q.now, e);
    }
  }

  lemma IdsTaken(st: State, conf: Config, q: Request)
    requires Backed(st, conf) && q.Pair?
    ensures NewIds(st.log, q) <==>
              q.client !in st.db.clients && q.session !in st.db.sessions && q.token !in st.db.tokens
  {
  }

  lemma ExchangeAnswers(db: Tables, code: Hash, now: Time, m: Material)
    requires GrantWith(db.grants, code).Some?
    ensures var g := GrantWith(db.grants, code).value;
            Exchange(db, code, now, m).Done? <==>
              && g in db.grants && db.grants[g].consumedAt.None? && now < db.grants[g].expiresAt
              && m.client !in db.clients && m.session !in db.sessions && m.token !in db.tokens
  {
  }

  lemma LinkExpires(grants: map<string, Grant>, log: seq<Event>, conf: Config, e: Event)
    requires AllLinked(grants, log, conf) && e in log && e.Linked?
    ensures e.grant in grants && grants[e.grant].expiresAt == Micro(e.at + Configured(conf).pairingTTL)
  {
  }

  lemma GrantUsed(grants: map<string, Grant>, log: seq<Event>, g: string)
    requires GrantsUsed(grants, log) && g in grants
    ensures grants[g].consumedAt.Some? <==> PairedFrom(log, g)
  {
  }

  lemma LinkFacts(grants: map<string, Grant>, log: seq<Event>, conf: Config, e: Event)
    requires GrantsBacked(grants, log, conf) && e in log && e.Linked?
    ensures e.grant in grants && (grants[e.grant].consumedAt.Some? <==> PairedFrom(log, e.grant))
    ensures grants[e.grant].expiresAt == Micro(e.at + Configured(conf).pairingTTL)
  {
    LinkExpires(grants, log, conf, e);
    GrantUsed(grants, log, e.grant);
  }

  /** With the link's row at hand, what redeeming comes to. */
  lemma RowRedeems(log: seq<Event>, conf: Config, code: string, now: Time, e: Event, grant: Grant)
    requires e in log && e.Linked? && e.code == code && (grant.consumedAt.Some? <==> PairedFrom(log, e.grant))
    requires grant.expiresAt == Micro(e.at + Configured(conf).pairingTTL)
    ensures Redeems(log, conf, code, now, e) <==>
              code != "" && ByteLength(code) <= 512 && grant.consumedAt.None? && now < grant.expiresAt
  {
  }

  lemma HolderRedeems(st: State, conf: Config, code: string, now: Time, e: Event)
    requires GrantsBacked(st.db.grants, st.log, conf) && CodesApart(st.log)
    requires e in st.log && e.Linked? && e.code == code && e.grant in st.db.grants
    ensures var grant := st.db.grants[e.grant];
            Redeems(st.log, conf, code, now, e) <==>
              code != "" && ByteLength(code) <= 512 && grant.consumedAt.None? && now < grant.expiresAt
    ensures (exists x :: Redeems(st.log, conf, code, now, x)) <==> Redeems(st.log, conf, code, now, e)
  {
    LinkFacts(st.db.grants, st.log, conf, e);
    RowRedeems(st.log, conf, code, now, e, st.db.grants[e.grant]);
    if x :| Redeems(st.log, conf, code, now, x) {
      SameLink(st.db.grants, st.log, conf, e, x);
      RowRedeems(st.log, conf, code, now, x, st.db.grants[e.grant]);
    }
  }

  lemma SameLink(grants: map<string, Grant>, log: seq<Event>, conf: Config, e: Event, x: Event)
    requires GrantsBacked(grants, log, conf) && CodesApart(log)
    requires e in log && x in log && e.Linked? && x.Linked? && e.code == x.code
    ensures e.grant == x.grant
    ensures Micro(e.at + Configured(conf).pairingTTL) == Micro(x.at + Configured(conf).pairingTTL)
  {
    LinkFacts(grants, log, conf, e);
    LinkFacts(grants, log, conf, x);
  }

  /* ---- authentication ---- */

  lemma AuthenticateAnswers(db: Tables, token: string, presented: Hash, now: Time)
    ensures var out := Authenticate(db, token, presented, now);
            && (out.Done? <==>
                  && token in db.tokens && db.tokens[token].session in db.sessions
                  && db.tokens[token].client in db.clients
                  && db.tokens[token].hash == presented && db.tokens[token].revokedAt.None?
                  && db.sessions[db.tokens[token].session].revokedAt.None?
                  && db.clients[db.tokens[token].client].revokedAt.None? && now < db.tokens[token].expiresAt)
            && (out.Done? ==>
                  && out.value.client == db.tokens[token].client && out.value.session == db.tokens[token].session
                  && out.value.name == db.clients[db.tokens[token].client].name
                  && out.value.scopes == db.tokens[token].scopes)
  {
  }

  /** What the tables hold of a token that was handed out. */
  ghost predicate TokenHeld(db: Tables, log: seq<Event>, conf: Config, e: Event)
    requires Mints(e)
  {
    && e.token in db.tokens && e.session in db.sessions && db.tokens[e.token].client in db.clients
    && db.tokens[e.token].session == e.session && db.tokens[e.token].hash == Hash(e.access)
    && db.tokens[e.token].expiresAt == Micro(e.at + Configured(conf).accessTTL)
    && (db.sessions[e.session].revokedAt.Some? <==> Over(log, e.session))
    && (db.tokens[e.token].revokedAt.Some? ==> db.sessions[e.session].revokedAt.Some?)
    && (db.clients[db.tokens[e.token].client].revokedAt.Some? ==> db.sessions[e.session].revokedAt.Some?)
  }

  lemma TokenFacts(db: Tables, log: seq<Event>, conf: Config, e: Event)
    requires TokensBacked(db.tokens, log, conf) && RevokedBacked(db, log) && SessionsOk(db, conf) && TokensOk(db, conf)
    requires e in log && Mints(e)
    ensures TokenHeld(db, log, conf, e)
  {
    assert TokenOk(db, conf, db.tokens[e.token]);
  }

  lemma HeldOpens(db: Tables, log: seq<Event>, conf: Config, bearer: string, now: Time, e: Event)
    requires e in log && Mints(e) && TokenHeld(db, log, conf, e) && Presents(bearer, "at", e.token, e.access)
    ensures Opens(log, conf, bearer, now, e) <==> Authenticate(db, e.token, Hash(e.access), now).Done?
  {
    AuthenticateAnswers(db, e.token, Hash(e.access), now);
  }

  /** The token's event says whether it opens anything. */
  lemma TokenOpens(st: State, conf: Config, bearer: string, now: Time, e: Event)
    requires Backed(st, conf) && AuthOk(st.db, conf) && e in st.log && Mints(e)
    requires Presents(bearer, "at", e.token, e.access)
    ensures Opens(st.log, conf, bearer, now, e) <==> Authenticate(st.db, e.token, Hash(e.access), now).Done?
  {
    TokenFacts(st.db, st.log, conf, e);
    HeldOpens(st.db, st.log, conf, bearer, now, e);
  }

  lemma PrincipalKnown(st: State, conf: Config, token: string, presented: Hash, now: Time)
    requires Backed(st, conf) && AuthOk(st.db, conf) && Authenticate(st.db, token, presented, now).Done?
    ensures IsPrincipal(st.log, Authenticate(st.db, token, presented, now).value)
  {
    AuthenticateAnswers(st.db, token, presented, now);
    var p := Authenticate(st.db, token, presented, now).value;
    assert TokenOk(st.db, conf, st.db.tokens[token]) && HasSession(st.log, p.session);
    var pair :| pair in st.log && pair.Paired? && pair.session == p.session;
    assert pair.client == p.client && pair.grant in st.db.grants && LinkedAs(st.log, pair.grant);
    var link :| link in st.log && link.Linked? && link.grant == pair.grant;
    assert Links(link, conf, st.db.grants[link.grant]);
    assert Introduces(pair, link, p);
  }

  /** An authentication succeeds if and only if the bearer is a token with the very secret that one pairing or
      refresh handed out with it, its session is not over and it has not expired; the principal is then the
      client of that session as its link described it. */
  lemma AuthenticatesExact(st: State, conf: Config, q: Request)
    requires Backed(st, conf) && AuthOk(st.db, conf) && q.Authorize?
    ensures var next := Authorization(st, q).log;
            if exists e :: Opens(st.log, conf, q.bearer, q.now, e) then
              exists e, p :: && Opens(st.log, conf, q.bearer, q.now, e) && IsPrincipal(st.log, p)
                             && p.session == e.session && next == st.log + [Authorized(p, e.token, e.access, q.now)]
            else next == st.log
  {
    var parts, next := ParseToken(q.bearer, "at"), Authorization(st, q).log;
    if e :| Opens(st.log, conf, q.bearer, q.now, e) {
      ParseExact(q.bearer, "at", e.token, e.access);
      TokenOpens(st, conf, q.bearer, q.now, e);
      PrincipalKnown(st, conf, e.token, Hash(e.access), q.now);
      AuthenticateAnswers(st.db, e.token, Hash(e.access), q.now);
      var p := Authenticate(st.db, e.token, Hash(e.access), q.now).value;
      assert next == st.log + [Authorized(p, e.token, e.access, q.now)];
    } else if parts.Ok? {
      ParseExact(q.bearer, "at", parts.value.0, parts.value.1);
      NoOpening(st, conf, q.bearer, q.now, parts.value.0, parts.value.1);
    }
  }

  lemma NoOpening(st: State, conf: Config, bearer: string, now: Time, token: string, secret: string)
    requires Backed(st, conf) && AuthOk(st.db, conf) && Presents(bearer, "at", token, secret)
    requires forall e :: !Opens(st.log, conf, bearer, now, e)
    ensures Authenticate(st.db, token, Hash(secret), now).Refused?
  {
    AuthenticateAnswers(st.db, token, Hash(secret), now);
    if Authenticate(st.db, token, Hash(secret), now).Done? {
      assert Minted(st.log, token);
      var e :| e in st.log && Mints(e) && e.token == token;
      TokenOpens(st, conf, bearer, now, e);
    }
  }

  /* ---- refresh and sign-out ---- */

  lemma LiveFacts(db: Tables, log: seq<Event>, conf: Config, session: string, now: Time)
    requires SessionsOpened(db.sessions, log, conf) && RevokedBacked(db, log) && SessionsOk(db, conf)
    ensures Live(db, session, now) <==> StillOpen(log, conf, session, now)
  {
    if session in db.sessions {
      assert HasSession(log, session) && (db.sessions[session].revokedAt.Some? <==> Over(log, session));
      var e :| e in log && e.Paired? && e.session == session;
    }
  }

  lemma LiveExact(st: State, conf: Config, session: string, now: Time)
    requires Backed(st, conf) && AuthOk(st.db, conf)
    ensures Live(st.db, session, now) <==> StillOpen(st.log, conf, session, now)
  {
    LiveFacts(st.db, st.log, conf, session, now);
  }

  lemma RedeemedExact(st: State, conf: Config, session: string, secret: string)
    requires Backed(st, conf)
    ensures Redeemed(st.db, session, Hash(secret)) <==> WasRedeemed(st.log, session, secret)
  {
  }

  lemma LatestExact(st: State, conf: Config, session: string, secret: string)
    requires Backed(st, conf)
    ensures LatestSecret(st.log, session) == Some(secret) <==>
              session in st.db.sessions && st.db.sessions[session].current == Hash(secret)
  {
  }

  /** A refresh succeeds if and only if it shows the secret handed out last for a session that is still open
      and the new token identifier is new; a secret redeemed before is a replay and ends the session. */
  lemma RefreshExact(st: State, conf: Config, q: Request, session: string, secret: string)
    requires Backed(st, conf) && AuthOk(st.db, conf) && q.Refresh? && Presents(q.value, "rt", session, secret)
    ensures Refreshing(st, conf, q).log ==
            if !StillOpen(st.log, conf, session, q.now) then st.log
            else if LatestSecret(st.log, session) == Some(secret) then
              if Minted(st.log, q.token) then st.log
              else st.log + [Refreshed(session, Hash(secret), q.token, q.access, q.refresh, q.now)]
            else if WasRedeemed(st.log, session, secret) then st.log + [Replayed(session, q.now)]
            else st.log
  {
    ParseExact(q.value, "rt", session, secret);
    RefreshingShape(st, conf, q, session, secret);
    LiveExact(st, conf, session, q.now);
    LatestExact(st, conf, session, secret);
    RedeemedExact(st, conf, session, secret);
    TokenTaken(st, conf, q.token);
    RotateDecides(st.db, session, Hash(secret), q.now, RefreshMaterial(conf, q));
    if session in st.db.sessions { assert st.db.sessions[session].current !in st.db.history; }
  }

  lemma TokenTaken(st: State, conf: Config, token: string)
    requires Backed(st, conf)
    ensures token in st.db.tokens <==> Minted(st.log, token)
  {
  }

  lemma RotateDecides(db: Tables, session: string, presented: Hash, now: Time, m: Material)
    ensures var out := Rotate(db, session, presented, now, m).1;
            && (out.Done? <==>
                  && Live(db, session, now) && db.sessions[session].current == presented
                  && presented !in db.history && m.token !in db.tokens)
            && (out == Refused(RefreshReplay) <==>
                  && Live(db, session, now) && db.sessions[session].current != presented
                  && Redeemed(db, session, presented))
  {
  }

  /** What is not a refresh token refreshes nothing and signs nobody out. */
  lemma UnshownExact(st: State, conf: Config, q: Request)
    requires q.Refresh? || q.SignOut?
    requires forall session, secret :: !Presents(q.value, "rt", session, secret)
    ensures Step(st, conf, q) == st
  {
    var parts := ParseToken(q.value, "rt");
    if parts.Ok? {
      assert !Presents(q.value, "rt", parts.value.0, parts.value.1);
      ParseExact(q.value, "rt", parts.value.0, parts.value.1);
    }
  }

  /** A sign-out succeeds if and only if it shows the secret handed out last for the session, open or not. */
  lemma SignOutExact(st: State, conf: Config, q: Request, session: string, secret: string)
    requires Backed(st, conf) && q.SignOut? && Presents(q.value, "rt", session, secret)
    ensures Leaving(st, q).log
            == if LatestSecret(st.log, session) == Some(secret) then st.log + [SignedOut(session, q.now)] else st.log
  {
    ParseExact(q.value, "rt", session, secret);
    LatestExact(st, conf, session, secret);
  }

  /** A client is dropped if and only if a pairing created it. */
  lemma DropExact(st: State, conf: Config, q: Request)
    requires Backed(st, conf) && q.DropClient?
    ensures Leaving(st, q).log
            == if Trim(q.client) != "" && HasClient(st.log, q.client) then st.log + [Dropped(q.client, q.now)]
               else st.log
  {
  }

  /* ---- whole traces ---- */

  /** The history after the request, as the history before it has it. */
  ghost predicate Answered(log: seq<Event>, conf: Config, q: Request, next: seq<Event>) {
    match q
    case CreateLink(name, scopes, id, code, now) =>
      next == if CanLink(log, q) then log + [Linked(id, code, name, scopes, now)] else log
    case Pair(_, _, _, _, _, _, now) =>
      if NewIds(log, q) && exists e :: Redeems(log, conf, Trim(q.code), now, e) then
        exists e :: Redeems(log, conf, Trim(q.code), now, e) && next == log + [PairedAs(e.grant, q)]
      else next == log
    case Authorize(bearer, now) =>
      if exists e :: Opens(log, conf, bearer, now, e) then
        exists e, p :: && Opens(log, conf, bearer, now, e) && IsPrincipal(log, p)
                       && p.session == e.session && next == log + [Authorized(p, e.token, e.access, now)]
      else next == log
    case Refresh(value, _, _, _, _) =>
      if exists session, secret :: Presents(value, "rt", session, secret)
      then exists session, secret ::
             Presents(value, "rt", session, secret) && Refreshes(log, conf, q, session, secret, next)
      else next == log
    case SignOut(value, _, now) =>
      if exists session, secret :: Presents(value, "rt", session, secret)
      then exists session, secret ::
             && Presents(value, "rt", session, secret)
             && next == if LatestSecret(log, session) == Some(secret) then log + [SignedOut(session, now)] else log
      else next == log
    case DropClient(client, _, now) =>
      next == if Trim(client) != "" && HasClient(log, client) then log + [Dropped(client, now)] else log
  }

  ghost predicate Refreshes(log: seq<Event>, conf: Config, q: Request, session: string, secret: string,
                            next: seq<Event>)
    requires q.Refresh?
  {
    next ==
    if !StillOpen(log, conf, session, q.now) then log
    else if LatestSecret(log, session) == Some(secret) then
      if Minted(log, q.token) then log
      else log + [Refreshed(session, Hash(secret), q.token, q.access, q.refresh, q.now)]
    else if WasRedeemed(log, session, secret) then log + [Replayed(session, q.now)]
    else log
  }

  lemma ShownAnswered(st: State, conf: Config, q: Request)
    requires Backed(st, conf) && AuthOk(st.db, conf) && (q.Refresh? || q.SignOut?)
    ensures Answered(st.log, conf, q, Step(st, conf, q).log)
  {
    if session, secret :| Presents(q.value, "rt", session, secret) {
      if q.Refresh? { RefreshExact(st, conf, q, session, secret); } else { SignOutExact(st, conf, q, session, secret); }
    } else {
      UnshownExact(st, conf, q);
    }
  }

  lemma StepAnswered(st: State, conf: Config, q: Request)
    requires Backed(st, conf) && AuthOk(st.db, conf) && CodesApart(st.log)
    ensures Answered(st.log, conf, q, Step(st, conf, q).log)
  {
    match q
    case CreateLink(_, _, _, _, _) => LinkExact(st, conf, q);
    case Pair(_, _, _, _, _, _, _) => PairExact(st, conf, q);
    case Authorize(_, _) => AuthenticatesExact(st, conf, q);
    case DropClient(_, _, _) => DropExact(st, conf, q);
    case _ => ShownAnswered(st, conf, q);
  }

  lemma {:induction false} BackedOver(st: State, conf: Config, qs: seq<Request>)
    requires AuthOk(st.db, conf) && Backed(st, conf) && CodesApart(st.log) && AllFresh(st, conf, qs)
    ensures var end := Execute(st, conf, qs);
            AuthOk(end.db, conf) && Backed(end, conf) && CodesApart(end.log)
    decreases |qs|
  {
    if qs != [] {
      StepKeepsAuth(st, conf, qs[0]);
      StepBacked(st, conf, qs[0]);
      StepApart(st, conf, qs[0]);
      BackedOver(Step(st, conf, qs[0]), conf, qs[1..]);
    }
  }

  lemma Reached(conf: Config, qs: seq<Request>)
    requires AllFresh(INIT, conf, qs)
    ensures var end := Execute(INIT, conf, qs);
            AuthOk(end.db, conf) && Backed(end, conf) && CodesApart(end.log)
  {
    BackedOver(INIT, conf, qs);
  }

  /** Over every trace with fresh secrets, the next request is answered as the history alone has it: what the
      tables decide is exactly what was handed out, redeemed and revoked before. */
  lemma HistoryDecides(conf: Config, qs: seq<Request>, q: Request)
    requires AllFresh(INIT, conf, qs)
    ensures var end := Execute(INIT, conf, qs);
            Answered(end.log, conf, q, Step(end, conf, q).log)
  {
    Reached(conf, qs);
    StepAnswered(Execute(INIT, conf, qs), conf, q);
  }

  /* ---- what an authentication rests on, said on the requests ---- */

  /** The request hands out the token and the secret together. */
  predicate HandsOut(q: Request, token: string, secret: string) {
    (q.Pair? || q.Refresh?) && q.token == token && q.access == secret
  }

  ghost predicate AllRequested(log: seq<Event>, qs: seq<Request>) {
    forall e :: e in log && Mints(e) ==> exists k :: 0 <= k < |qs| && HandsOut(qs[k], e.token, e.access)
  }

  lemma StepRequested(st: State, conf: Config, q: Request, past: seq<Request>)
    requires AllRequested(st.log, past)
    ensures AllRequested(Step(st, conf, q).log, past + [q])
  {
    var next, more := Step(st, conf, q), past + [q];
    OnlyMints(st, conf, q);
    forall e | e in next.log && Mints(e) ensures exists k :: 0 <= k < |more| && HandsOut(more[k], e.token, e.access) {
      if e in st.log {
        var k :| 0 <= k < |past| && HandsOut(past[k], e.token, e.access);
        assert more[k] == past[k];
      } else {
        assert more[|past|] == q;
      }
    }
  }

  lemma OnlyMints(st: State, conf: Config, q: Request)
    ensures forall e :: e in Step(st, conf, q).log && Mints(e) ==> e in st.log || HandsOut(q, e.token, e.access)
  {
  }

  lemma {:induction false} RequestedOver(st: State, conf: Config, qs: seq<Request>, past: seq<Request>)
    requires AllRequested(st.log, past)
    ensures AllRequested(Execute(st, conf, qs).log, past + qs)
    decreases |qs|
  {
    if qs == [] {
      assert past + qs == past;
    } else {
      StepRequested(st, conf, qs[0], past);
      RequestedOver(Step(st, conf, qs[0]), conf, qs[1..], past + [qs[0]]);
      assert past + [qs[0]] + qs[1..] == past + qs;
    }
  }

  lemma AllWereRequested(conf: Config, qs: seq<Request>)
    ensures AllRequested(Execute(INIT, conf, qs).log, qs)
  {
    RequestedOver(INIT, conf, qs, []);
    assert [] + qs == qs;
  }

  /** Over every trace, an authentication succeeds only for a bearer that is an identifier and a secret which
      one pairing or refresh request of the trace was given together. */
  lemma OnlyMintedAuthenticate(conf: Config, qs: seq<Request>, bearer: string, now: Time)
    returns (token: string, secret: string)
    requires AllFresh(INIT, conf, qs)
    requires var end := Execute(INIT, conf, qs); Step(end, conf, Authorize(bearer, now)).log != end.log
    ensures Presents(bearer, "at", token, secret)
    ensures exists k :: 0 <= k < |qs| && HandsOut(qs[k], token, secret)
  {
    Reached(conf, qs);
    AllWereRequested(conf, qs);
    token, secret := OpenedBy(Execute(INIT, conf, qs), conf, qs, Authorize(bearer, now));
  }

  lemma OpenedBy(st: State, conf: Config, qs: seq<Request>, q: Request) returns (token: string, secret: string)
    requires Backed(st, conf) && AuthOk(st.db, conf) && AllRequested(st.log, qs)
    requires q.Authorize? && Authorization(st, q).log != st.log
    ensures Presents(q.bearer, "at", token, secret)
    ensures exists k :: 0 <= k < |qs| && HandsOut(qs[k], token, secret)
  {
    AuthenticatesExact(st, conf, q);
    var e :| Opens(st.log, conf, q.bearer, q.now, e);
    token, secret := e.token, e.access;
  }
}
