/** The auth service over whole traces: what every request keeps, what a refresh secret is worth after
    it was redeemed, what a revocation ends, and where an authenticated principal comes from. */
module AuthTraces {
  import opened RuntimeTypes
  import opened AuthTokens
  import opened AuthStore

  datatype Config = Config(accessTTL: Time, refreshTTL: Time, pairingTTL: Time)

  /** NewService replaces what is not positive. */
  function Configured(c: Config): (r: Config)
    ensures r.accessTTL > 0 && r.refreshTTL > 0 && r.pairingTTL > 0
    ensures c.accessTTL > 0 && c.refreshTTL > 0 && c.pairingTTL > 0 ==> r == c
    ensures c == Config(0, 0, 0) ==> r == Config(900 * SECOND, 2_592_000 * SECOND, 600 * SECOND)
  {
    Config(if c.accessTTL <= 0 then 15 * 60 * SECOND else c.accessTTL,
           if c.refreshTTL <= 0 then 30 * 24 * 3600 * SECOND else c.refreshTTL,
           if c.pairingTTL <= 0 then 10 * 60 * SECOND else c.pairingTTL)
  }

  /** A request together with what the service minted for it. */
  datatype Request =
    | CreateLink(name: string, scopes: seq<string>, id: string, code: string, now: Time)
    | Pair(code: string, client: string, session: string, token: string, access: string, refresh: string, now: Time)
    | Authorize(bearer: string, now: Time)
    | Refresh(value: string, token: string, access: string, refresh: string, now: Time)
    | SignOut(value: string, reason: string, now: Time)
    | DropClient(client: string, reason: string, now: Time)

  /** What succeeded, with what was asked for, shown and handed out. */
  datatype Event =
    | Linked(grant: string, code: string, name: string, scopes: seq<string>, at: Time)
    | Paired(grant: string, client: string, session: string, token: string, access: string, refresh: string, at: Time)
    | Refreshed(session: string, secret: Hash, token: string, access: string, refresh: string, at: Time)
    | Authorized(principal: Principal, token: string, shown: string, at: Time)
    | Replayed(session: string, at: Time)
    | SignedOut(session: string, at: Time)
    | Dropped(client: string, at: Time)

  datatype State = State(db: Tables, log: seq<Event>)

  const INIT := State(EMPTY, [])

  ghost function Granted(db: Tables, conf: Config, id: string, code: Hash, name: string, scopes: Result<seq<string>>,
                         now: Time): Tables {
    if name == "" || ByteLength(name) > 120 || scopes.Err? then db
    else match CreateGrant(db, id, code, name, scopes.value, now + Configured(conf).pairingTTL)
         case Refused(_) => db
         case Done(next) => next
  }

  ghost function Link(st: State, conf: Config, q: Request): State
    requires q.CreateLink?
  {
    var next := Granted(st.db, conf, q.id, Hash(q.code), Trim(q.name), NormalizeScopes(q.scopes), q.now);
    if next == st.db then st else State(next, st.log + [Linked(q.id, q.code, q.name, q.scopes, q.now)])
  }

  function PairMaterial(conf: Config, q: Request): Material
    requires q.Pair?
  {
    Material(q.client, q.session, q.token, Hash(q.access), Hash(q.refresh),
             q.now + Configured(conf).accessTTL, q.now + Configured(conf).refreshTTL)
  }

  ghost function Pairing(st: State, conf: Config, q: Request): State
    requires q.Pair?
  {
    var code := Trim(q.code);
    if code == "" || ByteLength(code) > 512 then st
    else match Exchange(st.db, Hash(code), q.now, PairMaterial(conf, q))
         case Refused(_) => st
         case Done(db) =>
           var grant := GrantWith(st.db.grants, Hash(code)).value;
           State(db, st.log + [Paired(grant, q.client, q.session, q.token, q.access, q.refresh, q.now)])
  }

  function Authorization(st: State, q: Request): State
    requires q.Authorize?
  {
    match ParseToken(q.bearer, "at")
    case Err(_) => st
    case Ok(parts) =>
      match Authenticate(st.db, parts.0, Hash(parts.1), q.now)
      case Refused(_) => st
      case Done(principal) =>
        State(Touch(st.db, principal.client, q.now), st.log + [Authorized(principal, parts.0, parts.1, q.now)])
  }

  function RefreshMaterial(conf: Config, q: Request): Material
    requires q.Refresh?
  {
    Material("", "", q.token, Hash(q.access), Hash(q.refresh), q.now + Configured(conf).accessTTL, 0)
  }

  function Refreshing(st: State, conf: Config, q: Request): State
    requires q.Refresh?
  {
    match ParseToken(q.value, "rt")
    case Err(_) => st
    case Ok(parts) =>
      var out := Rotate(st.db, parts.0, Hash(parts.1), q.now, RefreshMaterial(conf, q));
      var entry := Refreshed(parts.0, Hash(parts.1), q.token, q.access, q.refresh, q.now);
      State(out.0, if out.1.Done? then st.log + [entry]
                   else if out.1 == Refused(RefreshReplay) then st.log + [Replayed(parts.0, q.now)]
                   else st.log)
  }

  function Leaving(st: State, q: Request): State
    requires q.SignOut? || q.DropClient?
  {
    if q.DropClient? then
      if Trim(q.client) == "" then st
      else match RevokeClient(st.db, q.client, q.now, q.reason)
           case Refused(_) => st
           case Done(db) => State(db, st.log + [Dropped(q.client, q.now)])
    else match ParseToken(q.value, "rt")
         case Err(_) => st
         case Ok(parts) =>
           match Logout(st.db, parts.0, Hash(parts.1), q.now, q.reason)
           case Refused(_) => st
           case Done(db) => State(db, st.log + [SignedOut(parts.0, q.now)])
  }

  ghost function Step(st: State, conf: Config, q: Request): State {
    match q
    case CreateLink(_, _, _, _, _) => Link(st, conf, q)
    case Pair(_, _, _, _, _, _, _) => Pairing(st, conf, q)
    case Authorize(_, _) => Authorization(st, q)
    case Refresh(_, _, _, _, _) => Refreshing(st, conf, q)
    case _ => Leaving(st, q)
  }

  ghost function Execute(st: State, conf: Config, qs: seq<Request>): State
    decreases |qs|
  {
    if qs == [] then st else Execute(Step(st, conf, qs[0]), conf, qs[1..])
  }

  /** A minted refresh secret is new to the store. */
  ghost predicate FreshSecret(db: Tables, secret: Hash) {
    secret !in db.history && forall s :: s in db.sessions ==> db.sessions[s].current != secret
  }

  ghost predicate Fresh(st: State, q: Request) {
    && (q.Pair? ==> FreshSecret(st.db, Hash(q.refresh)))
    && (q.Refresh? ==> FreshSecret(st.db, Hash(q.refresh)))
  }

  ghost predicate AllFresh(st: State, conf: Config, qs: seq<Request>)
    decreases |qs|
  {
    qs == [] || (Fresh(st, qs[0]) && AllFresh(Step(st, conf, qs[0]), conf, qs[1..]))
  }

  /* ---- the invariant ---- */

  /** Clients and consumed grants correspond one to one, and a client has its grant's normal scopes. */
  ghost predicate Admits(grants: map<string, Grant>, clients: map<string, Client>, g: string, c: string) {
    g in grants && c in clients && grants[g].client == Some(c) && grants[g].consumedAt.Some?
        && grants[g].scopes == clients[c].scopes
  }

  ghost predicate GrantsOk(grants: map<string, Grant>, clients: map<string, Client>) {
    && (forall g :: g in grants ==> NormalScopes(grants[g].scopes))
    && (forall g :: g in grants && (grants[g].client.Some? || grants[g].consumedAt.Some?) ==>
          grants[g].client.Some? && Admits(grants, clients, g, grants[g].client.value))
    && (forall c :: c in clients ==> exists g :: Admits(grants, clients, g, c))
    && (forall g, h, c :: Admits(grants, clients, g, c) && Admits(grants, clients, h, c) ==> g == h)
  }

  /** Current secrets are unredeemed and distinct, and a revoked client has no live session. */
  ghost predicate SessionsOk(db: Tables, conf: Config) {
    && (forall s :: s in db.sessions ==>
          && db.sessions[s].client in db.clients
          && db.sessions[s].current !in db.history
          && db.sessions[s].expiresAt <= db.sessions[s].createdAt + Configured(conf).refreshTTL
          && (db.clients[db.sessions[s].client].revokedAt.Some? ==> db.sessions[s].revokedAt.Some?))
    && (forall s, t :: s in db.sessions && t in db.sessions && s != t
          ==> db.sessions[s].current != db.sessions[t].current)
  }

  /** A token belongs to its session's client, has its scopes, ends in time, and is revoked with it. */
  ghost predicate TokenOk(db: Tables, conf: Config, t: Token) {
    && t.session in db.sessions && t.client == db.sessions[t.session].client && t.client in db.clients
    && t.scopes == db.clients[t.client].scopes
    && t.expiresAt <= db.sessions[t.session].createdAt + Configured(conf).refreshTTL + Configured(conf).accessTTL
    && (db.sessions[t.session].revokedAt.Some? ==> t.revokedAt.Some?)
  }

  ghost predicate TokensOk(db: Tables, conf: Config) { forall t :: t in db.tokens ==> TokenOk(db, conf, db.tokens[t]) }

  ghost predicate AuthOk(db: Tables, conf: Config) {
    GrantsOk(db.grants, db.clients) && SessionsOk(db, conf) && TokensOk(db, conf)
  }

  /* ---- transactions keep it ---- */

  lemma NewGrantOk(grants: map<string, Grant>, clients: map<string, Client>, id: string, grant: Grant)
    requires GrantsOk(grants, clients) && id !in grants && NormalScopes(grant.scopes) && grant.consumedAt.None?
    requires grant.client.None?
    ensures GrantsOk(grants[id := grant], clients)
  {
    var next := grants[id := grant];
    assert forall g, c :: Admits(next, clients, g, c) <==> Admits(grants, clients, g, c);
    forall g | g in next && (next[g].client.Some? || next[g].consumedAt.Some?)
      ensures next[g].client.Some? && Admits(next, clients, g, next[g].client.value)
    {
      assert g in grants;
    }
  }

  /** Sessions and tokens do not depend on grants. */
  lemma GrantsAside(db: Tables, conf: Config, grants: map<string, Grant>)
    requires SessionsOk(db, conf) && TokensOk(db, conf)
    ensures SessionsOk(db.(grants := grants), conf) && TokensOk(db.(grants := grants), conf)
  {
    var next := db.(grants := grants);
    forall t | t in next.tokens ensures TokenOk(next, conf, next.tokens[t]) { assert TokenOk(db, conf, db.tokens[t]); }
  }

  /** Changing clients in what is neither scopes nor existence keeps the correspondence. */
  lemma SameScopesOk(grants: map<string, Grant>, clients: map<string, Client>, next: map<string, Client>)
    requires GrantsOk(grants, clients)
    requires next.Keys == clients.Keys && forall c :: c in clients ==> next[c].scopes == clients[c].scopes
    ensures GrantsOk(grants, next)
  {
    assert forall g, c :: Admits(grants, next, g, c) <==> Admits(grants, clients, g, c);
  }

  lemma ExchangeGrantsOk(grants: map<string, Grant>, clients: map<string, Client>, g: string, c: string, now: Time)
    requires GrantsOk(grants, clients) && g in grants && grants[g].consumedAt.None? && c !in clients
    ensures var grant := grants[g];
            GrantsOk(grants[g := grant.(consumedAt := Some(now), client := Some(c))],
                     clients[c := Client(grant.name, grant.scopes, now, None, None)])
  {
    var grant := grants[g];
    var gs, cs := grants[g := grant.(consumedAt := Some(now), client := Some(c))],
      clients[c := Client(grant.name, grant.scopes, now, None, None)];
    assert Admits(gs, cs, g, c);
    assert forall h, d :: Admits(grants, clients, h, d) ==> Admits(gs, cs, h, d);
    assert forall h, d :: Admits(gs, cs, h, d) ==> (h == g && d == c) || Admits(grants, clients, h, d);
    forall d | d in cs ensures exists h :: Admits(gs, cs, h, d) {
      if d != c { var h :| Admits(grants, clients, h, d); assert Admits(gs, cs, h, d); }
    }
  }

  lemma ExchangeSessionsOk(db: Tables, next: Tables, conf: Config, code: Hash, q: Request)
    requires SessionsOk(db, conf) && q.Pair? && FreshSecret(db, Hash(q.refresh))
    requires Exchange(db, code, q.now, PairMaterial(conf, q)) == Done(next)
    ensures SessionsOk(next, conf)
  {
  }

  lemma ExchangeTokensOk(db: Tables, next: Tables, conf: Config, code: Hash, q: Request)
    requires TokensOk(db, conf) && q.Pair?
    requires Exchange(db, code, q.now, PairMaterial(conf, q)) == Done(next)
    ensures TokensOk(next, conf)
  {
    forall t | t in next.tokens ensures TokenOk(next, conf, next.tokens[t]) {
      if t != q.token { assert TokenOk(db, conf, db.tokens[t]); }
    }
  }

  lemma ExchangeOk(db: Tables, conf: Config, code: Hash, q: Request)
    requires AuthOk(db, conf) && q.Pair? && FreshSecret(db, Hash(q.refresh))
    requires Exchange(db, code, q.now, PairMaterial(conf, q)).Done?
    ensures AuthOk(Exchange(db, code, q.now, PairMaterial(conf, q)).value, conf)
  {
    var next := Exchange(db, code, q.now, PairMaterial(conf, q)).value;
    ExchangeGrantsOk(db.grants, db.clients, GrantWith(db.grants, code).value, q.client, q.now);
    ExchangeSessionsOk(db, next, conf, code, q);
    ExchangeTokensOk(db, next, conf, code, q);
  }

  /** Clients may be touched in what is neither scopes nor revocation. */
  ghost predicate SameClients(before: map<string, Client>, after: map<string, Client>) {
    && after.Keys == before.Keys
    && forall c :: c in before ==> after[c].scopes == before[c].scopes && after[c].revokedAt == before[c].revokedAt
  }

  lemma ClientsTouchedSessions(db: Tables, next: Tables, conf: Config)
    requires SessionsOk(db, conf) && SameClients(db.clients, next.clients) && next == db.(clients := next.clients)
    ensures SessionsOk(next, conf)
  {
  }

  lemma ClientsTouchedTokens(db: Tables, next: Tables, conf: Config)
    requires TokensOk(db, conf) && SameClients(db.clients, next.clients) && next == db.(clients := next.clients)
    ensures TokensOk(next, conf)
  {
    forall t | t in next.tokens ensures TokenOk(next, conf, next.tokens[t]) { assert TokenOk(db, conf, db.tokens[t]); }
  }

  lemma TouchedClients(db: Tables, client: string, now: Time)
    ensures var next := Touch(db, client, now);
            SameClients(db.clients, next.clients) && next == db.(clients := next.clients)
  {
  }

  lemma TouchOk(db: Tables, conf: Config, client: string, now: Time)
    requires AuthOk(db, conf)
    ensures AuthOk(Touch(db, client, now), conf)
  {
    var next := Touch(db, client, now);
    TouchedClients(db, client, now);
    SameScopesOk(db.grants, db.clients, next.clients);
    ClientsTouchedSessions(db, next, conf);
    ClientsTouchedTokens(db, next, conf);
  }

  lemma RevokeSessionOk(db: Tables, conf: Config, session: string, now: Time, reason: string)
    requires AuthOk(db, conf) && session in db.sessions
    ensures AuthOk(RevokeSessionRows(db, session, now, reason), conf)
  {
    var next := RevokeSessionRows(db, session, now, reason);
    forall t | t in next.tokens ensures TokenOk(next, conf, next.tokens[t]) { assert TokenOk(db, conf, db.tokens[t]); }
  }

  lemma RevokeClientSessionsOk(db: Tables, conf: Config, client: string, now: Time, reason: string)
    requires SessionsOk(db, conf) && client in db.clients
    ensures SessionsOk(RevokeClient(db, client, now, reason).value, conf)
  {
  }

  lemma RevokeClientTokensOk(db: Tables, conf: Config, client: string, now: Time, reason: string)
    requires TokensOk(db, conf) && client in db.clients
    ensures TokensOk(RevokeClient(db, client, now, reason).value, conf)
  {
    var next := RevokeClient(db, client, now, reason).value;
    forall t | t in next.tokens ensures TokenOk(next, conf, next.tokens[t]) { assert TokenOk(db, conf, db.tokens[t]); }
  }

  lemma RevokeClientOk(db: Tables, conf: Config, client: string, now: Time, reason: string)
    requires AuthOk(db, conf) && client in db.clients
    ensures AuthOk(RevokeClient(db, client, now, reason).value, conf)
  {
    SameScopesOk(db.grants, db.clients, RevokeClient(db, client, now, reason).value.clients);
    RevokeClientSessionsOk(db, conf, client, now, reason);
    RevokeClientTokensOk(db, conf, client, now, reason);
  }

  lemma RotatedSessionsOk(db: Tables, conf: Config, session: string, now: Time, m: Material)
    requires SessionsOk(db, conf) && session in db.sessions && FreshSecret(db, m.refresh)
    ensures SessionsOk(RotatedRows(db, session, now, m), conf)
  {
  }

  lemma RotatedTokensOk(db: Tables, conf: Config, session: string, now: Time, m: Material)
    requires SessionsOk(db, conf) && TokensOk(db, conf) && Live(db, session, now)
    requires m.accessExpires == now + Configured(conf).accessTTL
    ensures TokensOk(RotatedRows(db, session, now, m), conf)
  {
    var next := RotatedRows(db, session, now, m);
    forall t | t in next.tokens ensures TokenOk(next, conf, next.tokens[t]) {
      if t != m.token { assert TokenOk(db, conf, db.tokens[t]); }
    }
  }

  lemma RotatedOk(db: Tables, conf: Config, session: string, now: Time, m: Material)
    requires AuthOk(db, conf) && Live(db, session, now) && FreshSecret(db, m.refresh)
    requires m.accessExpires == now + Configured(conf).accessTTL
    ensures AuthOk(RotatedRows(db, session, now, m), conf)
  {
    RotatedSessionsOk(db, conf, session, now, m);
    RotatedTokensOk(db, conf, session, now, m);
    SameScopesOk(db.grants, db.clients, RotatedRows(db, session, now, m).clients);
  }

  /** Rotation, replay, or nothing. */
  lemma RotateCases(db: Tables, session: string, presented: Hash, now: Time, m: Material)
    ensures var out := Rotate(db, session, presented, now, m).0;
            || out == db
            || (Live(db, session, now) && out == RotatedRows(db, session, now, m))
            || (session in db.sessions && out == RevokeSessionRows(db, session, now, "refresh_replay"))
  {
  }

  lemma RotateOk(db: Tables, conf: Config, session: string, presented: Hash, now: Time, m: Material)
    requires AuthOk(db, conf) && FreshSecret(db, m.refresh) && m.accessExpires == now + Configured(conf).accessTTL
    ensures AuthOk(Rotate(db, session, presented, now, m).0, conf)
  {
    RotateCases(db, session, presented, now, m);
    if Live(db, session, now) { RotatedOk(db, conf, session, now, m); }
    if session in db.sessions { RevokeSessionOk(db, conf, session, now, "refresh_replay"); }
  }

  lemma Normalized(scopes: seq<string>)
    ensures NormalizeScopes(scopes).Ok? ==> NormalScopes(NormalizeScopes(scopes).value)
  {
    NormalizeExact(scopes);
  }

  lemma GrantedCases(db: Tables, conf: Config, id: string, code: Hash, name: string, scopes: Result<seq<string>>,
                     now: Time)
    ensures var next := Granted(db, conf, id, code, name, scopes, now);
            next == db || (scopes.Ok? && id !in db.grants
                           && next == db.(grants :=
                                          db.grants[id :=
                                                    Grant(code, name, scopes.value,
                                                          Micro(now + Configured(conf).pairingTTL), None, None)]))
  {
  }

  lemma GrantedOk(db: Tables, conf: Config, id: string, code: Hash, name: string, scopes: Result<seq<string>>,
                  now: Time)
    requires AuthOk(db, conf) && (scopes.Ok? ==> NormalScopes(scopes.value))
    ensures AuthOk(Granted(db, conf, id, code, name, scopes, now), conf)
  {
    GrantedCases(db, conf, id, code, name, scopes, now);
    if scopes.Ok? && id !in db.grants {
      var grant := Grant(code, name, scopes.value, Micro(now + Configured(conf).pairingTTL), None, None);
      NewGrantOk(db.grants, db.clients, id, grant);
      GrantsAside(db, conf, db.grants[id := grant]);
    }
  }

  lemma LinkKeepsAuth(st: State, conf: Config, q: Request)
    requires AuthOk(st.db, conf) && q.CreateLink?
    ensures AuthOk(Link(st, conf, q).db, conf)
  {
    Normalized(q.scopes);
    GrantedOk(st.db, conf, q.id, Hash(q.code), Trim(q.name), NormalizeScopes(q.scopes), q.now);
  }

  lemma PairingKeepsAuth(st: State, conf: Config, q: Request)
    requires AuthOk(st.db, conf) && q.Pair? && FreshSecret(st.db, Hash(q.refresh))
    ensures AuthOk(Pairing(st, conf, q).db, conf)
  {
    if Exchange(st.db, Hash(Trim(q.code)), q.now, PairMaterial(conf, q)).Done? {
      ExchangeOk(st.db, conf, Hash(Trim(q.code)), q);
    }
  }

  lemma AuthorizationKeepsAuth(st: State, conf: Config, q: Request)
    requires AuthOk(st.db, conf) && q.Authorize?
    ensures AuthOk(Authorization(st, q).db, conf)
  {
    var parts := ParseToken(q.bearer, "at");
    if parts.Ok? && Authenticate(st.db, parts.value.0, Hash(parts.value.1), q.now).Done? {
      TouchOk(st.db, conf, Authenticate(st.db, parts.value.0, Hash(parts.value.1), q.now).value.client, q.now);
    }
  }

  lemma RefreshingKeepsAuth(st: State, conf: Config, q: Request)
    requires AuthOk(st.db, conf) && q.Refresh? && FreshSecret(st.db, Hash(q.refresh))
    ensures AuthOk(Refreshing(st, conf, q).db, conf)
  {
    var parts := ParseToken(q.value, "rt");
    if parts.Ok? { RotateOk(st.db, conf, parts.value.0, Hash(parts.value.1), q.now, RefreshMaterial(conf, q)); }
  }

  lemma LeavingKeepsAuth(st: State, conf: Config, q: Request)
    requires AuthOk(st.db, conf) && (q.SignOut? || q.DropClient?)
    ensures AuthOk(Leaving(st, q).db, conf)
  {
    if q.DropClient? {
      if q.client in st.db.clients { RevokeClientOk(st.db, conf, q.client, q.now, q.reason); }
    } else {
      var parts := ParseToken(q.value, "rt");
      if parts.Ok? && parts.value.0 in st.db.sessions { RevokeSessionOk(st.db, conf, parts.value.0, q.now, q.reason); }
    }
  }

  lemma StepKeepsAuth(st: State, conf: Config, q: Request)
    requires AuthOk(st.db, conf) && Fresh(st, q)
    ensures AuthOk(Step(st, conf, q).db, conf)
  {
    match q
    case CreateLink(_, _, _, _, _) => LinkKeepsAuth(st, conf, q);
    case Pair(_, _, _, _, _, _, _) => PairingKeepsAuth(st, conf, q);
    case Authorize(_, _) => AuthorizationKeepsAuth(st, conf, q);
    case Refresh(_, _, _, _, _) => RefreshingKeepsAuth(st, conf, q);
    case _ => LeavingKeepsAuth(st, conf, q);
  }

  /* ---- what never goes back ---- */

  /** Redeemed secrets, consumed grants, clients, sessions and revocations stay. */
  ghost predicate Grows(before: Tables, after: Tables) {
    && (forall h :: h in before.history ==> h in after.history && after.history[h] == before.history[h])
    && (forall g :: g in before.grants ==>
          g in after.grants && (before.grants[g].consumedAt.Some? ==> after.grants[g] == before.grants[g]))
    && (forall c :: c in before.clients ==> c in after.clients && after.clients[c].scopes == before.clients[c].scopes)
    && (forall s :: s in before.sessions ==>
          && s in after.sessions
          && after.sessions[s].createdAt == before.sessions[s].createdAt
             && after.sessions[s].client == before.sessions[s].client
          && (before.sessions[s].revokedAt.Some? ==> after.sessions[s].revokedAt == before.sessions[s].revokedAt))
  }

  lemma LeavingGrows(st: State, q: Request)
    requires q.SignOut? || q.DropClient?
    ensures Grows(st.db, Leaving(st, q).db)
  {
  }

  lemma PairingGrows(st: State, conf: Config, q: Request)
    requires q.Pair?
    ensures Grows(st.db, Pairing(st, conf, q).db)
  {
  }

  lemma RefreshingGrows(st: State, conf: Config, q: Request)
    requires q.Refresh?
    ensures Grows(st.db, Refreshing(st, conf, q).db)
  {
  }

  lemma StepGrows(st: State, conf: Config, q: Request)
    ensures Grows(st.db, Step(st, conf, q).db)
  {
    match q
    case Pair(_, _, _, _, _, _, _) => PairingGrows(st, conf, q);
    case Refresh(_, _, _, _, _) => RefreshingGrows(st, conf, q);
    case CreateLink(_, _, _, _, _) =>
    case Authorize(_, _) =>
    case _ => LeavingGrows(st, q);
  }

  /* ---- the log ---- */

  /** Where a log entry comes from. */
  ghost predicate EventOk(db: Tables, conf: Config, e: Event) {
    match e
    case Linked(_, _, _, _, _) => true
    case Paired(g, c, _, _, _, _, _) => Admits(db.grants, db.clients, g, c)
    case Refreshed(s, secret, _, _, _, _) => Redeemed(db, s, secret)
    case Replayed(_, _) => true
    case SignedOut(_, _) => true
    case Dropped(_, _) => true
    case Authorized(p, _, _, at) =>
      && p.session in db.sessions && db.sessions[p.session].client == p.client
      && p.client in db.clients && p.scopes == db.clients[p.client].scopes
      && at < db.sessions[p.session].createdAt + Configured(conf).refreshTTL + Configured(conf).accessTTL
  }

  /** No grant is consumed twice and no secret redeemed twice. */
  predicate Apart(e: Event, f: Event) {
    && (e.Paired? && f.Paired? ==> e.grant != f.grant && e.client != f.client)
    && (e.Refreshed? && f.Refreshed? ==> e.secret != f.secret)
  }

  ghost predicate LogOk(st: State, conf: Config) {
    && (forall i :: 0 <= i < |st.log| ==> EventOk(st.db, conf, st.log[i]))
    && (forall i, j :: 0 <= i < j < |st.log| ==> Apart(st.log[i], st.log[j]))
  }

  lemma EventStays(before: Tables, after: Tables, conf: Config, e: Event)
    requires Grows(before, after) && EventOk(before, conf, e)
    ensures EventOk(after, conf, e)
  {
  }

  /** What a step may add to the log. */
  ghost predicate Adds(st: State, next: State, conf: Config) {
    next.log == st.log ||
    (|st.log| < |next.log| && next.log == st.log + [next.log[|st.log|]]
     && EventOk(next.db, conf, next.log[|st.log|]) && NewFor(st.db, next.log[|st.log|]))
  }

  ghost predicate NewFor(before: Tables, e: Event) {
    && (e.Paired?
        ==> e.client !in before.clients && (e.grant in before.grants ==> before.grants[e.grant].consumedAt.None?))
    && (e.Refreshed? ==> e.secret !in before.history)
  }

  lemma PairingAdds(st: State, conf: Config, q: Request)
    requires q.Pair?
    ensures |st.log| <= |Pairing(st, conf, q).log| && Adds(st, Pairing(st, conf, q), conf)
  {
  }

  lemma RefreshingAdds(st: State, conf: Config, q: Request)
    requires q.Refresh?
    ensures |st.log| <= |Refreshing(st, conf, q).log| && Adds(st, Refreshing(st, conf, q), conf)
  {
  }

  lemma AuthorizationAdds(st: State, conf: Config, q: Request)
    requires AuthOk(st.db, conf) && q.Authorize?
    ensures |st.log| <= |Authorization(st, q).log| && Adds(st, Authorization(st, q), conf)
  {
    var parts := ParseToken(q.bearer, "at");
    if parts.Ok? && parts.value.0 in st.db.tokens { assert TokenOk(st.db, conf, st.db.tokens[parts.value.0]); }
  }

  lemma StepAdds(st: State, conf: Config, q: Request)
    requires AuthOk(st.db, conf)
    ensures |st.log| <= |Step(st, conf, q).log| && Adds(st, Step(st, conf, q), conf)
  {
    match q
    case CreateLink(_, _, _, _, _) =>
    case Pair(_, _, _, _, _, _, _) => PairingAdds(st, conf, q);
    case Authorize(_, _) => AuthorizationAdds(st, conf, q);
    case Refresh(_, _, _, _, _) => RefreshingAdds(st, conf, q);
    case _ => LeavingAdds(st, conf, q);
  }

  lemma LeavingAdds(st: State, conf: Config, q: Request)
    requires q.SignOut? || q.DropClient?
    ensures |st.log| <= |Leaving(st, q).log| && Adds(st, Leaving(st, q), conf)
  {
  }

  lemma StepKeepsLog(st: State, conf: Config, q: Request)
    requires AuthOk(st.db, conf) && LogOk(st, conf)
    ensures LogOk(Step(st, conf, q), conf)
  {
    var next := Step(st, conf, q);
    StepGrows(st, conf, q);
    StepAdds(st, conf, q);
    LogGrows(st, next, conf);
  }

  lemma LogGrows(st: State, next: State, conf: Config)
    requires Grows(st.db, next.db) && |st.log| <= |next.log| && Adds(st, next, conf) && LogOk(st, conf)
    ensures LogOk(next, conf)
  {
    forall i | 0 <= i < |next.log| ensures EventOk(next.db, conf, next.log[i]) {
      if i < |st.log| { EventStays(st.db, next.db, conf, st.log[i]); }
    }
    forall i, j | 0 <= i < j < |next.log| ensures Apart(next.log[i], next.log[j]) {
      assert EventOk(st.db, conf, st.log[i]);
    }
  }

  /** Every reachable state of the auth service. */
  lemma {:induction false} ReachableAuth(st: State, conf: Config, qs: seq<Request>)
    requires AuthOk(st.db, conf) && LogOk(st, conf) && AllFresh(st, conf, qs)
    ensures AuthOk(Execute(st, conf, qs).db, conf) && LogOk(Execute(st, conf, qs), conf)
    decreases |qs|
  {
    if qs != [] {
      StepKeepsAuth(st, conf, qs[0]);
      StepKeepsLog(st, conf, qs[0]);
      ReachableAuth(Step(st, conf, qs[0]), conf, qs[1..]);
    }
  }

  /* ---- main results ---- */

  /** Refresh rotation: over every trace each refresh secret is redeemed at most once, and no current
      secret has been redeemed, by its own or any other session. */
  lemma RefreshSecretsOnce(conf: Config, qs: seq<Request>)
    requires AllFresh(INIT, conf, qs)
    ensures var end := Execute(INIT, conf, qs);
            && (forall i, j :: 0 <= i < j < |end.log| && end.log[i].Refreshed? && end.log[j].Refreshed? ==>
                  end.log[i].secret != end.log[j].secret)
            && (forall s :: s in end.db.sessions ==> end.db.sessions[s].current !in end.db.history)
  {
    ReachableAuth(INIT, conf, qs);
    var end := Execute(INIT, conf, qs);
    forall i, j | 0 <= i < j < |end.log| && end.log[i].Refreshed? && end.log[j].Refreshed?
      ensures end.log[i].secret != end.log[j].secret
    {
      assert Apart(end.log[i], end.log[j]);
    }
  }

  /** Presenting a redeemed secret to a live session revokes it and every one of its access tokens;
      nothing else changes. */
  lemma RedeemedRevokes(db: Tables, conf: Config, session: string, presented: Hash, now: Time, m: Material)
    requires AuthOk(db, conf) && Live(db, session, now) && Redeemed(db, session, presented)
    ensures var out := Rotate(db, session, presented, now, m);
            && out.1 == Refused(RefreshReplay)
            && Ended(out.0, session)
            && (forall t :: t in out.0.tokens && out.0.tokens[t].session == session ==> out.0.tokens[t].revokedAt.Some?)
            && (forall s :: s in db.sessions && s != session
                  ==> s in out.0.sessions && out.0.sessions[s] == db.sessions[s])
            && (forall t :: t in db.tokens && db.tokens[t].session != session
                  ==> t in out.0.tokens && out.0.tokens[t] == db.tokens[t])
            && out.0 == db.(sessions := out.0.sessions, tokens := out.0.tokens)
  {
  }

  /** Replay detection over traces: after any trace, presenting again any secret that a refresh of the trace
      redeemed, to its session while that is live, revokes the session and all its access tokens. */
  lemma ReplayRevokes(conf: Config, qs: seq<Request>, i: nat, q: Request)
    requires AllFresh(INIT, conf, qs) && i < |Execute(INIT, conf, qs).log| && q.Refresh?
    requires var end := Execute(INIT, conf, qs);
             && end.log[i].Refreshed? && Live(end.db, end.log[i].session, q.now)
             && ParseToken(q.value, "rt").Ok? && ParseToken(q.value, "rt").value.0 == end.log[i].session
             && Hash(ParseToken(q.value, "rt").value.1) == end.log[i].secret
    ensures var end, s := Execute(INIT, conf, qs), Execute(INIT, conf, qs).log[i].session;
            var next := Step(end, conf, q);
            && Ended(next.db, s) && next.log == end.log + [Replayed(s, q.now)]
            && (forall t :: t in next.db.tokens && next.db.tokens[t].session == s ==> next.db.tokens[t].revokedAt.Some?)
            && (forall x :: x in end.db.sessions && x != s
                  ==> x in next.db.sessions && next.db.sessions[x] == end.db.sessions[x])
  {
    ReachableAuth(INIT, conf, qs);
    var end := Execute(INIT, conf, qs);
    assert EventOk(end.db, conf, end.log[i]);
    RedeemedRevokes(end.db, conf, end.log[i].session, end.log[i].secret, q.now, RefreshMaterial(conf, q));
  }

  predicate About(e: Event, session: string) {
    (e.Refreshed? && e.session == session) || (e.Authorized? && e.principal.session == session)
  }

  predicate Ended(db: Tables, session: string) { session in db.sessions && db.sessions[session].revokedAt.Some? }

  lemma EndedStep(st: State, conf: Config, q: Request, session: string)
    requires Ended(st.db, session)
    ensures var next := Step(st, conf, q);
            && Ended(next.db, session) && |st.log| <= |next.log|
            && (forall i :: 0 <= i < |st.log| ==> next.log[i] == st.log[i])
            && forall i :: |st.log| <= i < |next.log| ==> !About(next.log[i], session)
  {
    StepGrows(st, conf, q);
  }

  /** After any revocation (replay, sign-out or client) the session stays revoked and no later refresh
      or authentication for it succeeds. */
  lemma {:induction false} RevocationPermanent(st: State, conf: Config, qs: seq<Request>, session: string)
    requires Ended(st.db, session)
    ensures var end := Execute(st, conf, qs);
            && Ended(end.db, session) && |st.log| <= |end.log|
            && forall i :: |st.log| <= i < |end.log| ==> !About(end.log[i], session)
    ensures forall i :: 0 <= i < |st.log|
              ==> i < |Execute(st, conf, qs).log| && Execute(st, conf, qs).log[i] == st.log[i]
    decreases |qs|
  {
    if qs != [] {
      EndedStep(st, conf, qs[0], session);
      RevocationPermanent(Step(st, conf, qs[0]), conf, qs[1..], session);
    }
  }

  /** The request revokes the session: it signs it out, drops its client, or replays a redeemed secret. */
  predicate Revokes(st: State, conf: Config, q: Request, session: string) {
    match q
    case SignOut(value, reason, now) =>
      var parts := ParseToken(value, "rt");
      parts.Ok? && parts.value.0 == session && Logout(st.db, session, Hash(parts.value.1), now, reason).Done?
    case DropClient(client, reason, now) =>
      && Trim(client) != "" && RevokeClient(st.db, client, now, reason).Done?
      && session in st.db.sessions && st.db.sessions[session].client == client
    case Refresh(value, _, _, _, now) =>
      var parts := ParseToken(value, "rt");
      && parts.Ok? && parts.value.0 == session
      && Rotate(st.db, session, Hash(parts.value.1), now, RefreshMaterial(conf, q)).1 == Refused(RefreshReplay)
    case _ => false
  }

  lemma RevokesEnds(st: State, conf: Config, q: Request, session: string)
    requires Revokes(st, conf, q, session)
    ensures var next := Step(st, conf, q);
            && Ended(next.db, session) && |st.log| <= |next.log|
            && forall i :: |st.log| <= i < |next.log| ==> !About(next.log[i], session)
  {
  }

  /** Whichever way a session is revoked in a trace, by sign-out, by dropping its client or by a replay, no
      later refresh or authentication for it succeeds. */
  lemma RevokedForGood(st: State, conf: Config, q: Request, qs: seq<Request>, session: string)
    requires Revokes(st, conf, q, session)
    ensures var end := Execute(st, conf, [q] + qs);
            && Ended(end.db, session) && |st.log| <= |end.log|
            && forall i :: |st.log| <= i < |end.log| ==> !About(end.log[i], session)
  {
    RevokesEnds(st, conf, q, session);
    assert ([q] + qs)[1..] == qs;
    RevocationPermanent(Step(st, conf, q), conf, qs, session);
  }

  /** Every authentication in a trace traces to exactly one consumed grant, carries exactly that grant's
      normalised scopes, and happens before creation + RefreshTTL + AccessTTL of its session, however
      often it was rotated; and no grant is consumed twice. */
  lemma AuthenticationTraces(conf: Config, qs: seq<Request>, i: nat) returns (g: string)
    requires AllFresh(INIT, conf, qs)
    requires i < |Execute(INIT, conf, qs).log| && Execute(INIT, conf, qs).log[i].Authorized?
    ensures var end := Execute(INIT, conf, qs);
            var p, at := end.log[i].principal, end.log[i].at;
            && g in end.db.grants && end.db.grants[g].consumedAt.Some? && end.db.grants[g].client == Some(p.client)
            && end.db.grants[g].scopes == p.scopes && NormalScopes(p.scopes)
            && (forall h :: h in end.db.grants && end.db.grants[h].client == Some(p.client) ==> h == g)
            && p.session in end.db.sessions
            && at < end.db.sessions[p.session].createdAt + Configured(conf).refreshTTL + Configured(conf).accessTTL
            && (forall j, k :: 0 <= j < k < |end.log| && end.log[j].Paired? && end.log[k].Paired?
                  ==> end.log[j].grant != end.log[k].grant)
  {
    ReachableAuth(INIT, conf, qs);
    var end := Execute(INIT, conf, qs);
    var p := end.log[i].principal;
    assert EventOk(end.db, conf, end.log[i]);
    g :| Admits(end.db.grants, end.db.clients, g, p.client);
    forall h | h in end.db.grants && end.db.grants[h].client == Some(p.client) ensures h == g {
      assert Admits(end.db.grants, end.db.clients, h, p.client);
    }
    forall j, k | 0 <= j < k < |end.log| && end.log[j].Paired? && end.log[k].Paired?
      ensures end.log[j].grant != end.log[k].grant
    {
      assert Apart(end.log[j], end.log[k]);
    }
  }
}
