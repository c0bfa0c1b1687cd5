/** The auth service told from its history alone: which requests succeed follows from what was handed out,
    redeemed and revoked before, and the tables are proved to decide exactly that. */
module AuthHistory {
  import opened RuntimeTypes
  import opened AuthTokens
  import opened AuthStore
  import opened AuthTraces

  /* ---- the history as the specification ---- */

  predicate Mints(e: Event) { e.Paired? || e.Refreshed? }

  /** The value shown is the identifier, a dot and the secret, in the shape the service mints. */
  predicate Presents(value: string, prefix: string, id: string, secret: string) {
    && Trim(value) == id + "." + secret && Dotless(id) && Dotless(secret)
    && prefix + "_" <= id && ByteLength(secret) >= 32
  }

  /** The refresh secret that was handed out last for the session. */
  function LatestSecret(log: seq<Event>, session: string): Option<string>
    decreases |log|
  {
    if log == [] then None
    else
      var e := log[|log| - 1];
      if Mints(e) && e.session == session then Some(e.refresh) else LatestSecret(log[..|log| - 1], session)
  }

  ghost predicate LinkedAs(log: seq<Event>, grant: string) { exists e :: e in log && e.Linked? && e.grant == grant }

  ghost predicate CodeUsed(log: seq<Event>, code: string) { exists e :: e in log && e.Linked? && e.code == code }

  ghost predicate PairedFrom(log: seq<Event>, grant: string) { exists e :: e in log && e.Paired? && e.grant == grant }

  ghost predicate HasClient(log: seq<Event>, client: string) { exists e :: e in log && e.Paired? && e.client == client }

  ghost predicate HasSession(log: seq<Event>, session: string) {
    exists e :: e in log && e.Paired? && e.session == session
  }

  ghost predicate Minted(log: seq<Event>, token: string) { exists e :: e in log && Mints(e) && e.token == token }

  /** The session was opened for the client. */
  ghost predicate OpenedFor(log: seq<Event>, session: string, client: string) {
    exists e :: e in log && e.Paired? && e.session == session && e.client == client
  }

  /** The session was signed out or replayed, or its client was dropped. */
  ghost predicate Over(log: seq<Event>, session: string) {
    exists e :: e in log && Ends(log, e, session)
  }

  ghost predicate Ends(log: seq<Event>, e: Event, session: string) {
    || (e.SignedOut? && e.session == session)
    || (e.Replayed? && e.session == session)
    || (e.Dropped? && OpenedFor(log, session, e.client))
  }

  ghost predicate WasRedeemed(log: seq<Event>, session: string, secret: string) {
    exists e :: e in log && e.Refreshed? && e.session == session && e.secret == Hash(secret)
  }

  /* ---- the tables agree with it ---- */

  ghost predicate Links(e: Event, conf: Config, grant: Grant)
    requires e.Linked?
  {
    && grant.codeHash == Hash(e.code) && grant.name == Trim(e.name)
    && grant.expiresAt == Micro(e.at + Configured(conf).pairingTTL)
  }

  /** The scopes are what the request comes to. */
  predicate ScopesAs(requested: seq<string>, scopes: seq<string>) { NormalizeScopes(requested) == Ok(scopes) }

  ghost predicate AllScoped(grants: map<string, Grant>, log: seq<Event>) {
    forall e :: e in log && e.Linked? ==> e.grant in grants && ScopesAs(e.scopes, grants[e.grant].scopes)
  }

  ghost predicate AllLinked(grants: map<string, Grant>, log: seq<Event>, conf: Config) {
    forall e :: e in log && e.Linked? ==> e.grant in grants && Links(e, conf, grants[e.grant])
  }

  ghost predicate GrantsUsed(grants: map<string, Grant>, log: seq<Event>) {
    && (forall g :: g in grants ==> LinkedAs(log, g) && (grants[g].consumedAt.Some? <==> PairedFrom(log, g)))
    && (forall e :: e in log && e.Paired? ==> e.grant in grants)
  }

  ghost predicate GrantsBacked(grants: map<string, Grant>, log: seq<Event>, conf: Config) {
    AllLinked(grants, log, conf) && AllScoped(grants, log) && GrantsUsed(grants, log)
  }

  ghost predicate ClientsBacked(db: Tables, log: seq<Event>) {
    && (forall e :: e in log && e.Paired? ==>
          && e.client in db.clients && e.grant in db.grants
          && db.clients[e.client].name == db.grants[e.grant].name
          && db.clients[e.client].scopes == db.grants[e.grant].scopes)
    && (forall c :: c in db.clients ==> HasClient(log, c))
  }

  ghost predicate SessionsOpened(sessions: map<string, RefreshSession>, log: seq<Event>, conf: Config) {
    && (forall e :: e in log && e.Paired? ==>
          && e.session in sessions && sessions[e.session].client == e.client
          && sessions[e.session].expiresAt == Micro(e.at + Configured(conf).refreshTTL))
    && (forall s :: s in sessions ==> HasSession(log, s))
  }

  ghost predicate SessionsCurrent(sessions: map<string, RefreshSession>, log: seq<Event>) {
    && (forall s :: s in sessions ==>
          LatestSecret(log, s).Some? && sessions[s].current == Hash(LatestSecret(log, s).value))
    && (forall s :: LatestSecret(log, s).Some? ==> s in sessions)
  }

  ghost predicate SessionsBacked(sessions: map<string, RefreshSession>, log: seq<Event>, conf: Config) {
    SessionsOpened(sessions, log, conf) && SessionsCurrent(sessions, log)
  }

  ghost predicate TokensBacked(tokens: map<string, Token>, log: seq<Event>, conf: Config) {
    && (forall e :: e in log && Mints(e) ==>
          && e.token in tokens && tokens[e.token].hash == Hash(e.access) && tokens[e.token].session == e.session
          && tokens[e.token].expiresAt == Micro(e.at + Configured(conf).accessTTL))
    && (forall t :: t in tokens ==> Minted(log, t))
  }

  ghost predicate HistoryBacked(history: map<Hash, string>, log: seq<Event>) {
    && (forall e :: e in log && e.Refreshed? ==> e.secret in history && history[e.secret] == e.session)
    && (forall h :: h in history ==> exists e :: e in log && e.Refreshed? && e.session == history[h] && e.secret == h)
  }

  ghost predicate RevokedBacked(db: Tables, log: seq<Event>) {
    && (forall s :: s in db.sessions ==> (db.sessions[s].revokedAt.Some? <==> Over(log, s)))
    && (forall t :: t in db.tokens && db.tokens[t].session in db.sessions ==>
          (db.tokens[t].revokedAt.Some? ==> db.sessions[db.tokens[t].session].revokedAt.Some?))
    && (forall e :: e in log && (e.SignedOut? || e.Replayed?) ==> e.session in db.sessions)
    && (forall e :: e in log && e.Dropped? ==> e.client in db.clients)
  }

  ghost predicate Backed(st: State, conf: Config) {
    && GrantsBacked(st.db.grants, st.log, conf) && ClientsBacked(st.db, st.log)
    && SessionsBacked(st.db.sessions, st.log, conf) && TokensBacked(st.db.tokens, st.log, conf)
    && HistoryBacked(st.db.history, st.log) && RevokedBacked(st.db, st.log)
  }

  /* ---- one more event ---- */

  lemma LatestAppend(log: seq<Event>, e: Event, s: string)
    ensures LatestSecret(log + [e], s) == if Mints(e) && e.session == s then Some(e.refresh) else LatestSecret(log, s)
  {
    var next := log + [e];
    assert next[|next| - 1] == e && next[..|next| - 1] == log;
  }

  lemma GrantFacts(log: seq<Event>, e: Event, g: string)
    ensures LinkedAs(log + [e], g) <==> LinkedAs(log, g) || (e.Linked? && e.grant == g)
    ensures PairedFrom(log + [e], g) <==> PairedFrom(log, g) || (e.Paired? && e.grant == g)
  {
    var more := log + [e];
    assert forall x :: x in more <==> x in log || x == e;
    if LinkedAs(log, g) { var x :| x in log && x.Linked? && x.grant == g; assert x in more; }
    if PairedFrom(log, g) { var x :| x in log && x.Paired? && x.grant == g; assert x in more; }
    assert e in more;
  }

  lemma GrantsStay(grants: map<string, Grant>, log: seq<Event>, e: Event, conf: Config)
    requires GrantsBacked(grants, log, conf) && !e.Linked? && !e.Paired?
    ensures GrantsBacked(grants, log + [e], conf)
  {
    assert forall x :: x in log + [e] <==> x in log || x == e;
    forall g ensures LinkedAs(log + [e], g) == LinkedAs(log, g) && PairedFrom(log + [e], g) == PairedFrom(log, g) {
      GrantFacts(log, e, g);
    }
  }

  ghost predicate SameNames(before: map<string, Client>, after: map<string, Client>) {
    && after.Keys == before.Keys
    && forall c :: c in before ==> after[c].name == before[c].name && after[c].scopes == before[c].scopes
  }

  lemma ClientsStay(db: Tables, next: Tables, log: seq<Event>, e: Event)
    requires ClientsBacked(db, log) && next.grants == db.grants && SameNames(db.clients, next.clients) && !e.Paired?
    ensures ClientsBacked(next, log + [e])
  {
    var more := log + [e];
    assert forall x :: x in more <==> x in log || x == e;
    forall c | c in next.clients ensures HasClient(more, c) {
      var x :| x in log && x.Paired? && x.client == c;
      assert x in more;
    }
  }

  ghost predicate SameSessions(before: map<string, RefreshSession>, after: map<string, RefreshSession>) {
    && after.Keys == before.Keys
    && forall s :: s in before ==>
         && after[s].client == before[s].client && after[s].current == before[s].current
         && after[s].expiresAt == before[s].expiresAt
  }

  lemma OpenedStay(sessions: map<string, RefreshSession>, next: map<string, RefreshSession>, log: seq<Event>, e: Event,
                   conf: Config)
    requires SessionsOpened(sessions, log, conf) && !e.Paired? && next.Keys == sessions.Keys
    requires forall s :: s in sessions ==>
               next[s].client == sessions[s].client && next[s].expiresAt == sessions[s].expiresAt
    ensures SessionsOpened(next, log + [e], conf)
  {
    var more := log + [e];
    assert forall x :: x in more <==> x in log || x == e;
    forall s | s in next ensures HasSession(more, s) {
      var x :| x in log && x.Paired? && x.session == s;
      assert x in more;
    }
  }

  lemma CurrentStay(sessions: map<string, RefreshSession>, next: map<string, RefreshSession>, log: seq<Event>, e: Event)
    requires SessionsCurrent(sessions, log) && SameSessions(sessions, next) && !Mints(e)
    ensures SessionsCurrent(next, log + [e])
  {
    forall s ensures LatestSecret(log + [e], s) == LatestSecret(log, s) { LatestAppend(log, e, s); }
  }

  lemma SessionsStay(sessions: map<string, RefreshSession>, next: map<string, RefreshSession>, log: seq<Event>,
                     e: Event, conf: Config)
    requires SessionsBacked(sessions, log, conf) && SameSessions(sessions, next) && !Mints(e)
    ensures SessionsBacked(next, log + [e], conf)
  {
    OpenedStay(sessions, next, log, e, conf);
    CurrentStay(sessions, next, log, e);
  }

  /** The event hands out a new current secret for its session. */
  lemma CurrentMinted(sessions: map<string, RefreshSession>, log: seq<Event>, e: Event, row: RefreshSession)
    requires SessionsCurrent(sessions, log) && Mints(e) && row.current == Hash(e.refresh)
    ensures SessionsCurrent(sessions[e.session := row], log + [e])
  {
    forall s ensures LatestSecret(log + [e], s) == if s == e.session then Some(e.refresh) else LatestSecret(log, s) {
      LatestAppend(log, e, s);
    }
  }

  ghost predicate SameTokens(before: map<string, Token>, after: map<string, Token>) {
    && after.Keys == before.Keys
    && forall t :: t in before ==>
         && after[t].session == before[t].session && after[t].hash == before[t].hash
         && after[t].expiresAt == before[t].expiresAt
  }

  lemma TokensStay(tokens: map<string, Token>, next: map<string, Token>, log: seq<Event>, e: Event, conf: Config)
    requires TokensBacked(tokens, log, conf) && SameTokens(tokens, next) && !Mints(e)
    ensures TokensBacked(next, log + [e], conf)
  {
    var more := log + [e];
    assert forall x :: x in more <==> x in log || x == e;
    forall t | t in next ensures Minted(more, t) {
      var x :| x in log && Mints(x) && x.token == t;
      assert x in more;
    }
  }

  lemma HistoryStays(history: map<Hash, string>, log: seq<Event>, e: Event)
    requires HistoryBacked(history, log) && !e.Refreshed?
    ensures HistoryBacked(history, log + [e])
  {
    var more := log + [e];
    assert forall x :: x in more <==> x in log || x == e;
    forall h | h in history ensures exists x :: x in more && x.Refreshed? && x.session == history[h] && x.secret == h {
      var x :| x in log && x.Refreshed? && x.session == history[h] && x.secret == h;
      assert x in more;
    }
  }

  /** What one more event ends. */
  lemma OverAppend(log: seq<Event>, e: Event, s: string)
    requires e.Paired? ==> e.session != s
    ensures Over(log + [e], s) <==> Over(log, s) || Ends(log, e, s)
  {
    var more := log + [e];
    assert forall x :: x in more <==> x in log || x == e;
    forall c ensures OpenedFor(more, s, c) <==> OpenedFor(log, s, c) {
      if OpenedFor(log, s, c) { var x :| x in log && x.Paired? && x.session == s && x.client == c; assert x in more; }
    }
    if Over(log, s) { var x :| x in log && Ends(log, x, s); assert x in more && Ends(more, x, s); }
    if Ends(log, e, s) { assert e in more && Ends(more, e, s); }
    if Over(more, s) { var x :| x in more && Ends(more, x, s); assert Ends(log, x, s); }
  }

  /** An event that ends nothing leaves every standing as it was. */
  lemma RevokedStay(db: Tables, next: Tables, log: seq<Event>, e: Event)
    requires RevokedBacked(db, log) && next.sessions == db.sessions && next.tokens == db.tokens
    requires next.clients.Keys == db.clients.Keys && (e.Linked? || e.Authorized?)
    ensures RevokedBacked(next, log + [e])
  {
    assert forall x :: x in log + [e] <==> x in log || x == e;
    forall s | s in next.sessions ensures next.sessions[s].revokedAt.Some? <==> Over(log + [e], s) {
      OverAppend(log, e, s);
    }
  }

  /** Nothing is handed out and no session's standing changes but as the event says. */
  ghost predicate SameOutside(db: Tables, next: Tables) {
    && next.grants == db.grants && next.history == db.history
    && SameNames(db.clients, next.clients) && SameSessions(db.sessions, next.sessions)
    && SameTokens(db.tokens, next.tokens)
  }

  lemma OutsideStays(st: State, next: State, conf: Config, e: Event)
    requires Backed(st, conf) && SameOutside(st.db, next.db) && next.log == st.log + [e]
    requires !e.Linked? && !e.Paired? && !e.Refreshed? && RevokedBacked(next.db, next.log)
    ensures Backed(next, conf)
  {
    GrantsStay(st.db.grants, st.log, e, conf);
    ClientsStay(st.db, next.db, st.log, e);
    SessionsStay(st.db.sessions, next.db.sessions, st.log, e, conf);
    TokensStay(st.db.tokens, next.db.tokens, st.log, e, conf);
    HistoryStays(st.db.history, st.log, e);
  }

  /* ---- every request keeps the tables backed ---- */

  lemma TouchedNames(db: Tables, client: string, now: Time)
    ensures var next := Touch(db, client, now);
            next == db.(clients := next.clients) && SameNames(db.clients, next.clients)
  {
  }

  lemma AuthorizationBacked(st: State, conf: Config, q: Request)
    requires Backed(st, conf) && q.Authorize?
    ensures Backed(Authorization(st, q), conf)
  {
    var next := Authorization(st, q);
    if next != st {
      var e := next.log[|st.log|];
      TouchedNames(st.db, e.principal.client, q.now);
      RevokedStay(st.db, next.db, st.log, e);
      OutsideStays(st, next, conf, e);
    }
  }

  lemma SessionStands(db: Tables, log: seq<Event>, session: string, now: Time, reason: string, e: Event)
    requires RevokedBacked(db, log) && session in db.sessions
    requires (e.SignedOut? || e.Replayed?) && e.session == session
    ensures RevokedBacked(RevokeSessionRows(db, session, now, reason), log + [e])
  {
    var next := RevokeSessionRows(db, session, now, reason);
    assert forall x :: x in log + [e] <==> x in log || x == e;
    forall s | s in next.sessions ensures next.sessions[s].revokedAt.Some? <==> Over(log + [e], s) {
      OverAppend(log, e, s);
    }
  }

  lemma SessionOutside(db: Tables, session: string, now: Time, reason: string)
    ensures SameOutside(db, RevokeSessionRows(db, session, now, reason))
  {
  }

  lemma SessionRevoked(st: State, next: State, conf: Config, session: string, now: Time, reason: string, e: Event)
    requires Backed(st, conf) && session in st.db.sessions && next.log == st.log + [e]
    requires next.db == RevokeSessionRows(st.db, session, now, reason)
    requires (e.SignedOut? || e.Replayed?) && e.session == session
    ensures Backed(next, conf)
  {
    SessionStands(st.db, st.log, session, now, reason, e);
    SessionOutside(st.db, session, now, reason);
    OutsideStays(st, next, conf, e);
  }

  lemma ClientRevoked(st: State, next: State, conf: Config, client: string, now: Time, reason: string, e: Event)
    requires Backed(st, conf) && RevokeClient(st.db, client, now, reason) == Done(next.db)
    requires next.log == st.log + [e] && e.Dropped? && e.client == client && TokensOk(st.db, conf)
    ensures Backed(next, conf)
  {
    forall s | s in next.db.sessions ensures next.db.sessions[s].revokedAt.Some? <==> Over(next.log, s) {
      OverAppend(st.log, e, s);
      ClientOf(st.db.sessions, st.log, conf, s, client);
    }
    forall t | t in next.db.tokens && next.db.tokens[t].session in next.db.sessions && next.db.tokens[t].revokedAt.Some?
      ensures next.db.sessions[next.db.tokens[t].session].revokedAt.Some?
    {
      assert TokenOk(st.db, conf, st.db.tokens[t]);
    }
    OutsideStays(st, next, conf, e);
  }

  lemma ClientOf(sessions: map<string, RefreshSession>, log: seq<Event>, conf: Config, s: string, client: string)
    requires SessionsBacked(sessions, log, conf) && s in sessions
    ensures OpenedFor(log, s, client) <==> sessions[s].client == client
  {
    var e :| e in log && e.Paired? && e.session == s;
  }

  lemma LeavingBacked(st: State, conf: Config, q: Request)
    requires Backed(st, conf) && AuthOk(st.db, conf) && (q.SignOut? || q.DropClient?)
    ensures Backed(Leaving(st, q), conf)
  {
    var next := Leaving(st, q);
    if next != st {
      var e := next.log[|st.log|];
      if q.DropClient? { ClientRevoked(st, next, conf, q.client, q.now, q.reason, e); }
      else { SessionRevoked(st, next, conf, ParseToken(q.value, "rt").value.0, q.now, q.reason, e); }
    }
  }

  lemma LinkLinked(grants: map<string, Grant>, log: seq<Event>, e: Event, grant: Grant, conf: Config)
    requires AllLinked(grants, log, conf) && e.Linked? && e.grant !in grants && Links(e, conf, grant)
    requires AllScoped(grants, log) && ScopesAs(e.scopes, grant.scopes)
    ensures AllLinked(grants[e.grant := grant], log + [e], conf) && AllScoped(grants[e.grant := grant], log + [e])
  {
    assert forall x :: x in log + [e] <==> x in log || x == e;
  }

  lemma LinkUsed(grants: map<string, Grant>, log: seq<Event>, e: Event, grant: Grant)
    requires GrantsUsed(grants, log) && e.Linked? && e.grant !in grants && grant.consumedAt.None?
    ensures GrantsUsed(grants[e.grant := grant], log + [e])
  {
    var next, more := grants[e.grant := grant], log + [e];
    assert forall x :: x in more <==> x in log || x == e;
    forall g | g in next ensures LinkedAs(more, g) && (next[g].consumedAt.Some? <==> PairedFrom(more, g)) {
      GrantFacts(log, e, g);
    }
  }

  lemma LinkGrants(grants: map<string, Grant>, log: seq<Event>, e: Event, grant: Grant, conf: Config)
    requires GrantsBacked(grants, log, conf) && e.Linked? && e.grant !in grants
    requires Links(e, conf, grant) && ScopesAs(e.scopes, grant.scopes) && grant.consumedAt.None?
    ensures GrantsBacked(grants[e.grant := grant], log + [e], conf)
  {
    LinkLinked(grants, log, e, grant, conf);
    LinkUsed(grants, log, e, grant);
  }

  lemma LinkClients(db: Tables, log: seq<Event>, e: Event, grant: Grant)
    requires ClientsBacked(db, log) && e.Linked? && e.grant !in db.grants
    ensures ClientsBacked(db.(grants := db.grants[e.grant := grant]), log + [e])
  {
    var more := log + [e];
    assert forall x :: x in more <==> x in log || x == e;
    forall c | c in db.clients ensures HasClient(more, c) {
      var x :| x in log && x.Paired? && x.client == c;
      assert x in more;
    }
  }

  lemma LinkBacked(st: State, conf: Config, q: Request)
    requires Backed(st, conf) && q.CreateLink?
    ensures Backed(Link(st, conf, q), conf)
  {
    var next := Link(st, conf, q);
    GrantedCases(st.db, conf, q.id, Hash(q.code), Trim(q.name), NormalizeScopes(q.scopes), q.now);
    if next.db != st.db {
      var e := Linked(q.id, q.code, q.name, q.scopes, q.now);
      var grant := next.db.grants[q.id];
      LinkGrants(st.db.grants, st.log, e, grant, conf);
      LinkClients(st.db, st.log, e, grant);
      SessionsStay(st.db.sessions, st.db.sessions, st.log, e, conf);
      TokensStay(st.db.tokens, st.db.tokens, st.log, e, conf);
      HistoryStays(st.db.history, st.log, e);
      RevokedStay(st.db, next.db, st.log, e);
    }
  }

  lemma LinksSame(e: Event, conf: Config, grant: Grant, next: Grant)
    requires e.Linked? && Links(e, conf, grant)
    requires next == grant.(consumedAt := next.consumedAt, client := next.client)
    ensures Links(e, conf, next)
  {
  }

  lemma PairLinked(grants: map<string, Grant>, log: seq<Event>, e: Event, grant: Grant, conf: Config)
    requires AllLinked(grants, log, conf) && e.Paired? && e.grant in grants
    requires grant == grants[e.grant].(consumedAt := grant.consumedAt, client := grant.client)
    ensures AllLinked(grants[e.grant := grant], log + [e], conf)
    ensures AllScoped(grants, log) ==> AllScoped(grants[e.grant := grant], log + [e])
  {
    var next := grants[e.grant := grant];
    assert forall x :: x in log + [e] <==> x in log || x == e;
    forall x | x in log + [e] && x.Linked? ensures x.grant in next && Links(x, conf, next[x.grant]) {
      LinksSame(x, conf, grants[x.grant], next[x.grant]);
    }
  }

  lemma PairUsed(grants: map<string, Grant>, log: seq<Event>, e: Event, grant: Grant)
    requires GrantsUsed(grants, log) && e.Paired? && e.grant in grants && grant.consumedAt.Some?
    ensures GrantsUsed(grants[e.grant := grant], log + [e])
  {
    var next, more := grants[e.grant := grant], log + [e];
    assert forall x :: x in more <==> x in log || x == e;
    forall g | g in next ensures LinkedAs(more, g) && (next[g].consumedAt.Some? <==> PairedFrom(more, g)) {
      GrantFacts(log, e, g);
    }
  }

  lemma PairGrants(grants: map<string, Grant>, log: seq<Event>, e: Event, grant: Grant, conf: Config)
    requires GrantsBacked(grants, log, conf) && e.Paired? && e.grant in grants && grant.consumedAt.Some?
    requires grant == grants[e.grant].(consumedAt := grant.consumedAt, client := grant.client)
    ensures GrantsBacked(grants[e.grant := grant], log + [e], conf)
  {
    PairLinked(grants, log, e, grant, conf);
    PairUsed(grants, log, e, grant);
  }

  lemma PairClients(db: Tables, next: Tables, log: seq<Event>, e: Event, grant: Grant, client: Client)
    requires ClientsBacked(db, log) && e.Paired? && e.grant in db.grants && e.client !in db.clients
    requires next.grants == db.grants[e.grant := grant] && next.clients == db.clients[e.client := client]
    requires grant.name == db.grants[e.grant].name == client.name
    requires grant.scopes == db.grants[e.grant].scopes == client.scopes
    ensures ClientsBacked(next, log + [e])
  {
    var more := log + [e];
    assert forall x :: x in more <==> x in log || x == e;
    forall c | c in next.clients ensures HasClient(more, c) {
      assert e in more;
      if c != e.client { var x :| x in log && x.Paired? && x.client == c; assert x in more; }
    }
  }

  lemma PairOpened(sessions: map<string, RefreshSession>, log: seq<Event>, e: Event, row: RefreshSession, conf: Config)
    requires SessionsOpened(sessions, log, conf) && e.Paired? && e.session !in sessions && row.client == e.client
    requires row.expiresAt == Micro(e.at + Configured(conf).refreshTTL)
    ensures SessionsOpened(sessions[e.session := row], log + [e], conf)
  {
    var next, more := sessions[e.session := row], log + [e];
    assert forall x :: x in more <==> x in log || x == e;
    forall s | s in next ensures HasSession(more, s) {
      assert e in more;
      if s != e.session { var x :| x in log && x.Paired? && x.session == s; assert x in more; }
    }
  }

  lemma PairSessions(sessions: map<string, RefreshSession>, log: seq<Event>, e: Event, row: RefreshSession,
                     conf: Config)
    requires SessionsBacked(sessions, log, conf) && e.Paired? && e.session !in sessions
    requires row.client == e.client && row.current == Hash(e.refresh)
    requires row.expiresAt == Micro(e.at + Configured(conf).refreshTTL)
    ensures SessionsBacked(sessions[e.session := row], log + [e], conf)
  {
    PairOpened(sessions, log, e, row, conf);
    CurrentMinted(sessions, log, e, row);
  }

  /** A new token, handed out by this event. */
  lemma MintTokens(tokens: map<string, Token>, log: seq<Event>, e: Event, row: Token, conf: Config)
    requires TokensBacked(tokens, log, conf) && Mints(e) && e.token !in tokens
    requires row.hash == Hash(e.access) && row.session == e.session
    requires row.expiresAt == Micro(e.at + Configured(conf).accessTTL)
    ensures TokensBacked(tokens[e.token := row], log + [e], conf)
  {
    var next, more := tokens[e.token := row], log + [e];
    assert forall x :: x in more <==> x in log || x == e;
    forall t | t in next ensures Minted(more, t) {
      assert e in more;
      if t != e.token { var x :| x in log && Mints(x) && x.token == t; assert x in more; }
    }
  }

  lemma PairRevoked(db: Tables, next: Tables, log: seq<Event>, e: Event, conf: Config)
    requires RevokedBacked(db, log) && SessionsBacked(db.sessions, log, conf) && TokensOk(db, conf)
    requires e.Paired? && e.session !in db.sessions && e.client !in db.clients && e.token !in db.tokens
    requires next.sessions.Keys == db.sessions.Keys + {e.session} && next.sessions[e.session].revokedAt.None?
    requires forall s :: s in db.sessions ==> next.sessions[s] == db.sessions[s]
    requires next.tokens.Keys == db.tokens.Keys + {e.token} && next.tokens[e.token].revokedAt.None?
    requires forall t :: t in db.tokens ==> next.tokens[t] == db.tokens[t]
    requires db.clients.Keys <= next.clients.Keys
    ensures RevokedBacked(next, log + [e])
  {
    var more := log + [e];
    assert forall x :: x in more <==> x in log || x == e;
    forall s | s in next.sessions ensures next.sessions[s].revokedAt.Some? <==> Over(more, s) {
      if s == e.session { NewNotOver(db, log, e, conf); } else { OverAppend(log, e, s); }
    }
    forall t | t in db.tokens ensures db.tokens[t].session in db.sessions { assert TokenOk(db, conf, db.tokens[t]); }
  }

  lemma NewNotOver(db: Tables, log: seq<Event>, e: Event, conf: Config)
    requires RevokedBacked(db, log) && SessionsBacked(db.sessions, log, conf)
    requires e.Paired? && e.session !in db.sessions && e.client !in db.clients
    ensures !Over(log + [e], e.session)
  {
    var more := log + [e];
    assert forall x :: x in more <==> x in log || x == e;
    assert forall y :: y in more && y.Paired? && y.session == e.session ==> y == e;
  }

  /** The rows that a pairing writes. */
  ghost predicate PairRows(db: Tables, next: Tables, e: Event, conf: Config, grant: Grant, client: Client,
                           row: RefreshSession, token: Token)
    requires e.Paired?
  {
    && e.grant in db.grants && e.client !in db.clients && e.session !in db.sessions && e.token !in db.tokens
    && next == db.(grants := db.grants[e.grant := grant], clients := db.clients[e.client := client],
                   sessions := db.sessions[e.session := row], tokens := db.tokens[e.token := token])
    && grant == db.grants[e.grant].(consumedAt := Some(e.at), client := Some(e.client))
    && client.name == grant.name && client.scopes == grant.scopes && client.createdAt == e.at
    && client.revokedAt.None? && row.createdAt == e.at
    && row.client == e.client && row.current == Hash(e.refresh) && row.revokedAt.None?
    && row.expiresAt == Micro(e.at + Configured(conf).refreshTTL)
    && token.hash == Hash(e.access) && token.session == e.session && token.revokedAt.None?
    && token.client == e.client && token.scopes == grant.scopes
    && token.expiresAt == Micro(e.at + Configured(conf).accessTTL)
  }

  lemma ExchangeWrites(db: Tables, conf: Config, q: Request, code: Hash)
    returns (e: Event, grant: Grant, client: Client, row: RefreshSession, token: Token)
    requires q.Pair? && Exchange(db, code, q.now, PairMaterial(conf, q)).Done?
    ensures GrantWith(db.grants, code).Some?
    ensures e == Paired(GrantWith(db.grants, code).value, q.client, q.session, q.token, q.access, q.refresh, q.now)
    ensures PairRows(db, Exchange(db, code, q.now, PairMaterial(conf, q)).value, e, conf, grant, client, row, token)
  {
    var g, next := GrantWith(db.grants, code).value, Exchange(db, code, q.now, PairMaterial(conf, q)).value;
    e := Paired(g, q.client, q.session, q.token, q.access, q.refresh, q.now);
    grant, client, row, token := next.grants[g], next.clients[q.client], next.sessions[q.session], next.tokens[q.token];
  }

  lemma ExchangedBacked(st: State, next: State, conf: Config, q: Request, code: Hash)
    requires Backed(st, conf) && TokensOk(st.db, conf) && q.Pair?
    requires Exchange(st.db, code, q.now, PairMaterial(conf, q)) == Done(next.db)
    requires GrantWith(st.db.grants, code).Some?
    requires next.log == st.log + [PairedAs(GrantWith(st.db.grants, code).value, q)]
    ensures Backed(next, conf)
  {
    var e, grant, client, row, token := ExchangeWrites(st.db, conf, q, code);
    PairedBacked(st, next, conf, e, grant, client, row, token);
  }

  function PairedAs(grant: string, q: Request): Event
    requires q.Pair?
  {
    Paired(grant, q.client, q.session, q.token, q.access, q.refresh, q.now)
  }

  lemma PairingShape(st: State, conf: Config, q: Request)
    requires q.Pair?
    ensures var next, code := Pairing(st, conf, q), Hash(Trim(q.code));
            var out := Exchange(st.db, code, q.now, PairMaterial(conf, q));
            if Trim(q.code) == "" || ByteLength(Trim(q.code)) > 512 || out.Refused? then next == st
            else
              && GrantWith(st.db.grants, code).Some? && next.db == out.value
              && next.log == st.log + [PairedAs(GrantWith(st.db.grants, code).value, q)]
  {
  }

  lemma PairingBacked(st: State, conf: Config, q: Request)
    requires Backed(st, conf) && TokensOk(st.db, conf) && q.Pair?
    ensures Backed(Pairing(st, conf, q), conf)
  {
    PairingShape(st, conf, q);
    if Pairing(st, conf, q) != st { ExchangedBacked(st, Pairing(st, conf, q), conf, q, Hash(Trim(q.code))); }
  }

  lemma PairedPeople(db: Tables, next: Tables, log: seq<Event>, conf: Config, e: Event, grant: Grant, client: Client,
                     row: RefreshSession, token: Token)
    requires GrantsBacked(db.grants, log, conf) && ClientsBacked(db, log) && SessionsBacked(db.sessions, log, conf)
    requires e.Paired? && PairRows(db, next, e, conf, grant, client, row, token)
    ensures GrantsBacked(next.grants, log + [e], conf) && ClientsBacked(next, log + [e])
    ensures SessionsBacked(next.sessions, log + [e], conf)
  {
    PairGrants(db.grants, log, e, grant, conf);
    PairClients(db, next, log, e, grant, client);
    PairSessions(db.sessions, log, e, row, conf);
  }

  lemma PairedTokens(db: Tables, next: Tables, log: seq<Event>, conf: Config, e: Event, grant: Grant, client: Client,
                     row: RefreshSession, token: Token)
    requires TokensBacked(db.tokens, log, conf) && HistoryBacked(db.history, log) && RevokedBacked(db, log)
    requires SessionsBacked(db.sessions, log, conf) && TokensOk(db, conf)
    requires e.Paired? && PairRows(db, next, e, conf, grant, client, row, token)
    ensures TokensBacked(next.tokens, log + [e], conf) && HistoryBacked(next.history, log + [e])
    ensures RevokedBacked(next, log + [e])
  {
    MintTokens(db.tokens, log, e, token, conf);
    HistoryStays(db.history, log, e);
    PairRevoked(db, next, log, e, conf);
  }

  lemma PairedBacked(st: State, next: State, conf: Config, e: Event, grant: Grant, client: Client, row: RefreshSession,
                     token: Token)
    requires Backed(st, conf) && TokensOk(st.db, conf) && e.Paired? && next.log == st.log + [e]
    requires PairRows(st.db, next.db, e, conf, grant, client, row, token)
    ensures Backed(next, conf)
  {
    PairedPeople(st.db, next.db, st.log, conf, e, grant, client, row, token);
    PairedTokens(st.db, next.db, st.log, conf, e, grant, client, row, token);
  }

  /* ---- refresh ---- */

  lemma RefreshSessions(sessions: map<string, RefreshSession>, log: seq<Event>, e: Event, row: RefreshSession,
                        conf: Config)
    requires SessionsBacked(sessions, log, conf) && e.Refreshed? && e.session in sessions
    requires row.client == sessions[e.session].client && row.expiresAt == sessions[e.session].expiresAt
    requires row.current == Hash(e.refresh)
    ensures SessionsBacked(sessions[e.session := row], log + [e], conf)
  {
    OpenedStay(sessions, sessions[e.session := row], log, e, conf);
    CurrentMinted(sessions, log, e, row);
  }

  lemma RefreshHistory(history: map<Hash, string>, log: seq<Event>, e: Event)
    requires HistoryBacked(history, log) && e.Refreshed? && e.secret !in history
    ensures HistoryBacked(history[e.secret := e.session], log + [e])
  {
    var next, more := history[e.secret := e.session], log + [e];
    assert forall x :: x in more <==> x in log || x == e;
    forall h | h in next ensures exists x :: x in more && x.Refreshed? && x.session == next[h] && x.secret == h {
      assert e in more;
      if h != e.secret {
        var x :| x in log && x.Refreshed? && x.session == history[h] && x.secret == h;
        assert x in more;
      }
    }
  }

  lemma RefreshRevoked(db: Tables, next: Tables, log: seq<Event>, e: Event)
    requires RevokedBacked(db, log) && e.Refreshed? && e.session in db.sessions && e.token !in db.tokens
    requires next.sessions.Keys == db.sessions.Keys && next.clients.Keys == db.clients.Keys
    requires forall s :: s in db.sessions ==> next.sessions[s].revokedAt == db.sessions[s].revokedAt
    requires next.tokens.Keys == db.tokens.Keys + {e.token} && next.tokens[e.token].revokedAt.None?
    requires forall t :: t in db.tokens ==> next.tokens[t] == db.tokens[t]
    ensures RevokedBacked(next, log + [e])
  {
    var more := log + [e];
    assert forall x :: x in more <==> x in log || x == e;
    forall s | s in next.sessions ensures next.sessions[s].revokedAt.Some? <==> Over(more, s) { OverAppend(log, e, s); }
  }

  /** The rows that a rotation writes. */
  ghost predicate RefreshRows(db: Tables, next: Tables, e: Event, conf: Config, row: RefreshSession, token: Token)
    requires e.Refreshed?
  {
    && e.session in db.sessions && e.token !in db.tokens && e.secret !in db.history
    && next == db.(sessions := db.sessions[e.session := row], tokens := db.tokens[e.token := token],
                   history := db.history[e.secret := e.session], clients := next.clients)
    && SameNames(db.clients, next.clients)
    && row == db.sessions[e.session].(current := Hash(e.refresh), rotatedAt := Some(e.at))
    && row.client in next.clients && next.clients[row.client].lastSeen == Some(e.at) && token.client == row.client
    && token.hash == Hash(e.access) && token.session == e.session && token.revokedAt.None?
    && token.expiresAt == Micro(e.at + Configured(conf).accessTTL)
  }

  lemma RotatedBacked(st: State, next: State, conf: Config, e: Event, row: RefreshSession, token: Token)
    requires Backed(st, conf) && e.Refreshed? && next.log == st.log + [e]
    requires RefreshRows(st.db, next.db, e, conf, row, token)
    ensures Backed(next, conf)
  {
    GrantsStay(st.db.grants, st.log, e, conf);
    ClientsStay(st.db, next.db, st.log, e);
    RefreshSessions(st.db.sessions, st.log, e, row, conf);
    MintTokens(st.db.tokens, st.log, e, token, conf);
    RefreshHistory(st.db.history, st.log, e);
    RefreshRevoked(st.db, next.db, st.log, e);
  }

  lemma RotatedWrites(db: Tables, conf: Config, q: Request, e: Event) returns (row: RefreshSession, token: Token)
    requires q.Refresh? && e.Refreshed? && e == Refreshed(e.session, e.secret, q.token, q.access, q.refresh, q.now)
    requires Live(db, e.session, q.now) && db.sessions[e.session].current == e.secret
    requires e.secret !in db.history && q.token !in db.tokens
    ensures RefreshRows(db, RotatedRows(db, e.session, q.now, RefreshMaterial(conf, q)), e, conf, row, token)
  {
    var next := RotatedRows(db, e.session, q.now, RefreshMaterial(conf, q));
    row := db.sessions[e.session].(current := Hash(q.refresh), rotatedAt := Some(q.now));
    token := next.tokens[q.token];
  }

  /** The answer of a rotation, in the order of its checks. */
  lemma RotateAnswers(db: Tables, session: string, presented: Hash, now: Time, m: Material)
    ensures var out := Rotate(db, session, presented, now, m);
            if out.1.Done? then
              && Live(db, session, now) && db.sessions[session].current == presented
              && presented !in db.history && m.token !in db.tokens && out.0 == RotatedRows(db, session, now, m)
            else if out.1 == Refused(RefreshReplay) then
              && Live(db, session, now) && db.sessions[session].current != presented && Redeemed(db, session, presented)
              && out.0 == RevokeSessionRows(db, session, now, "refresh_replay")
            else out.0 == db
  {
  }

  lemma RefreshedBacked(st: State, next: State, conf: Config, q: Request, session: string, presented: Hash)
    requires Backed(st, conf) && q.Refresh?
    requires Live(st.db, session, q.now) && st.db.sessions[session].current == presented
    requires presented !in st.db.history && q.token !in st.db.tokens
    requires next.db == RotatedRows(st.db, session, q.now, RefreshMaterial(conf, q))
    requires next.log == st.log + [Refreshed(session, presented, q.token, q.access, q.refresh, q.now)]
    ensures Backed(next, conf)
  {
    var e := Refreshed(session, presented, q.token, q.access, q.refresh, q.now);
    var row, token := RotatedWrites(st.db, conf, q, e);
    RotatedBacked(st, next, conf, e, row, token);
  }

  lemma RefreshingShape(st: State, conf: Config, q: Request, session: string, secret: string)
    requires q.Refresh? && ParseToken(q.value, "rt") == Ok((session, secret))
    ensures var next := Refreshing(st, conf, q);
            var out := Rotate(st.db, session, Hash(secret), q.now, RefreshMaterial(conf, q));
            && next.db == out.0
            && next.log == if out.1.Done?
                           then st.log + [Refreshed(session, Hash(secret), q.token, q.access, q.refresh, q.now)]
                           else if out.1 == Refused(RefreshReplay) then st.log + [Replayed(session, q.now)]
                           else st.log
  {
  }

  lemma RefreshingBacked(st: State, conf: Config, q: Request)
    requires Backed(st, conf) && q.Refresh?
    ensures Backed(Refreshing(st, conf, q), conf)
  {
    var parts := ParseToken(q.value, "rt");
    if parts.Ok? {
      RefreshingShape(st, conf, q, parts.value.0, parts.value.1);
      ShownBacked(st, Refreshing(st, conf, q), conf, q, parts.value.0, Hash(parts.value.1));
    }
  }

  lemma ShownBacked(st: State, next: State, conf: Config, q: Request, session: string, presented: Hash)
    requires Backed(st, conf) && q.Refresh?
    requires var out := Rotate(st.db, session, presented, q.now, RefreshMaterial(conf, q));
             && next.db == out.0
             && next.log == if out.1.Done?
                            then st.log + [Refreshed(session, presented, q.token, q.access, q.refresh, q.now)]
                            else if out.1 == Refused(RefreshReplay) then st.log + [Replayed(session, q.now)]
                            else st.log
    ensures Backed(next, conf)
  {
    RotateAnswers(st.db, session, presented, q.now, RefreshMaterial(conf, q));
    if Live(st.db, session, q.now) && next.log != st.log {
      if next.log[|st.log|].Refreshed? { RefreshedBacked(st, next, conf, q, session, presented); }
      else { SessionRevoked(st, next, conf, session, q.now, "refresh_replay", Replayed(session, q.now)); }
    }
  }

  lemma StepBacked(st: State, conf: Config, q: Request)
    requires Backed(st, conf) && AuthOk(st.db, conf)
    ensures Backed(Step(st, conf, q), conf)
  {
    match q
    case CreateLink(_, _, _, _, _) => LinkBacked(st, conf, q);
    case Pair(_, _, _, _, _, _, _) => PairingBacked(st, conf, q);
    case Authorize(_, _) => AuthorizationBacked(st, conf, q);
    case Refresh(_, _, _, _, _) => RefreshingBacked(st, conf, q);
    case _ => LeavingBacked(st, conf, q);
  }
}
