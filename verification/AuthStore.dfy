/** The auth store: one-time pairing grants, rotating refresh secrets with replay detection, access
    tokens and revocation. The functions say what each transaction commits; the class does it. */
module AuthStore {
  import opened RuntimeTypes

  /** SHA-256, as far as the program relies on it: an injective image of the secret. */
  datatype Hash = Hash(secret: string)

  datatype AuthError =
    | InvalidCredential | ExpiredCredential | ConsumedGrant | RefreshReplay | Revoked | UnknownClient
    | StoreError  // a primary key or unique index refused a row

  datatype Outcome<T> = Done(value: T) | Refused(error: AuthError)

  datatype Grant = Grant(codeHash: Hash, name: string, scopes: seq<string>, expiresAt: Time,
                         consumedAt: Option<Time>, client: Option<string>)

  datatype Client = Client(name: string, scopes: seq<string>, createdAt: Time, lastSeen: Option<Time>,
                           revokedAt: Option<Time>)

  datatype RefreshSession = RefreshSession(client: string, current: Hash, expiresAt: Time, createdAt: Time,
                                           rotatedAt: Option<Time>, revokedAt: Option<Time>,
                                           reason: Option<string>)

  datatype Token = Token(session: string, client: string, hash: Hash, scopes: seq<string>, expiresAt: Time,
                         revokedAt: Option<Time>)

  datatype Tables = Tables(
    grants: map<string, Grant>,
    clients: map<string, Client>,
    sessions: map<string, RefreshSession>,
    history: map<Hash, string>,      // redeemed refresh secrets and their session
    tokens: map<string, Token>)

  const EMPTY := Tables(map[], map[], map[], map[], map[])

  datatype Principal = Principal(client: string, name: string, session: string, scopes: seq<string>)

  /** What the service mints for one exchange or refresh. */
  datatype Material = Material(client: string, session: string, token: string, access: Hash, refresh: Hash,
                               accessExpires: Time, refreshExpires: Time)

  /* ---- transactions ---- */

  ghost predicate HoldsCode(grants: map<string, Grant>, g: string, code: Hash) {
    g in grants && grants[g].codeHash == code
  }

  ghost function GrantWith(grants: map<string, Grant>, code: Hash): (o: Option<string>)
    ensures o.Some? ==> HoldsCode(grants, o.value, code)
    ensures o.None? ==> forall g :: !HoldsCode(grants, g, code)
  {
    if g :| HoldsCode(grants, g, code) then Some(g) else None
  }

  ghost function CreateGrant(db: Tables, id: string, code: Hash, name: string, scopes: seq<string>,
                             expires: Time): Outcome<Tables> {
    if id in db.grants || GrantWith(db.grants, code).Some? then Refused(StoreError)
    else Done(db.(grants := db.grants[id := Grant(code, name, scopes, Micro(expires), None, None)]))
  }

  ghost function Exchange(db: Tables, code: Hash, now: Time, m: Material): Outcome<Tables> {
    match GrantWith(db.grants, code)
    case None => Refused(InvalidCredential)
    case Some(g) =>
      var grant := db.grants[g];
      if grant.consumedAt.Some? then Refused(ConsumedGrant)
      else if grant.expiresAt <= now then Refused(ExpiredCredential)
      else if m.client in db.clients || m.session in db.sessions || m.token in db.tokens then Refused(StoreError)
      else Done(db.(
             clients := db.clients[m.client := Client(grant.name, grant.scopes, now, None, None)],
             sessions :=
               db.sessions[m.session :=
                           RefreshSession(m.client, m.refresh, Micro(m.refreshExpires), now, None, None, None)],
             tokens := db.tokens[m.token :=
                                 Token(m.session, m.client, m.access, grant.scopes, Micro(m.accessExpires), None)],
             grants := db.grants[g := grant.(consumedAt := Some(now), client := Some(m.client))]))
  }

  function Authenticate(db: Tables, token: string, presented: Hash, now: Time): Outcome<Principal> {
    if token !in db.tokens then Refused(InvalidCredential)
    else
      var t := db.tokens[token];
      if t.session !in db.sessions || t.client !in db.clients then Refused(InvalidCredential)
      else if t.hash != presented then Refused(InvalidCredential)
      else if t.revokedAt.Some? || db.sessions[t.session].revokedAt.Some? || db.clients[t.client].revokedAt.Some?
      then Refused(Revoked)
      else if t.expiresAt <= now then Refused(ExpiredCredential)
      else Done(Principal(t.client, db.clients[t.client].name, t.session, t.scopes))
  }

  /** A successful authentication notes the time, at most once a minute. */
  function Touch(db: Tables, client: string, now: Time): Tables {
    if client in db.clients
      && (db.clients[client].lastSeen.None? || db.clients[client].lastSeen.value < now - 60 * SECOND)
    then db.(clients := db.clients[client := db.clients[client].(lastSeen := Some(now))])
    else db
  }

  function First<T>(prior: Option<T>, value: T): Option<T> { if prior.Some? then prior else Some(value) }

  function RevokeTokens(tokens: map<string, Token>, hit: set<string>, now: Time): map<string, Token> {
    map t | t in tokens :: if t in hit then tokens[t].(revokedAt := First(tokens[t].revokedAt, now)) else tokens[t]
  }

  function TokensOf(tokens: map<string, Token>, session: string): set<string> {
    set t | t in tokens && tokens[t].session == session
  }

  function EndSession(row: RefreshSession, now: Time, reason: string): RefreshSession {
    row.(revokedAt := First(row.revokedAt, now), reason := First(row.reason, reason))
  }

  /** The two updates; a session without a row has none to update. */
  function RevokeSessionRows(db: Tables, session: string, now: Time, reason: string): Tables {
    db.(sessions := if session in db.sessions then db.sessions[session := EndSession(db.sessions[session], now, reason)]
        else db.sessions,
        tokens := RevokeTokens(db.tokens, TokensOf(db.tokens, session), now))
  }

  predicate Live(db: Tables, session: string, now: Time) {
    && session in db.sessions && db.sessions[session].client in db.clients
    && db.sessions[session].revokedAt.None? && db.clients[db.sessions[session].client].revokedAt.None?
    && now < db.sessions[session].expiresAt
  }

  predicate Redeemed(db: Tables, session: string, presented: Hash) {
    presented in db.history && db.history[presented] == session
  }

  function RotatedRows(db: Tables, session: string, now: Time, m: Material): Tables
    requires session in db.sessions && db.sessions[session].client in db.clients
  {
    var row := db.sessions[session];
    var client := db.clients[row.client];
    db.(history := db.history[row.current := session],
        sessions := db.sessions[session := row.(current := m.refresh, rotatedAt := Some(now))],
        tokens := db.tokens[m.token :=
                            Token(session, row.client, m.access, client.scopes, Micro(m.accessExpires), None)],
        clients := db.clients[row.client := client.(lastSeen := Some(now))])
  }

  /** The tables after the transaction, and its answer. A replay is refused and committed. */
  function Rotate(db: Tables, session: string, presented: Hash, now: Time, m: Material): (Tables, Outcome<Time>) {
    if session !in db.sessions || db.sessions[session].client !in db.clients then (db, Refused(InvalidCredential))
    else if db.sessions[session].revokedAt.Some? || db.clients[db.sessions[session].client].revokedAt.Some?
    then (db, Refused(Revoked))
    else if db.sessions[session].expiresAt <= now then (db, Refused(ExpiredCredential))
    else if db.sessions[session].current != presented then
      if Redeemed(db, session, presented)
      then (RevokeSessionRows(db, session, now, "refresh_replay"), Refused(RefreshReplay))
      else (db, Refused(InvalidCredential))
    else if presented in db.history || m.token in db.tokens then (db, Refused(StoreError))
    else (RotatedRows(db, session, now, m), Done(db.sessions[session].expiresAt))
  }

  function Logout(db: Tables, session: string, presented: Hash, now: Time, reason: string): Outcome<Tables> {
    if session !in db.sessions || db.sessions[session].current != presented then Refused(InvalidCredential)
    else Done(RevokeSessionRows(db, session, now, reason))
  }

  function EndSessions(sessions: map<string, RefreshSession>, client: string, now: Time,
                       reason: string): map<string, RefreshSession> {
    map s | s in sessions :: if sessions[s].client == client then EndSession(sessions[s], now, reason) else sessions[s]
  }

  function TokensOfClient(tokens: map<string, Token>, client: string): set<string> {
    set t | t in tokens && tokens[t].client == client
  }

  function RevokeClient(db: Tables, client: string, now: Time, reason: string): Outcome<Tables> {
    if client !in db.clients then Refused(UnknownClient)
    else Done(db.(
           clients := db.clients[client := db.clients[client].(revokedAt := First(db.clients[client].revokedAt, now))],
           sessions := EndSessions(db.sessions, client, now, reason),
           tokens := RevokeTokens(db.tokens, TokensOfClient(db.tokens, client), now)))
  }

  /* ---- what the updates leave ---- */

  /** The session is over, since it first was, for the reason first given. */
  predicate EndedRow(before: RefreshSession, after: RefreshSession, now: Time, reason: string) {
    && after == before.(revokedAt := after.revokedAt, reason := after.reason)
    && after.revokedAt == (match before.revokedAt case Some(t) => Some(t) case None => Some(now))
    && after.reason == (match before.reason case Some(r) => Some(r) case None => Some(reason))
  }

  predicate EndedToken(before: Token, after: Token, now: Time) {
    && after == before.(revokedAt := after.revokedAt)
    && after.revokedAt == (match before.revokedAt case Some(t) => Some(t) case None => Some(now))
  }

  /** The sessions and tokens chosen are over, and nothing else in the two tables changes. */
  ghost predicate EndsRows(before: Tables, after: Tables, sessions: set<string>, tokens: set<string>, now: Time,
                           reason: string) {
    && after.sessions.Keys == before.sessions.Keys && after.tokens.Keys == before.tokens.Keys
    && (forall s :: s in before.sessions ==>
          if s in sessions then EndedRow(before.sessions[s], after.sessions[s], now, reason)
          else after.sessions[s] == before.sessions[s])
    && (forall t :: t in before.tokens ==>
          if t in tokens then EndedToken(before.tokens[t], after.tokens[t], now)
          else after.tokens[t] == before.tokens[t])
  }

  /** Revoking a session ends it and its tokens and touches nothing else. */
  lemma RevokeSessionExact(db: Tables, session: string, now: Time, reason: string)
    ensures var next := RevokeSessionRows(db, session, now, reason);
            && next == db.(sessions := next.sessions, tokens := next.tokens)
            && EndsRows(db, next, {session}, (set t | t in db.tokens && db.tokens[t].session == session), now, reason)
  {
  }

  /** Revoking a client ends it, all its sessions and all its tokens and touches nothing else. */
  lemma RevokeClientExact(db: Tables, client: string, now: Time, reason: string)
    ensures var out := RevokeClient(db, client, now, reason);
            if client !in db.clients then out == Refused(UnknownClient)
            else
              && out.Done? && out.value == db.(clients := out.value.clients, sessions := out.value.sessions,
                                               tokens := out.value.tokens)
              && EndsRows(db, out.value, (set s | s in db.sessions && db.sessions[s].client == client),
                          (set t | t in db.tokens && db.tokens[t].client == client), now, reason)
              && out.value.clients.Keys == db.clients.Keys
              && out.value.clients[client] == db.clients[client].(revokedAt := out.value.clients[client].revokedAt)
              && out.value.clients[client].revokedAt
                 == (match db.clients[client].revokedAt case Some(t) => Some(t) case None => Some(now))
              && forall c :: c in db.clients && c != client ==> out.value.clients[c] == db.clients[c]
  {
  }

  /** A client that has just been seen: its note is at most a minute old, a younger note is kept, and nothing
      but the note changes. */
  lemma TouchExact(db: Tables, client: string, now: Time)
    requires client in db.clients
    ensures var next := Touch(db, client, now);
            && next == db.(clients := next.clients) && next.clients.Keys == db.clients.Keys
            && (forall c :: c in db.clients && c != client ==> next.clients[c] == db.clients[c])
            && next.clients[client] == db.clients[client].(lastSeen := next.clients[client].lastSeen)
            && next.clients[client].lastSeen.Some? && now - 60 * SECOND <= next.clients[client].lastSeen.value
            && (next.clients[client].lastSeen == Some(now)
                || next.clients[client].lastSeen == db.clients[client].lastSeen)
            && (db.clients[client].lastSeen.Some? && now - 60 * SECOND <= db.clients[client].lastSeen.value ==>
                  next.clients[client].lastSeen == db.clients[client].lastSeen)
  {
  }

  /* ---- the store ---- */

  class PostgresStore {
    var grants: map<string, Grant>
    var clients: map<string, Client>
    var sessions: map<string, RefreshSession>
    var history: map<Hash, string>
    var tokens: map<string, Token>

    ghost function Contents(): Tables
      reads this
    {
      Tables(grants, clients, sessions, history, tokens)
    }

    /** code_hash is unique. */
    ghost predicate Valid()
      reads this
    {
      forall a, b, c :: HoldsCode(grants, a, c) && HoldsCode(grants, b, c) ==> a == b
    }

    constructor ()
      ensures Contents() == EMPTY && Valid()
    {
      grants, clients, sessions, history, tokens := map[], map[], map[], map[], map[];
    }

    method CreatePairingGrant(id: string, code: Hash, name: string, scopes: seq<string>, expires: Time)
        returns (out: Outcome<()>)
      requires Valid()
      modifies this
      ensures Valid()
      ensures match CreateGrant(old(Contents()), id, code, name, scopes, expires)
              case Refused(e) => out == Refused(e) && Contents() == old(Contents())
              case Done(next) => out == Done(()) && Contents() == next
    {
      if id in grants { return Refused(StoreError); }
      if g :| g in grants && grants[g].codeHash == code {
        assert HoldsCode(grants, g, code);
        return Refused(StoreError);
      }
      ghost var before := grants;
      grants := grants[id := Grant(code, name, scopes, Micro(expires), None, None)];
      assert forall x, c :: HoldsCode(grants, x, c) ==> HoldsCode(before, x, c) || (x == id && c == code);
      return Done(());
    }

    method ExchangePairingGrant(code: Hash, now: Time, m: Material) returns (out: Outcome<Client>)
      requires Valid()
      modifies this
      ensures Valid()
      ensures match Exchange(old(Contents()), code, now, m)
              case Refused(e) => out == Refused(e) && Contents() == old(Contents())
              case Done(next) => Contents() == next && m.client in clients && out == Done(clients[m.client])
    {
      if g :| g in grants && grants[g].codeHash == code {
        assert HoldsCode(grants, g, code);
        var grant := grants[g];
        if grant.consumedAt.Some? { return Refused(ConsumedGrant); }
        if grant.expiresAt <= now { return Refused(ExpiredCredential); }
        if m.client in clients || m.session in sessions || m.token in tokens { return Refused(StoreError); }
        clients := clients[m.client := Client(grant.name, grant.scopes, now, None, None)];
        sessions :=
          sessions[m.session := RefreshSession(m.client, m.refresh, Micro(m.refreshExpires), now, None, None, None)];
        tokens := tokens[m.token := Token(m.session, m.client, m.access, grant.scopes, Micro(m.accessExpires), None)];
        ghost var before := grants;
        grants := grants[g := grant.(consumedAt := Some(now), client := Some(m.client))];
        assert forall x, c :: HoldsCode(grants, x, c) ==> HoldsCode(before, x, c);
        return Done(clients[m.client]);
      } else {
        assert forall g :: !HoldsCode(grants, g, code);
        return Refused(InvalidCredential);
      }
    }

    method AuthenticateAccess(token: string, presented: Hash, now: Time) returns (out: Outcome<Principal>)
      requires Valid()
      modifies this`clients
      ensures Valid() && out == Authenticate(old(Contents()), token, presented, now)
      ensures out.Done? <==>
                && token in tokens && tokens[token].session in sessions && tokens[token].client in old(clients)
                && tokens[token].hash == presented && tokens[token].revokedAt.None? && now < tokens[token].expiresAt
                && sessions[tokens[token].session].revokedAt.None?
                && old(clients)[tokens[token].client].revokedAt.None?
      ensures Contents() == if out.Done? then Touch(old(Contents()), out.value.client, now) else old(Contents())
    {
      if token !in tokens { return Refused(InvalidCredential); }
      var t := tokens[token];
      if t.session !in sessions || t.client !in clients { return Refused(InvalidCredential); }
      if t.hash != presented { return Refused(InvalidCredential); }
      if t.revokedAt.Some? || sessions[t.session].revokedAt.Some? || clients[t.client].revokedAt.Some? {
        return Refused(Revoked);
      }
      if t.expiresAt <= now { return Refused(ExpiredCredential); }
      out := Done(Principal(t.client, clients[t.client].name, t.session, t.scopes));
      var seen := clients[t.client].lastSeen;
      if seen.None? || seen.value < now - 60 * SECOND {
        clients := clients[t.client := clients[t.client].(lastSeen := Some(now))];
      }
    }

    method RevokeSessionTx(session: string, now: Time, reason: string)
      modifies this`sessions, this`tokens
      ensures Contents() == RevokeSessionRows(old(Contents()), session, now, reason)
    {
      if session in sessions { sessions := sessions[session := EndSession(sessions[session], now, reason)]; }
      tokens := map t | t in tokens ::
                  if tokens[t].session == session then tokens[t].(revokedAt := First(tokens[t].revokedAt, now))
                  else tokens[t];
    }

    method RotateRefresh(session: string, presented: Hash, now: Time, m: Material) returns (out: Outcome<Time>)
      requires Valid()
      modifies this
      ensures Valid()
      ensures (Contents(), out) == Rotate(old(Contents()), session, presented, now, m)
    {
      if session !in sessions || sessions[session].client !in clients { return Refused(InvalidCredential); }
      var row := sessions[session];
      if row.revokedAt.Some? || clients[row.client].revokedAt.Some? { return Refused(Revoked); }
      if row.expiresAt <= now { return Refused(ExpiredCredential); }
      if row.current != presented {
        if presented in history && history[presented] == session {
          RevokeSessionTx(session, now, "refresh_replay");
          return Refused(RefreshReplay);
        }
        return Refused(InvalidCredential);
      }
      if row.current in history || m.token in tokens { return Refused(StoreError); }
      history := history[row.current := session];
      sessions := sessions[session := row.(current := m.refresh, rotatedAt := Some(now))];
      tokens := tokens[m.token :=
                       Token(session, row.client, m.access, clients[row.client].scopes, Micro(m.accessExpires), None)];
      clients := clients[row.client := clients[row.client].(lastSeen := Some(now))];
      return Done(row.expiresAt);
    }

    method RevokeSession(session: string, presented: Hash, now: Time, reason: string) returns (out: Outcome<()>)
      requires Valid()
      modifies this`sessions, this`tokens
      ensures Valid()
      ensures match Logout(old(Contents()), session, presented, now, reason)
              case Refused(e) => out == Refused(e) && Contents() == old(Contents())
              case Done(next) => out == Done(()) && Contents() == next
    {
      if session !in sessions { return Refused(InvalidCredential); }
      if sessions[session].current != presented { return Refused(InvalidCredential); }
      RevokeSessionTx(session, now, reason);
      return Done(());
    }

    method RevokeClientRows(client: string, now: Time, reason: string) returns (out: Outcome<()>)
      requires Valid()
      modifies this`clients, this`sessions, this`tokens
      ensures Valid()
      ensures match RevokeClient(old(Contents()), client, now, reason)
              case Refused(e) => out == Refused(e) && Contents() == old(Contents())
              case Done(next) => out == Done(()) && Contents() == next
    {
      if client !in clients { return Refused(UnknownClient); }
      clients := clients[client := clients[client].(revokedAt := First(clients[client].revokedAt, now))];
      sessions := map s | s in sessions ::
                    if sessions[s].client == client then EndSession(sessions[s], now, reason) else sessions[s];
      tokens := map t | t in tokens ::
                  if tokens[t].client == client then tokens[t].(revokedAt := First(tokens[t].revokedAt, now))
                  else tokens[t];
      return Done(());
    }
  }
}
