/** What the requests of a client store: the run they create and its command, the cancel they ask for, the
    session and the sync job; and what becomes of these rows over whole traces of the server. */
module RequestRows {
  import opened RuntimeTypes
  import opened RuntimeStore
  import opened StoreInvariant

  /* ---- CreateRun ---- */

  /** A run nobody has touched yet, as the caller asked for it. */
  predicate AsAsked(run: Run, session: string, prompt: string, profile: string, key: string, hash: string) {
    && run.sessionId == session && run.prompt == prompt && run.profile == profile
    && run.idem.Some? && run.idem.value.key == key && run.idem.value.hash == hash
    && run.status == Queued && run.version == 1
    && run.persisted == 0 && run.events == map[] && run.final.None?
    && run.turnId.None? && run.cancelRequestedAt.None? && run.startedAt.None? && run.finishedAt.None?
  }

  /** A command due at once that nobody has claimed. */
  predicate Waits(c: Command, kind: CommandKind, resource: string, now: Time) {
    && c.kind == kind && c.resource == resource && c.status == Pending && c.attempts == 0
    && c.nextAttemptAt == now && c.claimExpiresAt.None? && c.createdAt == now
  }

  /** The session has one more line, under the next number. */
  predicate OneMoreLine(before: Session, after: Session, line: SessionEvent, now: Time) {
    after == before.(lastSeq := before.lastSeq + 1, log := before.log[before.lastSeq + 1 := line], updatedAt := now)
  }

  ghost predicate PutRow<V>(before: map<string, V>, after: map<string, V>, k: string) {
    && k in after && k !in before
    && forall x :: x != k ==> (x in after <==> x in before) && (x in before ==> after[x] == before[x])
  }

  /** One run, its command and one line of its session's log are new. */
  ghost predicate Created(before: Db, after: Db, session: string, prompt: string, profile: string, key: string,
                          hash: string, runId: string, commandId: string, now: Time) {
    && PutRow(before.runs, after.runs, runId)
    && AsAsked(after.runs[runId], session, prompt, profile, key, hash)
    && PutRow(before.outbox, after.outbox, commandId)
    && Waits(after.outbox[commandId], RunStart, runId, now)
    && session in before.sessions && after.sessions.Keys == before.sessions.Keys
    && OneMoreLine(before.sessions[session], after.sessions[session], SessionEvent(RunCreated, runId, Queued), now)
    && (forall s :: s in before.sessions && s != session ==> after.sessions[s] == before.sessions[s])
    && after.projects == before.projects && after.jobs == before.jobs
  }

  /** Neither the session nor its project is archived. */
  predicate Reachable(db: Db, s: string) {
    && s in db.sessions && db.sessions[s].archivedAt.None?
    && db.sessions[s].projectId in db.projects && db.projects[db.sessions[s].projectId].archivedAt.None?
  }

  /** A run of the session under the key settles the call. */
  ghost predicate Answers(db: Db, session: string, key: string, hash: string, out: Result<string>) {
    exists r :: HoldsKey(db.runs, r, session, key)
      && out == if db.runs[r].idem.value.hash == hash then Ok(r) else Err(IdempotencyConflict)
  }

  /** What the caller of CreateRun gets: the run that its key already has, a refusal, or a new run exactly as
      asked. */
  lemma CreateRunStores(db: Db, session: string, prompt: string, profile: string, key: string, hash: string,
                        runId: string, commandId: string, now: Time)
    requires DbOk(db)
    ensures match CreateRunCommit(db, session, prompt, profile, key, hash, runId, commandId, now)
            case Err(e) =>
              || (e == NotFound && !Reachable(db, session))
              || (e == IdempotencyConflict && Answers(db, session, key, hash, Err(e)))
              || (e == Constraint && (runId in db.runs || CommandTaken(db.outbox, commandId, RunStart, runId)))
            case Ok(pair) =>
              || (pair.0 == db && Answers(db, session, key, hash, Ok(pair.1)))
              || (&& pair.1 == runId && Reachable(db, session)
                  && Created(db, pair.0, session, prompt, profile, key, hash, runId, commandId, now))
  {
    var existing := KeyHolder(db.runs, session, key);
    if Visible(db, session) {
      assert SessionOk(db.sessions[session]);
      if existing.Some? { assert HoldsKey(db.runs, existing.value, session, key); }
      else if runId !in db.runs && !CommandTaken(db.outbox, commandId, RunStart, runId) {
        NewRunStored(db, session, prompt, profile, key, hash, runId, commandId, now);
      }
    }
  }

  lemma LookupAnswers(db: Db, session: string, key: string, hash: string)
    requires CreateRunLookup(db, session, key, hash).Some?
    ensures Answers(db, session, key, hash, CreateRunLookup(db, session, key, hash).value)
  {
    assert HoldsKey(db.runs, KeyHolder(db.runs, session, key).value, session, key);
  }

  lemma NewRunStored(db: Db, session: string, prompt: string, profile: string, key: string, hash: string,
                     runId: string, commandId: string, now: Time)
    requires session in db.sessions && SessionOk(db.sessions[session])
    requires runId !in db.runs && commandId !in db.outbox
    ensures var line := SessionEvent(RunCreated, runId, Queued);
            var logged := LogSessionEvent(db.sessions, session, line, now);
            && logged.Ok?
            && Created(db, db.(runs := db.runs[runId := FreshRun(session, prompt, profile, key, hash)],
                               sessions := logged.value,
                               outbox := db.outbox[commandId := FreshCommand(RunStart, runId, now)]),
                       session, prompt, profile, key, hash, runId, commandId, now)
  {
  }

  /* ---- RequestCancel ---- */

  /** A cancel of a run: refused if there is none, without effect if one was asked for or the run is over;
      otherwise the run is marked and some run.cancel command for it is in the outbox, a fresh one unless
      there was one already. */
  lemma CancelStores(db: Db, r: string, commandId: string, now: Time)
    ensures var out := RequestCancel(db, r, commandId, now);
            if r !in db.runs then out == Err(NotFound)
            else if db.runs[r].cancelRequestedAt.Some? || IsTerminal(db.runs[r].status) then out == Ok(db)
            else if out.Err? then
              commandId in db.outbox && forall c :: !HasCommand(db.outbox, c, RunCancel, r)
            else
              && out.value == db.(runs := out.value.runs, outbox := out.value.outbox)
              && Canceling(db, out.value, r, commandId, now)
  {
    var out := RequestCancel(db, r, commandId, now);
    assert out.Ok? && commandId !in db.outbox && commandId in out.value.outbox ==>
             HasCommand(out.value.outbox, commandId, RunCancel, r);
  }

  ghost predicate Canceling(before: Db, after: Db, r: string, commandId: string, now: Time) {
    && r in before.runs && after.runs.Keys == before.runs.Keys
    && (forall x :: x in before.runs && x != r ==> after.runs[x] == before.runs[x])
    && after.runs[r].cancelRequestedAt == Some(now) && after.runs[r].version == before.runs[r].version + 1
    && after.runs[r] == before.runs[r].(cancelRequestedAt := after.runs[r].cancelRequestedAt,
                                        version := after.runs[r].version)
    && (exists c :: HasCommand(after.outbox, c, RunCancel, r))
    && if exists c :: HasCommand(before.outbox, c, RunCancel, r) then after.outbox == before.outbox
       else PutRow(before.outbox, after.outbox, commandId) && Waits(after.outbox[commandId], RunCancel, r, now)
  }

  /* ---- CreateSession, CreateSyncJob and UpsertProjects ---- */

  lemma SessionStores(db: Db, id: string, project: string, title: string, key: string, hash: string, now: Time)
    ensures match CreateSession(db, id, project, title, key, hash, now)
            case Err(e) =>
              || (e == IdempotencyConflict && exists s :: HoldsSessionKey(db, s, key) && Visible(db, s)
                                                          && db.sessions[s].idem.value.hash != hash)
              || (e == NotFound && (|| project !in db.projects || db.projects[project].archivedAt.Some?
                                    || id in db.sessions || exists s :: HoldsSessionKey(db, s, key)))
            case Ok(pair) =>
              || (&& pair.0 == db && HoldsSessionKey(db, pair.1, key) && Visible(db, pair.1)
                  && db.sessions[pair.1].idem.value.hash == hash)
              || (&& pair.1 == id && pair.0 == db.(sessions := pair.0.sessions)
                  && PutRow(db.sessions, pair.0.sessions, id)
                  && NewSession(pair.0.sessions[id], project, title, key, hash) && Visible(pair.0, id))
  {
  }

  /** An empty session of the caller's project, visible from the start and without a thread. */
  predicate NewSession(s: Session, project: string, title: string, key: string, hash: string) {
    && s.projectId == project && s.title == title && s.threadId.None? && s.lastSeq == 0 && s.log == map[]
    && s.idem.Some? && s.idem.value.key == key && s.idem.value.hash == hash
    && s.lastSeen.None? && s.archivedAt.None?
  }

  predicate Unfinished(job: SyncJob) { job.status != JobCompleted && job.status != JobFailed }

  lemma JobStores(db: Db, id: string, commandId: string, key: string, now: Time)
    ensures match CreateSyncJob(db, id, commandId, key, now)
            case Err(e) => e == Constraint && (id in db.jobs || CommandTaken(db.outbox, commandId, BootstrapStart, id))
            case Ok(pair) =>
              || (&& pair.0 == db && pair.1 in db.jobs
                  && (db.jobs[pair.1].key == key
                      || (Unfinished(db.jobs[pair.1]) && forall j :: j in db.jobs ==> db.jobs[j].key != key)))
              || (&& pair.1 == id && pair.0 == db.(jobs := pair.0.jobs, outbox := pair.0.outbox)
                  && (forall j :: j in db.jobs ==> !Unfinished(db.jobs[j]) && db.jobs[j].key != key)
                  && PutRow(db.jobs, pair.0.jobs, id) && NewJob(pair.0.jobs[id], key, now)
                  && PutRow(db.outbox, pair.0.outbox, commandId)
                  && Waits(pair.0.outbox[commandId], BootstrapStart, id, now))
  {
  }

  /** A job that waits for batch 0. */
  predicate NewJob(job: SyncJob, key: string, now: Time) {
    && job.key == key && job.createdAt == now && job.status == JobQueued && job.lastBatch == -1
    && job.checksum == "" && job.snapshotId == "" && !job.reconciled
    && job.itemCount == 0 && job.totalSessions == 0 && job.processedSessions == 0
    && job.archivedSessions == 0 && job.archivedProjects == 0
  }

  /** Announcement `i` names the project. */
  predicate Names(ps: seq<BatchProject>, i: int, id: string) {
    0 <= i < |ps| && ps[i].id == id && !IsBlank(ps[i].name) && !IsBlank(id)
  }

  predicate LastNamed(ps: seq<BatchProject>, i: int, id: string) {
    Names(ps, i, id) && forall j :: i < j < |ps| ==> !Names(ps, j, id)
  }

  /** The project's row carries the name announced; what the snapshots saw of it stays. */
  predicate Announced(before: map<string, Project>, after: map<string, Project>, p: BatchProject, now: Time) {
    && p.id in after && after[p.id].name == p.name && after[p.id].archivedAt.None? && after[p.id].updatedAt == now
    && after[p.id].lastSeen == if p.id in before then before[p.id].lastSeen else None
  }

  predicate SameRow<V(==)>(before: map<string, V>, after: map<string, V>, k: string) {
    (k in after <==> k in before) && (k in before ==> after[k] == before[k])
  }

  /** Announced projects are there under their last name and no longer archived; the others are as before. */
  lemma {:induction false} ProjectsStore(db: Db, ps: seq<BatchProject>, now: Time, id: string)
    ensures var next := UpsertProjects(db, ps, now);
            && next == db.(projects := next.projects)
            && (forall i :: LastNamed(ps, i, id) ==> Announced(db.projects, next.projects, ps[i], now))
            && ((forall i :: !Names(ps, i, id)) ==> SameRow(db.projects, next.projects, id))
    decreases |ps|
  {
    if ps != [] {
      var p, rest, next := ps[0], ps[1..], UpsertProjects(db, ps, now);
      var row := Project(p.name, if p.id in db.projects then db.projects[p.id].lastSeen else None, None, now);
      var mid := if IsBlank(p.id) || IsBlank(p.name) then db else db.(projects := db.projects[p.id := row]);
      assert next == UpsertProjects(mid, rest, now);
      ProjectsStore(mid, rest, now, id);
      forall i | LastNamed(ps, i, id) ensures Announced(db.projects, next.projects, ps[i], now) {
        NamesTail(ps, id);
        if i > 0 { assert LastNamed(rest, i - 1, id); }
      }
      if forall i :: !Names(ps, i, id) {
        NamesTail(ps, id);
        assert !Names(ps, 0, id);
      }
    }
  }

  lemma NamesTail(ps: seq<BatchProject>, id: string)
    requires ps != []
    ensures forall i :: Names(ps[1..], i, id) <==> i >= 0 && Names(ps, i + 1, id)
    ensures forall i :: 1 <= i && LastNamed(ps, i, id) ==> LastNamed(ps[1..], i - 1, id)
    ensures LastNamed(ps, 0, id) ==> forall i :: !Names(ps[1..], i, id)
  {
    forall i ensures Names(ps[1..], i, id) <==> i >= 0 && Names(ps, i + 1, id) {
      if 0 <= i < |ps| - 1 { assert ps[1..][i] == ps[i + 1]; }
    }
    forall i | 1 <= i && LastNamed(ps, i, id) ensures LastNamed(ps[1..], i - 1, id) {
      forall j | i - 1 < j < |ps[1..]| ensures !Names(ps[1..], j, id) { assert !Names(ps, j + 1, id); }
    }
    if LastNamed(ps, 0, id) {
      forall i ensures !Names(ps[1..], i, id) { assert 0 <= i < |ps| - 1 ==> !Names(ps, i + 1, id); }
    }
  }
}
