/** Rounds of dispatch: what becomes of a command that was claimed and sent, or was not, over one round and
    over any number of them. */
module DispatchRounds {
  import opened RuntimeTypes
  import opened RuntimeStore
  import Outbox

  /** The outbox after one command was sent, or was not. */
  function Sent(db: Db, id: string, sends: bool, now: Time): Db {
    if id !in db.outbox then db
    else
      var c := db.outbox[id];
      if c.kind == BootstrapStart && c.resource in db.jobs && !Active(db.jobs[c.resource])
      then MarkCommandDelivered(db, id)
      else if !sends || (c.kind == BootstrapStart && c.resource !in db.jobs) then ReleaseCommand(db, id, now)
      else if c.kind == RunCancel then MarkCommandDelivered(db, id)
      else db
  }

  function SentAll(db: Db, claimed: seq<string>, fails: set<string>, now: Time): Db
    decreases |claimed|
  {
    if claimed == [] then db else SentAll(Sent(db, claimed[0], claimed[0] !in fails, now), claimed[1..], fails, now)
  }

  /** A round of dispatch leaves every start command it claimed undelivered: only the Agent's accept can
      settle it. */
  lemma {:induction false} StartsStayUndelivered(db: Db, claimed: seq<string>, fails: set<string>, now: Time, c: string)
    requires c in db.outbox && db.outbox[c].kind == RunStart && db.outbox[c].status != Delivered
    ensures var next := SentAll(db, claimed, fails, now);
            c in next.outbox && next.outbox[c].kind == RunStart && next.outbox[c].status != Delivered
    decreases |claimed|
  {
    if claimed != [] {
      StartsStayUndelivered(Sent(db, claimed[0], claimed[0] !in fails, now), claimed[1..], fails, now, c);
    }
  }

  /* ---- one command ---- */

  /** A bootstrap whose job has completed or failed. */
  predicate Over(jobs: map<string, SyncJob>, c: Command) {
    && c.kind == BootstrapStart && c.resource in jobs
    && (jobs[c.resource].status == JobCompleted || jobs[c.resource].status == JobFailed)
  }

  predicate Missing(jobs: map<string, SyncJob>, c: Command) { c.kind == BootstrapStart && c.resource !in jobs }

  /** The send settles the command: a cancel that was sent, a bootstrap that is over. */
  predicate Delivers(jobs: map<string, SyncJob>, c: Command, failed: bool) {
    Over(jobs, c) || (c.kind == RunCancel && !failed)
  }

  /** The send came to nothing: it failed, or there is no job to bootstrap. */
  predicate Fails(jobs: map<string, SyncJob>, c: Command, failed: bool) {
    !Delivers(jobs, c, failed) && (failed || Missing(jobs, c))
  }

  predicate SameRequest(before: Command, after: Command) {
    after.kind == before.kind && after.resource == before.resource && after.createdAt == before.createdAt
  }

  /** To be retried a second later. */
  predicate Retried(c: Command, now: Time) {
    c.status == Pending && c.nextAttemptAt == now + SECOND && c.claimExpiresAt.None?
  }

  predicate AfterSend(before: Command, after: Command, jobs: map<string, SyncJob>, failed: bool, now: Time) {
    && SameRequest(before, after) && after.attempts == before.attempts
    && if Delivers(jobs, before, failed) then
         after.status == Delivered && after.claimExpiresAt.None? && after.nextAttemptAt == before.nextAttemptAt
       else if Fails(jobs, before, failed) then Retried(after, now)
       else after == before
  }

  /** One command is sent, and no other row changes. */
  ghost predicate SendsOne(before: map<string, Command>, after: map<string, Command>, jobs: map<string, SyncJob>,
                           id: string, failed: bool, now: Time) {
    && after.Keys == before.Keys
    && forall c :: c in before ==>
         if c == id then AfterSend(before[c], after[c], jobs, failed, now) else after[c] == before[c]
  }

  lemma SentCases(db: Db, id: string, sends: bool, now: Time)
    requires id in db.outbox
    ensures Sent(db, id, sends, now) ==
            if Delivers(db.jobs, db.outbox[id], !sends) then MarkCommandDelivered(db, id)
            else if Fails(db.jobs, db.outbox[id], !sends) then ReleaseCommand(db, id, now)
            else db
  {
  }

  lemma SentExact(db: Db, id: string, sends: bool, now: Time)
    ensures SendsOne(db.outbox, Sent(db, id, sends, now).outbox, db.jobs, id, !sends, now)
    ensures Sent(db, id, sends, now) == db.(outbox := Sent(db, id, sends, now).outbox)
  {
    if id in db.outbox { SentCases(db, id, sends, now); }
  }

  /* ---- one round ---- */

  ghost predicate SendsAll(before: map<string, Command>, after: map<string, Command>, jobs: map<string, SyncJob>,
                           claimed: seq<string>, fails: set<string>, now: Time) {
    && after.Keys == before.Keys
    && forall c :: c in before ==>
         if c in claimed then AfterSend(before[c], after[c], jobs, c in fails, now) else after[c] == before[c]
  }

  predicate Distinct(claimed: seq<string>) { forall i, j :: 0 <= i < j < |claimed| ==> claimed[i] != claimed[j] }

  lemma {:induction false} SentAllExact(db: Db, claimed: seq<string>, fails: set<string>, now: Time)
    requires Distinct(claimed)
    ensures var next := SentAll(db, claimed, fails, now);
            SendsAll(db.outbox, next.outbox, db.jobs, claimed, fails, now) && next == db.(outbox := next.outbox)
    decreases |claimed|
  {
    if claimed != [] {
      var id, rest := claimed[0], claimed[1..];
      var mid := Sent(db, id, id !in fails, now);
      SentExact(db, id, id !in fails, now);
      SentAllExact(mid, rest, fails, now);
      assert id !in rest && forall c :: c in claimed <==> c == id || c in rest;
    }
  }

  /** What a round leaves of a command. */
  predicate AfterRound(before: Command, after: Command, jobs: map<string, SyncJob>, claimed: bool, failed: bool,
                       now: Time) {
    if !claimed then after == before
    else
      && SameRequest(before, after) && after.attempts == before.attempts + 1
      && if Delivers(jobs, before, failed) then after.status == Delivered && after.claimExpiresAt.None?
         else if Fails(jobs, before, failed) then Retried(after, now)
         else
           && after.status == Claimed && after.claimExpiresAt == Some(now + 15 * SECOND)
           && after.nextAttemptAt == before.nextAttemptAt
  }

  ghost predicate RoundDone(before: Db, after: Db, claimed: seq<string>, fails: set<string>, now: Time) {
    && after.jobs == before.jobs && after.outbox.Keys == before.outbox.Keys
    && forall c :: c in before.outbox ==>
         AfterRound(before.outbox[c], after.outbox[c], before.jobs, c in claimed, c in fails, now)
  }

  lemma {:induction false} ClaimedJobs(db: Db, chosen: seq<string>, now: Time)
    requires forall i :: 0 <= i < |chosen| ==> chosen[i] in db.outbox
    ensures ClaimCommands(db, chosen, now).jobs == db.jobs
    decreases |chosen|
  {
    if chosen != [] { ClaimedJobs(ClaimOne(db, chosen[0], now), chosen[1..], now); }
  }

  /** A round does to each command it claims what the outcome of its send says, and touches no other. */
  lemma RoundExact(db: Db, claimed: seq<string>, fails: set<string>, now: Time)
    requires Claimable(db, claimed, 8, now)
    ensures RoundDone(db, SentAll(ClaimCommands(db, claimed, now), claimed, fails, now), claimed, fails, now)
  {
    var mid := ClaimCommands(db, claimed, now);
    ClaimedJobs(db, claimed, now);
    Outbox.ClaimRows(db, claimed, now);
    SentAllExact(mid, claimed, fails, now);
    var next := SentAll(mid, claimed, fails, now);
    forall c | c in db.outbox
      ensures AfterRound(db.outbox[c], next.outbox[c], db.jobs, c in claimed, c in fails, now)
    {
      if c in claimed { ClaimedThenSent(db.outbox[c], next.outbox[c], db.jobs, c in fails, now); }
    }
  }

  lemma ClaimedThenSent(before: Command, after: Command, jobs: map<string, SyncJob>, failed: bool, now: Time)
    requires AfterSend(ClaimedRow(before, now), after, jobs, failed, now)
    ensures AfterRound(before, after, jobs, true, failed, now)
  {
  }

  /** A command that was sent and is not settled comes back when its lease of 15 seconds has run out, and no
      earlier. */
  lemma SentComeBack(db: Db, claimed: seq<string>, fails: set<string>, now: Time, id: string, t: Time)
    requires Claimable(db, claimed, 8, now) && id in claimed && id in db.outbox
    requires !Delivers(db.jobs, db.outbox[id], id in fails) && !Fails(db.jobs, db.outbox[id], id in fails)
    ensures var next := SentAll(ClaimCommands(db, claimed, now), claimed, fails, now);
            id in next.outbox && (Eligible(next.outbox[id], t) <==> now + 15 * SECOND < t)
  {
    RoundExact(db, claimed, fails, now);
    var next := SentAll(ClaimCommands(db, claimed, now), claimed, fails, now);
    assert AfterRound(db.outbox[id], next.outbox[id], db.jobs, true, id in fails, now);
    assert db.outbox[id].nextAttemptAt <= now;
  }

  /* ---- any number of rounds ---- */

  datatype Round = Round(claimed: seq<string>, fails: set<string>, now: Time)

  ghost function Play(db: Db, round: Round): Db
    requires Claimable(db, round.claimed, 8, round.now)
  {
    SentAll(ClaimCommands(db, round.claimed, round.now), round.claimed, round.fails, round.now)
  }

  /** Every round claims what the outbox then offers. */
  ghost predicate Playable(db: Db, rounds: seq<Round>)
    decreases |rounds|
  {
    rounds == [] ||
    (Claimable(db, rounds[0].claimed, 8, rounds[0].now) && Playable(Play(db, rounds[0]), rounds[1..]))
  }

  ghost function PlayAll(db: Db, rounds: seq<Round>): Db
    requires Playable(db, rounds)
    decreases |rounds|
  {
    if rounds == [] then db else PlayAll(Play(db, rounds[0]), rounds[1..])
  }

  /** The round claims the command and its send settles it. */
  predicate SettledIn(jobs: map<string, SyncJob>, c: Command, id: string, round: Round) {
    id in round.claimed && Delivers(jobs, c, id in round.fails)
  }

  lemma DeliveredStays(db: Db, round: Round, id: string)
    requires Claimable(db, round.claimed, 8, round.now) && id in db.outbox && db.outbox[id].status == Delivered
    ensures id !in round.claimed && id in Play(db, round).outbox && Play(db, round).outbox[id] == db.outbox[id]
  {
    RoundExact(db, round.claimed, round.fails, round.now);
  }

  /** Over any number of rounds, a command that was not delivered is so at the end if and only if some round
      claimed it and its send settled it: a cancel that was sent, or a bootstrap whose job is over. */
  lemma {:induction false} RoundsDeliver(db: Db, rounds: seq<Round>, id: string)
    requires Playable(db, rounds) && id in db.outbox && db.outbox[id].status != Delivered
    ensures var end := PlayAll(db, rounds);
            && id in end.outbox && SameRequest(db.outbox[id], end.outbox[id])
            && (end.outbox[id].status == Delivered <==>
                  exists i :: 0 <= i < |rounds| && SettledIn(db.jobs, db.outbox[id], id, rounds[i]))
    decreases |rounds|
  {
    if rounds != [] {
      var next, c := Play(db, rounds[0]), db.outbox[id];
      RoundExact(db, rounds[0].claimed, rounds[0].fails, rounds[0].now);
      assert AfterRound(c, next.outbox[id], db.jobs, id in rounds[0].claimed, id in rounds[0].fails, rounds[0].now);
      SameDelivers(db.jobs, c, next.outbox[id]);
      if SettledIn(db.jobs, c, id, rounds[0]) {
        SettledRow(next, rounds[1..], id);
      } else {
        RoundsDeliver(next, rounds[1..], id);
        SettledTail(db.jobs, c, next.outbox[id], id, rounds);
      }
    }
  }

  lemma {:induction false} SettledRow(db: Db, rounds: seq<Round>, id: string)
    requires Playable(db, rounds) && id in db.outbox && db.outbox[id].status == Delivered
    ensures var end := PlayAll(db, rounds);
            id in end.outbox && end.outbox[id].status == Delivered && SameRequest(db.outbox[id], end.outbox[id])
    decreases |rounds|
  {
    if rounds != [] {
      DeliveredStays(db, rounds[0], id);
      SettledRow(Play(db, rounds[0]), rounds[1..], id);
    }
  }

  lemma SameDelivers(jobs: map<string, SyncJob>, c: Command, d: Command)
    requires SameRequest(c, d)
    ensures forall failed :: Delivers(jobs, c, failed) <==> Delivers(jobs, d, failed)
  {
  }

  lemma SettledTail(jobs: map<string, SyncJob>, c: Command, d: Command, id: string, rounds: seq<Round>)
    requires rounds != [] && SameRequest(c, d) && !SettledIn(jobs, c, id, rounds[0])
    ensures (exists i :: 0 <= i < |rounds| && SettledIn(jobs, c, id, rounds[i])) <==>
            (exists i :: 0 <= i < |rounds[1..]| && SettledIn(jobs, d, id, rounds[1..][i]))
  {
    if i :| 0 <= i < |rounds| && SettledIn(jobs, c, id, rounds[i]) {
      assert rounds[1..][i - 1] == rounds[i];
    }
    if i :| 0 <= i < |rounds[1..]| && SettledIn(jobs, d, id, rounds[1..][i]) {
      assert rounds[i + 1] == rounds[1..][i];
    }
  }

  /** Round `i` is the last that claims the command. */
  predicate LastClaim(rounds: seq<Round>, i: int, id: string) {
    0 <= i < |rounds| && id in rounds[i].claimed && forall j :: i < j < |rounds| ==> id !in rounds[j].claimed
  }

  lemma {:induction false} Unclaimed(db: Db, rounds: seq<Round>, id: string)
    requires Playable(db, rounds) && id in db.outbox
    requires forall j :: 0 <= j < |rounds| ==> id !in rounds[j].claimed
    ensures id in PlayAll(db, rounds).outbox && PlayAll(db, rounds).outbox[id] == db.outbox[id]
    decreases |rounds|
  {
    if rounds != [] {
      RoundExact(db, rounds[0].claimed, rounds[0].fails, rounds[0].now);
      assert forall j :: 0 <= j < |rounds[1..]| ==> rounds[1..][j] == rounds[j + 1];
      Unclaimed(Play(db, rounds[0]), rounds[1..], id);
    }
  }

  /** Over any number of rounds, a command whose last send came to nothing is pending, due one second after
      that round, and every claim from then on sees it as eligible. */
  lemma {:induction false} FailedSendsRetried(db: Db, rounds: seq<Round>, id: string, i: nat)
    requires Playable(db, rounds) && id in db.outbox && LastClaim(rounds, i, id)
    requires Fails(db.jobs, db.outbox[id], id in rounds[i].fails)
    ensures var end := PlayAll(db, rounds);
            && id in end.outbox && Retried(end.outbox[id], rounds[i].now)
            && forall t :: Eligible(end.outbox[id], t) <==> rounds[i].now + SECOND <= t
    decreases |rounds|
  {
    var next := Play(db, rounds[0]);
    RoundExact(db, rounds[0].claimed, rounds[0].fails, rounds[0].now);
    assert AfterRound(db.outbox[id], next.outbox[id], db.jobs, id in rounds[0].claimed, id in rounds[0].fails,
                      rounds[0].now);
    assert forall j :: 0 <= j < |rounds[1..]| ==> rounds[1..][j] == rounds[j + 1];
    if i == 0 {
      Unclaimed(next, rounds[1..], id);
    } else {
      assert SameRequest(db.outbox[id], next.outbox[id]);
      assert LastClaim(rounds[1..], i - 1, id);
      FailedSendsRetried(next, rounds[1..], id, i - 1);
    }
  }
}
