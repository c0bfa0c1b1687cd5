/** Cursor-paged polling of run and session logs while the server goes on working. */
module Polling {
  import opened RuntimeTypes
  import opened RuntimeStore
  import opened StoreInvariant
  import opened RelaySystem
  import opened SystemInvariant
  import opened RunLog
  import opened RunReplay
  import opened Outbox
  import Pages

  /* ---- a client and a growing log ---- */

  /** A client that asked from `start` on, and what it has been given. */
  datatype Client<T> = Client(start: int, cursor: int, received: seq<Pages.Row<T>>)

  ghost predicate GrowsAbove<T>(before: map<int, T>, top: int, after: map<int, T>, newTop: int) {
    && top <= newTop
    && (forall k :: k in before ==> k in after && after[k] == before[k])
    && (forall k :: k in after && k !in before ==> top < k)
    && (forall k :: k in after ==> k <= newTop)
  }

  /** The client holds exactly the events between its first and its present cursor, in order. */
  ghost predicate UpToDate<T>(table: map<int, T>, top: int, c: Client<T>) {
    && c.start <= c.cursor
    && (c.cursor == c.start || c.cursor in table)
    && (forall k :: k in table ==> k <= top)
    && Pages.IsRange(table, c.start, c.cursor, c.received)
  }

  function Receives<T>(c: Client<T>, page: Pages.Page<T>): Client<T> {
    Client(c.start, Pages.NextCursor(c.cursor, page), c.received + page.rows)
  }

  lemma GrowthKeepsUpToDate<T>(before: map<int, T>, top: int, after: map<int, T>, newTop: int, c: Client<T>)
    requires UpToDate(before, top, c) && GrowsAbove(before, top, after, newTop)
    ensures UpToDate(after, newTop, c)
  {
  }

  lemma PageKeepsUpToDate<T>(table: map<int, T>, top: int, c: Client<T>, limit: int)
    requires limit >= 1 && UpToDate(table, top, c)
    ensures UpToDate(table, top, Receives(c, Pages.PageOf(table, c.cursor, limit)))
  {
    var page := Pages.PageOf(table, c.cursor, limit);
    Pages.PageExact(table, c.cursor, limit);
    Pages.RangesJoin(table, c.start, c.cursor, Pages.NextCursor(c.cursor, page), c.received, page.rows);
  }

  /* ---- session logs ---- */

  datatype SessionMove = Acts(a: Action) | PollSession(limit: int, arrives: bool)

  datatype SessionView = SessionView(sys: System, client: Client<SessionEvent>)

  /** The server takes any step, or answers a poll; an answer may be lost on its way. */
  ghost function SessionStep(v: SessionView, m: SessionMove, s: string): SessionView {
    match m
    case Acts(a) => v.(sys := Step(v.sys, a))
    case PollSession(limit, arrives) =>
      if limit < 1 || s !in v.sys.db.sessions || !arrives then v
      else v.(client := Receives(v.client, Pages.PageOf(v.sys.db.sessions[s].log, v.client.cursor, limit)))
  }

  ghost function WatchSession(v: SessionView, moves: seq<SessionMove>, s: string): SessionView
    decreases |moves|
  {
    if moves == [] then v else WatchSession(SessionStep(v, moves[0], s), moves[1..], s)
  }

  ghost predicate SessionUpToDate(v: SessionView, s: string) {
    && DbOk(v.sys.db) && s in v.sys.db.sessions
    && UpToDate(v.sys.db.sessions[s].log, v.sys.db.sessions[s].lastSeq, v.client)
  }

  lemma LogGrowsAbove(before: Session, after: Session)
    requires SessionOk(before) && SessionOk(after) && LogExtends(before, after)
    ensures GrowsAbove(before.log, before.lastSeq, after.log, after.lastSeq)
  {
  }

  lemma SessionStepUpToDate(v: SessionView, m: SessionMove, s: string)
    requires SessionUpToDate(v, s)
    ensures SessionUpToDate(SessionStep(v, m, s), s)
  {
    match m
    case Acts(a) =>
      StepKeepsStore(v.sys, a);
      var before, after := v.sys.db.sessions[s], Step(v.sys, a).db.sessions[s];
      LogGrowsAbove(before, after);
      GrowthKeepsUpToDate(before.log, before.lastSeq, after.log, after.lastSeq, v.client);
    case PollSession(limit, arrives) =>
      if limit >= 1 { PageKeepsUpToDate(v.sys.db.sessions[s].log, v.sys.db.sessions[s].lastSeq, v.client, limit); }
  }

  lemma {:induction false} WatchUpToDate(v: SessionView, moves: seq<SessionMove>, s: string)
    requires SessionUpToDate(v, s)
    ensures SessionUpToDate(WatchSession(v, moves, s), s) && WatchSession(v, moves, s).client.start == v.client.start
    decreases |moves|
  {
    if moves != [] {
      SessionStepUpToDate(v, moves[0], s);
      WatchUpToDate(SessionStep(v, moves[0], s), moves[1..], s);
    }
  }

  /** The rows of a range of a gap-free log are numbered consecutively. */
  lemma {:induction false} RangeConsecutive<T>(table: map<int, T>, after: int, last: int, rows: seq<Pages.Row<T>>,
                                               i: nat)
    requires Pages.IsRange(table, after, last, rows) && i < |rows|
    requires forall k :: after < k <= rows[i].sequence ==> k in table
    ensures rows[i].sequence == after + 1 + i
  {
    if i > 0 { RangeConsecutive(table, after, last, rows, i - 1); }
    var prior := if i == 0 then after else rows[i - 1].sequence;
    assert Pages.Contains(rows, prior + 1);
    var j :| 0 <= j < |rows| && rows[j].sequence == prior + 1;
    assert j == i;
  }

  /** Whatever the server does meanwhile (run creation, live events, bootstrap rewrites), a client that
      polls a session from any cursor c >= 0 receives the events c+1, c+2, ... with none skipped or repeated. */
  lemma SessionPollConsecutive(v: SessionView, moves: seq<SessionMove>, s: string, i: nat)
    requires DbOk(v.sys.db) && s in v.sys.db.sessions
    requires v.client.received == [] && v.client.cursor == v.client.start >= 0
    requires i < |WatchSession(v, moves, s).client.received|
    ensures var end := WatchSession(v, moves, s);
            && s in end.sys.db.sessions
            && end.client.received[i].sequence == v.client.start + 1 + i
            && v.client.start + 1 + i in end.sys.db.sessions[s].log
            && end.client.received[i].value == end.sys.db.sessions[s].log[v.client.start + 1 + i]
  {
    assert SessionOk(v.sys.db.sessions[s]);
    WatchUpToDate(v, moves, s);
    var end := WatchSession(v, moves, s);
    assert SessionOk(end.sys.db.sessions[s]);
    RangeConsecutive(end.sys.db.sessions[s].log, end.client.start, end.client.cursor, end.client.received, i);
  }

  /* ---- run logs ---- */

  /** One iteration of the run poll: the run row is read first, the page second. */
  datatype Phase = Start | StatusRead(status: Status)

  datatype Response = Response(page: Pages.Page<RunEvent>, nextCursor: int, timedOut: bool, terminal: bool)

  /** What was answered, the limit asked for, and the run row at the moment the page was read. */
  datatype Answer = Answer(response: Response, limit: int, run: Run)

  datatype Poller = Poller(phase: Phase, client: Client<RunEvent>, answers: seq<Answer>)

  datatype RunView = RunView(sys: System, poller: Poller)

  datatype RunMove = Happened(a: Action) | ReadStatus | ReadPage(limit: int, waits: bool, expired: bool, arrives: bool)

  /** The decision after a page: answer, or wait and start over. */
  function Respond(page: Pages.Page<RunEvent>, after: int, status: Status, waits: bool,
                   expired: bool): Option<Response> {
    if page.rows != [] then Some(Response(page, Pages.NextCursor(after, page), false, IsTerminal(status)))
    else if IsTerminal(status) || !waits || expired
    then Some(Response(Pages.Page([], false), after, waits && !IsTerminal(status), IsTerminal(status)))
    else None
  }

  /** One read of the poll, against the row as it is at that moment. */
  function Polls(p: Poller, m: RunMove, run: Run): Poller {
    match m
    case Happened(_) => p
    case ReadStatus => p.(phase := StatusRead(run.status))
    case ReadPage(limit, waits, expired, arrives) =>
      if limit < 1 || p.phase.Start? then p
      else
        match Respond(Pages.PageOf(run.events, p.client.cursor, limit), p.client.cursor, p.phase.status, waits, expired)
        case None => p.(phase := Start)
        case Some(response) =>
          Poller(Start, if arrives then Receives(p.client, response.page) else p.client,
                 p.answers + [Answer(response, limit, run)])
  }

  ghost function RunStep(v: RunView, m: RunMove, r: string): RunView {
    if m.Happened? then v.(sys := Step(v.sys, m.a))
    else if r in v.sys.db.runs then v.(poller := Polls(v.poller, m, v.sys.db.runs[r]))
    else v
  }

  ghost function WatchRun(v: RunView, moves: seq<RunMove>, r: string): RunView
    decreases |moves|
  {
    if moves == [] then v else WatchRun(RunStep(v, moves[0], r), moves[1..], r)
  }

  /** A page within its limit; and with terminal and no more, the client is past the final event. */
  ghost predicate AnswerOk(a: Answer) {
    && |a.response.page.rows| <= a.limit
    && (a.response.terminal && !a.response.page.hasMore ==>
          a.run.final.Some? && a.run.final.value <= a.response.nextCursor)
  }

  /** A terminal status was only ever read with the final event set; and every answer is sound. */
  ghost predicate AnswersOk(p: Poller, run: Run) {
    && (p.phase.StatusRead? && IsTerminal(p.phase.status) ==> run.final.Some?)
    && forall i :: 0 <= i < |p.answers| ==> AnswerOk(p.answers[i])
  }

  /* ---- what any step does to the row ---- */

  /** A set final_sequence is never cleared. */
  lemma FinalStays(sys: System, a: Action, r: string)
    requires DbOk(sys.db) && r in sys.db.runs
    ensures r in Step(sys, a).db.runs && (sys.db.runs[r].final.Some? ==> Step(sys, a).db.runs[r].final.Some?)
  {
    if a.DoPersist? { PersistRow(sys, a, r); }
    else if a.DoBatch? {
      StepKeepsStore(sys, a);
      BatchRow(sys, a, r);
    } else { LogStays(sys, a, r); }
  }

  /** Outside appends and bootstrap nothing happens to a log. */
  lemma LogStays(sys: System, a: Action, r: string)
    requires DbOk(sys.db) && r in sys.db.runs && !a.DoPersist? && !a.DoBatch?
    ensures r in Step(sys, a).db.runs && SameLog(sys.db.runs[r], Step(sys, a).db.runs[r])
  {
    if a.DoReceive? { ReceiveDb(sys, a.delivery, a.message, a.lookupFails, a.redisFails, a.appTakes); }
    else if a.DoMarkAccepted? { MarkStep(sys, a); }
    else { OutsideRowStep(sys, a, r); }
  }

  /** Terminal was read before the page, so a page with nothing behind it reaches the final event. */
  lemma RespondOk(run: Run, after: int, limit: int, status: Status, waits: bool, expired: bool)
    requires RunOk(run) && limit >= 1 && (IsTerminal(status) ==> run.final.Some?)
    ensures var out := Respond(Pages.PageOf(run.events, after, limit), after, status, waits, expired);
            out.Some? ==> AnswerOk(Answer(out.value, limit, run))
  {
    Pages.PageExact(run.events, after, limit);
  }

  predicate Ended(status: Status) { status == Completed || status == Failed || status == Canceled }

  /** The decision, exactly: it waits on if and only if there is nothing beyond the cursor, the run goes on and
      there is time left; otherwise it answers with the page, the cursor after it, whether the run is over, and
      whether the time ran out on nothing. */
  lemma RespondExact(events: map<int, RunEvent>, after: int, limit: int, status: Status, waits: bool, expired: bool)
    requires limit >= 1
    ensures var page := Pages.PageOf(events, after, limit);
            var none := forall k :: k in events ==> k <= after;
            match Respond(page, after, status, waits, expired)
            case None => none && !Ended(status) && waits && !expired
            case Some(response) =>
              && (none && !Ended(status) && waits ==> expired)
              && response.page == page && (page.rows == [] <==> none)
              && (response.terminal <==> Ended(status))
              && (response.timedOut <==> none && waits && !Ended(status))
              && response.nextCursor == if none then after else page.rows[|page.rows| - 1].sequence
  {
    Pages.PageExact(events, after, limit);
  }

  lemma PollsAnswers(p: Poller, m: RunMove, run: Run)
    requires RunOk(run) && AnswersOk(p, run)
    ensures AnswersOk(Polls(p, m, run), run)
  {
    if m.ReadPage? && m.limit >= 1 && p.phase.StatusRead? {
      RespondOk(run, p.client.cursor, m.limit, p.phase.status, m.waits, m.expired);
    }
  }

  /** Over every trace of the server and every sequence of polls: no page is longer than its limit, and an
      answer with terminal and without has_more puts the client at or past final_sequence. */
  lemma {:induction false} RunPollAnswers(v: RunView, moves: seq<RunMove>, r: string)
    requires DbOk(v.sys.db) && r in v.sys.db.runs && AnswersOk(v.poller, v.sys.db.runs[r])
    ensures var end := WatchRun(v, moves, r);
            DbOk(end.sys.db) && r in end.sys.db.runs && AnswersOk(end.poller, end.sys.db.runs[r])
    decreases |moves|
  {
    if moves != [] {
      var m := moves[0];
      if m.Happened? {
        StepKeepsStore(v.sys, m.a);
        FinalStays(v.sys, m.a, r);
      } else {
        assert RunOk(v.sys.db.runs[r]);
        PollsAnswers(v.poller, m, v.sys.db.runs[r]);
      }
      RunPollAnswers(RunStep(v, m, r), moves[1..], r);
    }
  }

  /* ---- exactly once, exactly when ---- */

  /** The number lies behind a cursor that the client reached by reading. */
  predicate Behind<T>(c: Client<T>, n: int) { c.start < n <= c.cursor }

  ghost predicate Current(v: RunView, r: string) {
    r in v.sys.db.runs && UpToDate(v.sys.db.runs[r].events, v.sys.db.runs[r].persisted, v.poller.client)
  }

  /** The server commits an event of the run behind the client's cursor, or a bootstrap batch rewrites the
      run and changes what lies there. */
  ghost predicate Overtaken(v: RunView, m: RunMove, r: string) {
    m.Happened? && (OvertakenByEvent(v, m.a, r) || OvertakenByBatch(v, m.a, r))
  }

  ghost predicate OvertakenByEvent(v: RunView, a: Action, r: string) {
    Appends(v.sys, a, r) && Behind(v.poller.client, v.sys.handlers[a.delivery].entry.sequence)
  }

  ghost predicate OvertakenByBatch(v: RunView, a: Action, r: string) {
    && a.DoBatch? && r in v.sys.db.runs && r in Step(v.sys, a).db.runs
    && !Agree(v.sys.db.runs[r].events, Step(v.sys, a).db.runs[r].events, v.poller.client)
  }

  /** Two logs agree on what the client has been given. */
  ghost predicate Agree<T>(before: map<int, T>, after: map<int, T>, c: Client<T>) {
    forall k :: Behind(c, k) ==> (k in before <==> k in after) && (k in before ==> before[k] == after[k])
  }

  /** Whatever happened to a log, the client is still up to date if and only if it agrees with the old one
      on what the client has been given. */
  lemma ChangeExact(before: map<int, RunEvent>, top: int, after: map<int, RunEvent>, newTop: int, c: Client<RunEvent>)
    requires UpToDate(before, top, c) && forall k :: k in after ==> k <= newTop
    ensures UpToDate(after, newTop, c) <==> Agree(before, after, c)
  {
    if Agree(before, after, c) {
      assert c.cursor == c.start || Behind(c, c.cursor);
      assert forall k :: k in after && c.start < k <= c.cursor ==> Behind(c, k) && Pages.Contains(c.received, k);
      assert forall i :: 0 <= i < |c.received| ==> Behind(c, c.received[i].sequence);
    } else {
      var k :| Behind(c, k) && !((k in before <==> k in after) && (k in before ==> before[k] == after[k]));
      if k in before {
        var i :| 0 <= i < |c.received| && c.received[i].sequence == k;
        assert before[k] == c.received[i].value;
      } else {
        assert !Pages.Contains(c.received, k);
      }
    }
  }

  /** An append is seen, sooner or later, if and only if it is not behind the cursor. */
  lemma AppendExact(run: Run, n: int, e: RunEvent, now: Time, c: Client<RunEvent>)
    requires RunOk(run) && n !in run.events && UpToDate(run.events, run.persisted, c)
    ensures var next := AppendedRow(run, n, e, now); UpToDate(next.events, next.persisted, c) <==> !Behind(c, n)
  {
    var next := AppendedRow(run, n, e, now);
    ChangeExact(run.events, run.persisted, next.events, next.persisted, c);
  }

  lemma HappenedExact(v: RunView, m: RunMove, r: string)
    requires DbOk(v.sys.db) && Current(v, r) && m.Happened?
    ensures Current(RunStep(v, m, r), r) <==> !Overtaken(v, m, r)
  {
    assert RunOk(v.sys.db.runs[r]);
    if m.a.DoPersist? {
      PersistRow(v.sys, m.a, r);
      if Appends(v.sys, m.a, r) {
        var h := v.sys.handlers[m.a.delivery];
        AppendExact(v.sys.db.runs[r], h.entry.sequence, h.entry.event, m.a.now, v.poller.client);
      }
    } else if m.a.DoBatch? {
      StepKeepsStore(v.sys, m.a);
      var before, after := v.sys.db.runs[r], Step(v.sys, m.a).db.runs[r];
      assert RunOk(after);
      ChangeExact(before.events, before.persisted, after.events, after.persisted, v.poller.client);
    } else { LogStays(v.sys, m.a, r); }
  }

  lemma PollsUpToDate(p: Poller, m: RunMove, run: Run)
    requires UpToDate(run.events, run.persisted, p.client)
    ensures UpToDate(run.events, run.persisted, Polls(p, m, run).client)
    ensures Polls(p, m, run).client.start == p.client.start
  {
    if m.ReadPage? && m.limit >= 1 && p.phase.StatusRead? {
      PageKeepsUpToDate(run.events, run.persisted, p.client, m.limit);
    }
  }

  ghost predicate AlwaysCurrent(v: RunView, moves: seq<RunMove>, r: string)
    decreases |moves|
  {
    Current(v, r) && (moves == [] || AlwaysCurrent(RunStep(v, moves[0], r), moves[1..], r))
  }

  ghost predicate NeverOvertaken(v: RunView, moves: seq<RunMove>, r: string)
    decreases |moves|
  {
    moves == [] || (!Overtaken(v, moves[0], r) && NeverOvertaken(RunStep(v, moves[0], r), moves[1..], r))
  }

  lemma NotAlwaysCurrent(v: RunView, moves: seq<RunMove>, r: string)
    requires !Current(v, r)
    ensures !AlwaysCurrent(v, moves, r)
  {
  }

  /** A client that polls a run with next_cursor, over every trace and with answers lost at will: it holds
      every event between its first and its present cursor exactly once and in ascending order, in every
      state, if and only if no event is ever committed behind its cursor and no bootstrap batch changes
      what lies there. */
  lemma {:induction false} RunPollExactlyOnce(v: RunView, moves: seq<RunMove>, r: string)
    requires DbOk(v.sys.db) && Current(v, r)
    ensures AlwaysCurrent(v, moves, r) <==> NeverOvertaken(v, moves, r)
    decreases |moves|
  {
    if moves != [] {
      var m := moves[0];
      if m.Happened? {
        StepKeepsStore(v.sys, m.a);
        HappenedExact(v, m, r);
      } else { PollsUpToDate(v.poller, m, v.sys.db.runs[r]); }
      if Current(RunStep(v, m, r), r) { RunPollExactlyOnce(RunStep(v, m, r), moves[1..], r); }
      else { NotAlwaysCurrent(RunStep(v, m, r), moves[1..], r); }
    }
  }

  /** Every committed event of the run is numbered above all before it, and no batch rewrites it. */
  ghost predicate Rising(v: RunView, moves: seq<RunMove>, r: string)
    decreases |moves|
  {
    moves == [] ||
    ((moves[0].Happened? && Appends(v.sys, moves[0].a, r) ==>
        v.sys.db.runs[r].persisted < v.sys.handlers[moves[0].a.delivery].entry.sequence)
     && (moves[0].Happened? ==> LeavesRow(v.sys, moves[0].a, r))
     && Rising(RunStep(v, moves[0], r), moves[1..], r))
  }

  /** In-order appends never overtake a client. */
  lemma {:induction false} RisingNeverOvertakes(v: RunView, moves: seq<RunMove>, r: string)
    requires DbOk(v.sys.db) && Current(v, r) && Rising(v, moves, r)
    ensures NeverOvertaken(v, moves, r)
    decreases |moves|
  {
    if moves != [] {
      var m := moves[0];
      if m.Happened? {
        StepKeepsStore(v.sys, m.a);
        HappenedExact(v, m, r);
      } else { PollsUpToDate(v.poller, m, v.sys.db.runs[r]); }
      RisingNeverOvertakes(RunStep(v, m, r), moves[1..], r);
    }
  }

  lemma {:induction false} AlwaysIncludesEnd(v: RunView, moves: seq<RunMove>, r: string)
    requires AlwaysCurrent(v, moves, r)
    ensures Current(WatchRun(v, moves, r), r)
    decreases |moves|
  {
    if moves != [] { AlwaysIncludesEnd(RunStep(v, moves[0], r), moves[1..], r); }
  }

  lemma {:induction false} StartStays(v: RunView, moves: seq<RunMove>, r: string)
    ensures WatchRun(v, moves, r).poller.client.start == v.poller.client.start
    decreases |moves|
  {
    if moves != [] { StartStays(RunStep(v, moves[0], r), moves[1..], r); }
  }

  /** A new client of a run, wherever its cursor, while the run's events are appended in order: it ends up
      with every event between its first and its last cursor, once each and in ascending order, and every
      answer it got was sound. */
  lemma NewClientPolls(sys: System, moves: seq<RunMove>, r: string, start: int)
    requires DbOk(sys.db) && r in sys.db.runs
    requires var v := RunView(sys, Poller(Start, Client(start, start, []), [])); Rising(v, moves, r)
    ensures var end := WatchRun(RunView(sys, Poller(Start, Client(start, start, []), [])), moves, r);
            && r in end.sys.db.runs && AnswersOk(end.poller, end.sys.db.runs[r])
            && Pages.IsRange(end.sys.db.runs[r].events, start, end.poller.client.cursor, end.poller.client.received)
  {
    var v := RunView(sys, Poller(Start, Client(start, start, []), []));
    assert RunOk(sys.db.runs[r]) && Current(v, r);
    RunPollAnswers(v, moves, r);
    RisingNeverOvertakes(v, moves, r);
    RunPollExactlyOnce(v, moves, r);
    AlwaysIncludesEnd(v, moves, r);
    StartStays(v, moves, r);
  }

  /** Reading the status after the page would break the promise. */
  lemma StatusAfterPageMisses(session: string, now: Time)
    ensures var open := FreshRun(session, "", "", "k", "h");
            var done := AppendedRow(open, 1, RunEvent(TurnCompleted, Raw("", "", "", ""), 0), now);
            var late := Respond(Pages.PageOf(open.events, 0, 1), 0, done.status, false, false);
            late.Some? && !AnswerOk(Answer(late.value, 1, done))
  {
    var open := FreshRun(session, "", "", "k", "h");
    Pages.SelectExact(open.events, 0);
    assert Pages.Select(open.events, 0) == [];
  }
}
