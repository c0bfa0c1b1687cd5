/** The rows and messages of the durable Run Server: what the relay's PostgreSQL schema
    stores, what an Agent sends, and the pure tables that map one to the other. */
module RuntimeTypes {

  datatype Option<+T> = None | Some(value: T)

  datatype Error =
    | NotFound             // the resource does not exist (or is archived)
    | IdempotencyConflict  // the key was used with another request
    | Constraint           // a primary key, foreign key, unique index or CHECK refused the row
    | OutOfOrder           // a bootstrap batch is not the next one
    | StreamConflict       // the Redis stream refused the entry
    | Invalid              // a parameter the server refuses

  datatype Result<+T> = Ok(value: T) | Err(error: Error) {
    predicate IsFailure() { Err? }
    function PropagateFailure<U>(): Result<U>
      requires Err?
    {
      Err(error)
    }
    function Extract(): T
      requires Ok?
    {
      value
    }
  }

  /** Nanoseconds. PostgreSQL keeps microseconds: every stored instant is truncated. */
  type Time = int

  const SECOND: Time := 1_000_000_000

  function Micro(t: Time): Time { t - t % 1000 }

  function MicroOption(t: Option<Time>): Option<Time> {
    match t
    case None => None
    case Some(v) => Some(Micro(v))
  }

  /** Unicode White_Space, the characters that TrimSpace strips. */
  predicate IsSpace(c: char) {
    || '\U{9}' <= c <= '\U{d}' || c == ' ' || c == '\U{85}' || c == '\U{a0}' || c == '\U{1680}'
    || '\U{2000}' <= c <= '\U{200a}' || c == '\U{2028}' || c == '\U{2029}' || c == '\U{202f}'
    || c == '\U{205f}' || c == '\U{3000}'
  }

  predicate IsBlank(s: string) { forall i :: 0 <= i < |s| ==> IsSpace(s[i]) }

  /* ---- run status and run events ---- */

  datatype Status =
    | Queued | Dispatching | Accepted | Running | WaitingAgent | Recovering | Finalizing
    | Completed | Failed | Canceled

  predicate IsTerminal(s: Status) { s == Completed || s == Failed || s == Canceled }

  predicate InFlight(s: Status) { !IsTerminal(s) }

  datatype EventKind =
    | RunAccepted | TurnStarted | AssistantDelta | ItemStarted | ItemDelta | ItemCompleted
    | TurnCompleted | TurnFailed | TurnInterrupted

  /** The status an event puts its run in, if it carries one. */
  function StatusForEvent(kind: EventKind): Option<Status> {
    match kind
    case RunAccepted => Some(Accepted)
    case TurnStarted => Some(Running)
    case TurnCompleted => Some(Completed)
    case TurnFailed => Some(Failed)
    case TurnInterrupted => Some(Canceled)
    case _ => None
  }

  predicate Bears(kind: EventKind) { StatusForEvent(kind).Some? }

  predicate Ends(kind: EventKind) { Bears(kind) && IsTerminal(StatusForEvent(kind).value) }

  datatype Item = Item(kind: string, role: string, text: string, body: string)

  /** A JSON payload as a value with equality. The two constructed forms are the documents that
      the bootstrap import builds; `Raw` is any other document with the fields the server decodes. */
  datatype Payload =
    | ItemPayload(item: Item)
    | TurnPayload(thread: string, turn: string, status: string, failure: string)
    | Raw(text: string, threadId: string, turnId: string, commandId: string)

  function ThreadOf(p: Payload): string {
    match p
    case ItemPayload(_) => ""
    case TurnPayload(thread, _, _, _) => thread
    case Raw(_, thread, _, _) => thread
  }

  function TurnOf(p: Payload): string {
    match p
    case ItemPayload(_) => ""
    case TurnPayload(_, turn, _, _) => turn
    case Raw(_, _, turn, _) => turn
  }

  function CommandOf(p: Payload): string {
    match p
    case Raw(_, _, _, command) => command
    case _ => ""
  }

  datatype RunEvent = RunEvent(kind: EventKind, payload: Payload, occurredAt: Time)

  function Stored(e: RunEvent): RunEvent { e.(occurredAt := Micro(e.occurredAt)) }

  /* ---- rows ---- */

  datatype Idempotency = Idempotency(key: string, hash: string)

  datatype Run = Run(
    sessionId: string,
    turnId: Option<string>,
    status: Status,
    version: int,
    idem: Option<Idempotency>,
    prompt: string,
    profile: string,
    cancelRequestedAt: Option<Time>,
    startedAt: Option<Time>,
    finishedAt: Option<Time>,
    persisted: int,
    final: Option<int>,
    events: map<int, RunEvent>)

  datatype SessionEventKind = RunCreated | RunStatusChanged | RunCompleted

  datatype SessionEvent = SessionEvent(kind: SessionEventKind, runId: string, status: Status)

  datatype Session = Session(
    projectId: string,
    threadId: Option<string>,
    title: string,
    lastSeq: int,
    log: map<int, SessionEvent>,
    idem: Option<Idempotency>,
    updatedAt: Time,
    lastSeen: Option<string>,
    archivedAt: Option<Time>)

  datatype Project = Project(
    name: string,
    lastSeen: Option<string>,
    archivedAt: Option<Time>,
    updatedAt: Time)

  datatype CommandKind = RunStart | RunCancel | BootstrapStart

  datatype CommandStatus = Pending | Claimed | Delivered

  datatype Command = Command(
    kind: CommandKind,
    resource: string,
    status: CommandStatus,
    attempts: nat,
    nextAttemptAt: Time,
    claimExpiresAt: Option<Time>,
    createdAt: Time)

  datatype JobStatus = JobQueued | JobRunning | JobCompleted | JobFailed

  datatype SyncJob = SyncJob(
    status: JobStatus,
    key: string,
    snapshotId: string,
    lastBatch: int,
    checksum: string,
    itemCount: int,
    totalSessions: int,
    processedSessions: int,
    archivedSessions: int,
    archivedProjects: int,
    reconciled: bool,
    createdAt: Time)

  datatype Db = Db(
    projects: map<string, Project>,
    sessions: map<string, Session>,
    runs: map<string, Run>,
    outbox: map<string, Command>,
    jobs: map<string, SyncJob>)

  const EMPTY_DB := Db(map[], map[], map[], map[], map[])

  /* ---- bootstrap messages ---- */

  datatype Turn = Turn(
    id: string,
    status: string,
    startedAt: Option<Time>,
    completedAt: Option<Time>,
    failure: string,
    items: seq<Item>)

  datatype Thread = Thread(
    id: string,
    projectId: string,
    title: string,
    createdAt: Time,
    updatedAt: Time,
    turns: seq<Turn>)

  datatype BatchProject = BatchProject(id: string, name: string)

  datatype BatchPayload = BatchPayload(
    commandId: string,
    syncId: string,
    snapshotId: string,
    batchNo: int,
    checksum: string,
    totalSessions: int,
    processedSessions: int,
    reconciliationSafe: bool,
    project: Option<BatchProject>,
    thread: Option<Thread>,
    done: bool)

  datatype BatchSession = BatchSession(id: string, projectId: string, threadId: string, title: string)

  datatype BatchEvent = BatchEvent(sequence: int, event: RunEvent)

  datatype BatchRun = BatchRun(
    id: string,
    sessionId: string,
    turnId: string,
    status: string,
    prompt: string,
    startedAt: Option<Time>,
    finishedAt: Option<Time>,
    events: seq<BatchEvent>)

  datatype Batch = Batch(
    commandId: string,
    syncId: string,
    snapshotId: string,
    batchNo: int,
    checksum: string,
    totalSessions: int,
    processedSessions: int,
    reconciliationSafe: bool,
    projects: seq<BatchProject>,
    sessions: seq<BatchSession>,
    runs: seq<BatchRun>,
    done: bool)
}
