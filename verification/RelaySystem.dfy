/** The Run Server as one interleaved machine: PostgreSQL, the Redis streams, the coordinator's
    in-flight message handlers and the acknowledgements it sends. Every store call is one step, so
    a handler can be preempted between the Redis append, the PostgreSQL append and the command mark. */
module RelaySystem {
  import opened RuntimeTypes
  import opened RuntimeStore
  import opened Bootstrap

  /* ---- Redis streams ---- */

  datatype Entry = Entry(sequence: int, event: RunEvent)

  /** XADD with an explicit identifier: only a larger sequence is appended, and a resend of an
      existing sequence passes only when it carries the same event. */
  ghost function AppendEntry(stream: seq<Entry>, sequence: int, event: RunEvent): Result<seq<Entry>> {
    if stream == [] || stream[|stream| - 1].sequence < sequence then Ok(stream + [Entry(sequence, event)])
    else if Entry(sequence, event) in stream then Ok(stream)
    else Err(StreamConflict)
  }

  /* ---- agent messages ---- */

  datatype MessageKind =
    | MsgRunAccepted | MsgTurnStarted | MsgTurnOutput | MsgItemStarted | MsgItemDelta | MsgItemDone
    | MsgTurnCompleted | MsgTurnFailed | MsgTurnInterrupted | MsgTurnRejected

  function EventKindOf(kind: MessageKind): EventKind {
    match kind
    case MsgRunAccepted => RunAccepted
    case MsgTurnStarted => TurnStarted
    case MsgTurnOutput => AssistantDelta
    case MsgItemStarted => ItemStarted
    case MsgItemDelta => ItemDelta
    case MsgItemDone => ItemCompleted
    case MsgTurnCompleted => TurnCompleted
    case MsgTurnFailed => TurnFailed
    case MsgTurnInterrupted => TurnInterrupted
    case MsgTurnRejected => TurnFailed
  }

  datatype Message = Message(kind: MessageKind, run: string, sequence: int, payload: Payload, occurredAt: Time)

  function EventOf(m: Message): RunEvent { RunEvent(EventKindOf(m.kind), m.payload, m.occurredAt) }

  /* ---- the machine ---- */

  /** A handler between two store calls of AgentMessage. */
  datatype Handler = Handler(run: string, entry: Entry, stored: bool)

  datatype Output =
    | ReceivedAck(delivery: nat, run: string, sequence: int)
    | DurableAck(delivery: nat, run: string, sequence: int)
    | Forwarded(delivery: nat, run: string, sequence: int)
    | BatchAck(sync: string, batchNo: int, checksum: string)

  /** What one CreateRun call answered. */
  datatype Reply = Reply(session: string, key: string, hash: string, result: Result<string>)

  datatype System = System(
    db: Db,
    streams: map<string, seq<Entry>>,
    cache: set<string>,               // run identifiers known to be in the store
    handlers: map<nat, Handler>,      // one per delivery in flight
    deliveries: set<nat>,             // every delivery handled so far
    stored: set<nat>,                 // deliveries whose event reached PostgreSQL
    outputs: seq<Output>,
    replies: seq<Reply>,
    claims: map<string, seq<Time>>,   // when each command was claimed
    applied: set<BatchPayload>,       // batch messages answered with an acknowledgement
    clock: Time)

  const INIT := System(EMPTY_DB, map[], {}, map[], {}, {}, [], [], map[], {}, 0)

  datatype Action =
    | DoUpsertProjects(projects: seq<BatchProject>, now: Time)
    | DoCreateSession(id: string, project: string, title: string, key: string, hash: string, now: Time)
    | DoCreateRunLookup(session: string, key: string, hash: string)
    | DoCreateRunCommit(session: string, prompt: string, profile: string, key: string, hash: string,
                        runId: string, commandId: string, now: Time)
    | DoRequestCancel(run: string, commandId: string, now: Time)
    | DoClaim(chosen: seq<string>, limit: int, now: Time)
    | DoRelease(command: string, now: Time)
    | DoMarkSent(command: string)
    | DoReceive(delivery: nat, message: Message, lookupFails: bool, redisFails: bool, appTakes: bool)
    | DoPersist(delivery: nat, storeFails: bool, now: Time)
    | DoMarkAccepted(delivery: nat)
    | DoCreateSyncJob(id: string, commandId: string, key: string, now: Time)
    | DoBatch(payload: BatchPayload, storeFails: bool, now: Time)
    | DoMarkBatchDone(payload: BatchPayload)

  function StreamOf(sys: System, run: string): seq<Entry> {
    if run in sys.streams then sys.streams[run] else []
  }

  predicate Owns(sys: System, run: string, lookupFails: bool) {
    run in sys.cache || lookupFails || run in sys.db.runs
  }

  /** The first half of AgentMessage (ownership, Redis append, received_ack), or the router's
      forward to the App with both acknowledgements when the run is not the Run Server's. */
  ghost function Receive(sys: System, d: nat, m: Message, lookupFails: bool, redisFails: bool, appTakes: bool): System {
    if d in sys.deliveries || m.sequence < 1 then sys
    else
      var seen := sys.(deliveries := sys.deliveries + {d});
      if !Owns(sys, m.run, lookupFails) then
        if !appTakes then seen
        else seen.(outputs := sys.outputs +
                     [Forwarded(d, m.run, m.sequence), ReceivedAck(d, m.run, m.sequence),
                      DurableAck(d, m.run, m.sequence)])
      else
        var cached := seen.(cache := if lookupFails || m.run in sys.cache then sys.cache else sys.cache + {m.run});
        var appended := AppendEntry(StreamOf(sys, m.run), m.sequence, EventOf(m));
        if redisFails || appended.Err? then cached
        else cached.(streams := sys.streams[m.run := appended.value],
                     handlers := sys.handlers[d := Handler(m.run, Entry(m.sequence, EventOf(m)), false)],
                     outputs := sys.outputs + [ReceivedAck(d, m.run, m.sequence)])
  }

  /** The second half: PostgreSQL append, then durable_ack. */
  ghost function Persist(sys: System, d: nat, storeFails: bool, now: Time): System {
    if d !in sys.handlers || sys.handlers[d].stored then sys
    else
      var h := sys.handlers[d];
      var out := AppendAgentEvent(sys.db, h.run, h.entry.sequence, h.entry.event, now);
      if storeFails || out.Err? then sys.(handlers := sys.handlers - {d}, clock := now)
      else sys.(db := out.value,
                handlers := sys.handlers[d := h.(stored := true)],
                stored := sys.stored + {d},
                outputs := sys.outputs + [DurableAck(d, h.run, h.entry.sequence)],
                clock := now)
  }

  /** The tail of AgentMessage for run.accepted: the command it names is delivered. */
  ghost function MarkAccepted(sys: System, d: nat): System {
    if d !in sys.handlers || !sys.handlers[d].stored then sys
    else
      var h := sys.handlers[d];
      var command := CommandOf(h.entry.event.payload);
      var done := sys.(handlers := sys.handlers - {d});
      if h.entry.event.kind == RunAccepted && command != ""
      then done.(db := MarkCommandDelivered(sys.db, command))
      else done
  }

  /** Append one claim instant to the history of every command in `chosen`. */
  function RecordClaims(claims: map<string, seq<Time>>, chosen: seq<string>, now: Time): map<string, seq<Time>> {
    map c | c in claims.Keys + (set i | 0 <= i < |chosen| :: chosen[i]) ::
      (if c in claims then claims[c] else []) + (if c in chosen then [now] else [])
  }

  ghost function Claim(sys: System, chosen: seq<string>, limit: int, now: Time): System {
    if !Claimable(sys.db, chosen, limit, now) then sys
    else sys.(db := ClaimCommands(sys.db, chosen, now), claims := RecordClaims(sys.claims, chosen, now), clock := now)
  }

  predicate Malformed(p: BatchPayload) { p.commandId == "" || p.syncId == "" || p.checksum == "" }

  ghost function ReceiveBatch(sys: System, p: BatchPayload, storeFails: bool, now: Time): System {
    var out := ApplyBatch(sys.db, BatchOf(p), now);
    if Malformed(p) || storeFails || out.Err? then sys
    else sys.(db := out.value, outputs := sys.outputs + [BatchAck(p.syncId, p.batchNo, p.checksum)],
              applied := sys.applied + {p}, clock := now)
  }

  /** The mark that follows the acknowledgement of a final batch. */
  ghost function MarkBatchDone(sys: System, p: BatchPayload): System {
    if p !in sys.applied || !p.done then sys else sys.(db := MarkCommandDelivered(sys.db, p.commandId))
  }

  /** sendCommand marks a cancel once it is sent, and a bootstrap whose job is already over. */
  ghost function MarkSent(sys: System, command: string): System {
    if command in sys.db.outbox && sys.db.outbox[command].kind != RunStart
    then sys.(db := MarkCommandDelivered(sys.db, command))
    else sys
  }

  ghost function Answer(sys: System, session: string, key: string, hash: string, result: Result<string>): System {
    sys.(replies := sys.replies + [Reply(session, key, hash, result)])
  }

  ghost function CreateRunFast(sys: System, session: string, key: string, hash: string): System {
    match CreateRunLookup(sys.db, session, key, hash)
    case None => sys
    case Some(result) => Answer(sys, session, key, hash, result)
  }

  ghost function CreateRunSlow(sys: System, session: string, prompt: string, profile: string, key: string, hash: string,
                               runId: string, commandId: string, now: Time): System
  {
    match CreateRunCommit(sys.db, session, prompt, profile, key, hash, runId, commandId, now)
    case Err(e) => Answer(sys, session, key, hash, Err(e))
    case Ok(out) => Answer(sys.(db := out.0, clock := now), session, key, hash, Ok(out.1))
  }

  ghost function WithDb(sys: System, out: Result<Db>, now: Time): System {
    if out.Ok? then sys.(db := out.value, clock := now) else sys
  }

  ghost function First<T>(out: Result<(Db, T)>): Result<Db> {
    match out
    case Err(e) => Err(e)
    case Ok(pair) => Ok(pair.0)
  }

  ghost function Step(sys: System, a: Action): System {
    match a
    case DoUpsertProjects(ps, now) => WithDb(sys, Ok(UpsertProjects(sys.db, ps, now)), now)
    case DoCreateSession(id, project, title, key, hash, now) =>
      WithDb(sys, First(CreateSession(sys.db, id, project, title, key, hash, now)), now)
    case DoCreateRunLookup(session, key, hash) => CreateRunFast(sys, session, key, hash)
    case DoCreateRunCommit(session, prompt, profile, key, hash, runId, commandId, now) =>
      CreateRunSlow(sys, session, prompt, profile, key, hash, runId, commandId, now)
    case DoRequestCancel(run, commandId, now) => WithDb(sys, RequestCancel(sys.db, run, commandId, now), now)
    case DoClaim(chosen, limit, now) => Claim(sys, chosen, limit, now)
    case DoRelease(command, now) => WithDb(sys, Ok(ReleaseCommand(sys.db, command, now)), now)
    case DoMarkSent(command) => MarkSent(sys, command)
    case DoReceive(d, m, lookupFails, redisFails, appTakes) => Receive(sys, d, m, lookupFails, redisFails, appTakes)
    case DoPersist(d, storeFails, now) => Persist(sys, d, storeFails, now)
    case DoMarkAccepted(d) => MarkAccepted(sys, d)
    case DoCreateSyncJob(id, commandId, key, now) =>
      WithDb(sys, First(CreateSyncJob(sys.db, id, commandId, key, now)), now)
    case DoBatch(p, storeFails, now) => ReceiveBatch(sys, p, storeFails, now)
    case DoMarkBatchDone(p) => MarkBatchDone(sys, p)
  }

  ghost function Execute(sys: System, actions: seq<Action>): System
    decreases |actions|
  {
    if actions == [] then sys else Execute(Step(sys, actions[0]), actions[1..])
  }
}
