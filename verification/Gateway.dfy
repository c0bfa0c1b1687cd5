/** The request/response gateways to the Agent (source reads and execution profiles) as interleaved
    steps: a handler looks its waiter up under the lock and fills it later, FailPending collects the
    waiters under the lock and fails them one by one later, and a request can give up at any time. */
module Gateway {
  import opened RuntimeTypes

  const MAX_PENDING := 16

  /** What a one-slot channel may hold; the tag says where it came from. */
  datatype Delivery =
    | FromReply(message: nat, trace: string, body: string)
    | FromFailure(call: nat, error: string)

  datatype Result =
    | AgentOffline
    | Busy
    | SendFailed
    | Cancelled(reason: string)
    | Got(delivery: Delivery)

  datatype Phase =
    | Registered
    | Waiting
    | Returning(result: Result)   // the deferred removal is still to come
    | Finished(result: Result)

  datatype Request = Request(trace: string, phase: Phase)

  /** A handler after its lookup, and a FailPending call after its collection. A waiter is named by
      the request that made it. */
  datatype Handler = Handler(trace: string, body: string, waiter: Option<nat>)
  datatype Failer = Failer(error: string, waiters: set<nat>)

  datatype State = State(
    requests: map<nat, Request>,
    pending: map<string, nat>,
    slots: map<nat, seq<Delivery>>,
    handlers: map<nat, Handler>,
    failers: map<nat, Failer>,
    replies: map<nat, (string, string)>,   // every reply handled: trace and body
    failures: map<nat, string>)            // every FailPending call: its error

  const INIT := State(map[], map[], map[], map[], map[], map[], map[])

  datatype Move =
    | Begin(r: nat, trace: string, online: bool)
    | Send(r: nat, ok: bool)
    | Take(r: nat)
    | Cancel(r: nat, reason: string)
    | Release(r: nat)
    | Lookup(h: nat, trace: string, body: string)
    | Deliver(h: nat)
    | Collect(f: nat, error: string)
    | FailOne(f: nat, w: nat)

  function PhaseOf(s: State, r: nat): Option<Phase> { if r in s.requests then Some(s.requests[r].phase) else None }

  function To(s: State, r: nat, p: Phase): State
    requires r in s.requests
  {
    s.(requests := s.requests[r := s.requests[r].(phase := p)])
  }

  /** A send with a default branch: it never blocks, and a full slot keeps what it has. */
  function Offer(slots: map<nat, seq<Delivery>>, w: nat, d: Delivery): map<nat, seq<Delivery>> {
    if w in slots && |slots[w]| < 1 then slots[w := slots[w] + [d]] else slots
  }

  /** What a new request meets: no Agent, no room, or a waiter of its own. */
  function Admission(pending: map<string, nat>, online: bool): Phase {
    if !online then Finished(AgentOffline) else if |pending| >= MAX_PENDING then Finished(Busy) else Registered
  }

  function Begun(s: State, r: nat, trace: string, online: bool): State {
    if r in s.requests then s
    else
      var p := Admission(s.pending, online);
      var next := s.(requests := s.requests[r := Request(trace, p)]);
      if p.Registered? then next.(pending := s.pending[trace := r], slots := s.slots[r := []]) else next
  }

  function Sent(s: State, r: nat, ok: bool): State {
    if PhaseOf(s, r) == Some(Registered) then To(s, r, if ok then Waiting else Returning(SendFailed)) else s
  }

  function Taken(s: State, r: nat): State {
    if PhaseOf(s, r) == Some(Waiting) && r in s.slots && s.slots[r] != []
    then To(s, r, Returning(Got(s.slots[r][0]))).(slots := s.slots[r := s.slots[r][1..]])
    else s
  }

  function CancelledAs(s: State, r: nat, reason: string): State {
    if PhaseOf(s, r) == Some(Waiting) then To(s, r, Returning(Cancelled(reason))) else s
  }

  /** The deferred release: the pending entry goes, the waiter itself stays. */
  function Released(s: State, r: nat): State {
    if r in s.requests && s.requests[r].phase.Returning?
    then To(s, r, Finished(s.requests[r].phase.result)).(pending := s.pending - {s.requests[r].trace})
    else s
  }

  function LookedUp(s: State, h: nat, trace: string, body: string): State {
    if h in s.replies then s
    else
      var waiter := if trace in s.pending then Some(s.pending[trace]) else None;
      s.(replies := s.replies[h := (trace, body)], handlers := s.handlers[h := Handler(trace, body, waiter)])
  }

  function DeliveredBy(s: State, h: nat): State {
    if h !in s.handlers then s
    else
      var x := s.handlers[h];
      s.(handlers := s.handlers - {h},
         slots := if x.waiter.Some? then Offer(s.slots, x.waiter.value, FromReply(h, x.trace, x.body)) else s.slots)
  }

  function Collected(s: State, f: nat, error: string): State {
    if f in s.failures then s
    else s.(failures := s.failures[f := error], failers := s.failers[f := Failer(error, s.pending.Values)])
  }

  function FailedOne(s: State, f: nat, w: nat): State {
    if f !in s.failers || w !in s.failers[f].waiters then s
    else
      s.(failers := s.failers[f := s.failers[f].(waiters := s.failers[f].waiters - {w})],
         slots := Offer(s.slots, w, FromFailure(f, s.failers[f].error)))
  }

  function Step(s: State, m: Move): State {
    match m
    case Begin(r, trace, online) => Begun(s, r, trace, online)
    case Send(r, ok) => Sent(s, r, ok)
    case Take(r) => Taken(s, r)
    case Cancel(r, reason) => CancelledAs(s, r, reason)
    case Release(r) => Released(s, r)
    case Lookup(h, trace, body) => LookedUp(s, h, trace, body)
    case Deliver(h) => DeliveredBy(s, h)
    case Collect(f, error) => Collected(s, f, error)
    case FailOne(f, w) => FailedOne(s, f, w)
  }

  function Execute(s: State, moves: seq<Move>): State
    decreases |moves|
  {
    if moves == [] then s else Execute(Step(s, moves[0]), moves[1..])
  }

  /** Trace identifiers are minted, so no two requests share one. */
  ghost predicate Minted(s: State, m: Move) {
    m.Begin? ==> forall r :: r in s.requests ==> s.requests[r].trace != m.trace
  }

  ghost predicate AllMinted(s: State, moves: seq<Move>)
    decreases |moves|
  {
    moves == [] || (Minted(s, moves[0]) && AllMinted(Step(s, moves[0]), moves[1..]))
  }

  /* ---- the invariant ---- */

  predicate Unfinished(s: State, r: nat) { r in s.requests && !s.requests[r].phase.Finished? }

  /** `pending` is exactly the registered, unfinished requests under their traces. */
  ghost predicate Listed(s: State, t: string) {
    t in s.pending && Unfinished(s, s.pending[t]) && s.requests[s.pending[t]].trace == t
  }

  ghost predicate Lists(s: State, r: nat) {
    r in s.requests && s.requests[r].trace in s.pending && s.pending[s.requests[r].trace] == r
  }

  ghost predicate PendingExact(s: State) {
    && (forall t :: t in s.pending ==> Listed(s, t))
    && (forall r :: Unfinished(s, r) ==> Lists(s, r))
    && |s.pending.Keys| <= MAX_PENDING
  }

  /** The delivery is addressed to request `r`: a reply that was handled under its own trace, or the
      error of a FailPending call. */
  ghost predicate Addressed(s: State, r: nat, d: Delivery) {
    && r in s.requests
    && match d
       case FromReply(h, trace, body) => trace == s.requests[r].trace && h in s.replies && s.replies[h] == (trace, body)
       case FromFailure(f, error) => f in s.failures && s.failures[f] == error
  }

  ghost predicate SlotOk(s: State, r: nat, slot: seq<Delivery>) {
    r in s.requests && |slot| <= 1 && (|slot| == 1 ==> Addressed(s, r, slot[0]))
  }

  ghost predicate SlotsOk(s: State) {
    && (forall r :: Unfinished(s, r) ==> r in s.slots)
    && (forall r :: r in s.slots ==> SlotOk(s, r, s.slots[r]))
  }

  ghost predicate HandlerOk(s: State, h: nat, x: Handler) {
    && h in s.replies && s.replies[h] == (x.trace, x.body)
    && (x.waiter.Some? ==> x.waiter.value in s.requests && s.requests[x.waiter.value].trace == x.trace)
  }

  ghost predicate FailerOk(s: State, f: nat, x: Failer) {
    f in s.failures && s.failures[f] == x.error && x.waiters <= s.requests.Keys
  }

  ghost predicate HandlersOk(s: State) {
    && (forall h :: h in s.handlers ==> HandlerOk(s, h, s.handlers[h]))
    && (forall f :: f in s.failers ==> FailerOk(s, f, s.failers[f]))
  }

  function Delivered(p: Phase): Option<Delivery> {
    match p
    case Returning(Got(d)) => Some(d)
    case Finished(Got(d)) => Some(d)
    case _ => None
  }

  ghost predicate ResultOk(s: State, r: nat) {
    r in s.requests && (Delivered(s.requests[r].phase).Some? ==> Addressed(s, r, Delivered(s.requests[r].phase).value))
  }

  ghost predicate ResultsOk(s: State) { forall r :: r in s.requests ==> ResultOk(s, r) }

  ghost predicate Inv(s: State) { PendingExact(s) && SlotsOk(s) && HandlersOk(s) && ResultsOk(s) }

  /* ---- what later states keep ---- */

  /** Requests keep their trace, and what was handled stays on record. */
  ghost predicate Later(s: State, next: State) {
    && (forall r :: r in s.requests ==> r in next.requests && next.requests[r].trace == s.requests[r].trace)
    && (forall h :: h in s.replies ==> h in next.replies && next.replies[h] == s.replies[h])
    && (forall f :: f in s.failures ==> f in next.failures && next.failures[f] == s.failures[f])
  }

  lemma AddressedLater(s: State, next: State, r: nat, d: Delivery)
    requires Later(s, next) && Addressed(s, r, d)
    ensures Addressed(next, r, d)
  {
  }

  /** Slots that did not gain a delivery. */
  lemma SlotsLater(s: State, next: State)
    requires Later(s, next) && SlotsOk(s)
    requires forall r :: Unfinished(next, r) ==> r in next.slots
    requires forall r :: r in next.slots
               ==> r in next.requests && (next.slots[r] == [] || (r in s.slots && next.slots[r] == s.slots[r]))
    ensures SlotsOk(next)
  {
    forall r | r in next.slots ensures SlotOk(next, r, next.slots[r]) {
      if |next.slots[r]| == 1 { AddressedLater(s, next, r, s.slots[r][0]); }
    }
  }

  lemma HandlersLater(s: State, next: State)
    requires Later(s, next) && HandlersOk(s) && next.handlers == s.handlers && next.failers == s.failers
    ensures HandlersOk(next)
  {
    forall h | h in next.handlers ensures HandlerOk(next, h, next.handlers[h]) {
      assert HandlerOk(s, h, s.handlers[h]);
    }
    forall f | f in next.failers ensures FailerOk(next, f, next.failers[f]) { assert FailerOk(s, f, s.failers[f]); }
  }

  lemma ResultsLater(s: State, next: State)
    requires Later(s, next) && ResultsOk(s)
    requires forall r :: r in next.requests && Delivered(next.requests[r].phase).Some? ==>
               r in s.requests && Delivered(s.requests[r].phase) == Delivered(next.requests[r].phase)
    ensures ResultsOk(next)
  {
    forall r | r in next.requests ensures ResultOk(next, r) {
      if Delivered(next.requests[r].phase).Some? {
        assert ResultOk(s, r);
        AddressedLater(s, next, r, Delivered(s.requests[r].phase).value);
      }
    }
  }

  /* ---- requests ---- */

  /** The row of request `r` changes, and `pending` with it. */
  ghost predicate OneRow(s: State, next: State, r: nat) {
    && next == s.(requests := next.requests, pending := next.pending, slots := next.slots)
    && r in next.requests && next.requests == s.requests[r := next.requests[r]]
    && (r in s.requests ==> next.requests[r].trace == s.requests[r].trace)
  }

  lemma OneRowLater(s: State, next: State, r: nat)
    requires OneRow(s, next, r)
    ensures Later(s, next)
  {
  }

  lemma RegisteredPending(s: State, next: State, r: nat, trace: string)
    requires PendingExact(s) && r !in s.requests && |s.pending.Keys| < MAX_PENDING
    requires forall q :: q in s.requests ==> s.requests[q].trace != trace
    requires next.requests == s.requests[r := Request(trace, Registered)] && next.pending == s.pending[trace := r]
    ensures PendingExact(next)
  {
    assert next.pending.Keys == s.pending.Keys + {trace};
    forall t | t in next.pending ensures Listed(next, t) { if t != trace { assert Listed(s, t); } }
    forall q | Unfinished(next, q) ensures Lists(next, q) { if q != r { assert Unfinished(s, q) && Lists(s, q); } }
  }

  lemma BeginPending(s: State, r: nat, trace: string)
    requires PendingExact(s) && r !in s.requests && |s.pending.Keys| < MAX_PENDING
    requires forall q :: q in s.requests ==> s.requests[q].trace != trace
    ensures PendingExact(Step(s, Begin(r, trace, true)))
  {
    assert |s.pending| == |s.pending.Keys| && Admission(s.pending, true) == Registered;
    RegisteredPending(s, Begun(s, r, trace, true), r, trace);
  }

  lemma RefusedPending(s: State, r: nat, trace: string, x: Result)
    requires PendingExact(s) && r !in s.requests
    ensures PendingExact(s.(requests := s.requests[r := Request(trace, Finished(x))]))
  {
    var next := s.(requests := s.requests[r := Request(trace, Finished(x))]);
    forall t | t in next.pending ensures Listed(next, t) { assert Listed(s, t); }
    forall q | Unfinished(next, q) ensures Lists(next, q) { assert Unfinished(s, q) && Lists(s, q); }
  }

  lemma BeginShape(s: State, m: Move)
    requires m.Begin? && m.r !in s.requests
    ensures var next := Step(s, m);
            && OneRow(s, next, m.r) && Delivered(next.requests[m.r].phase).None?
            && (if m.online && |s.pending| < MAX_PENDING then next.slots == s.slots[m.r := []]
                else next.slots == s.slots && next.requests[m.r].phase.Finished?)
  {
  }

  lemma BeginKeeps(s: State, m: Move)
    requires Inv(s) && m.Begin? && Minted(s, m)
    ensures Inv(Step(s, m))
  {
    if m.r !in s.requests {
      BeginShape(s, m);
      BeginLists(s, m);
      BegunKeeps(s, Step(s, m), m.r);
    }
  }

  lemma BeginLists(s: State, m: Move)
    requires PendingExact(s) && m.Begin? && Minted(s, m) && m.r !in s.requests
    ensures PendingExact(Step(s, m))
  {
    assert |s.pending| == |s.pending.Keys|;
    if m.online && |s.pending| < MAX_PENDING { BeginPending(s, m.r, m.trace); }
    else { RefusedPending(s, m.r, m.trace, if m.online then Busy else AgentOffline); }
  }

  lemma BegunKeeps(s: State, next: State, r: nat)
    requires Inv(s) && PendingExact(next) && OneRow(s, next, r) && r !in s.requests
    requires Delivered(next.requests[r].phase).None?
    requires next.slots == s.slots[r := []] || (next.slots == s.slots && next.requests[r].phase.Finished?)
    ensures Inv(next)
  {
    OneRowLater(s, next, r);
    BeginSlots(s, next, r);
    HandlersLater(s, next);
    ResultsLater(s, next);
  }

  lemma BeginSlots(s: State, next: State, r: nat)
    requires SlotsOk(s) && OneRow(s, next, r) && r !in s.requests
    requires next.slots == s.slots[r := []] || (next.slots == s.slots && next.requests[r].phase.Finished?)
    ensures SlotsOk(next)
  {
    OneRowLater(s, next, r);
    forall q | Unfinished(next, q) ensures q in next.slots { if q != r { assert Unfinished(s, q); } }
    forall q | q in next.slots ensures q in next.requests { if q != r { assert SlotOk(s, q, s.slots[q]); } }
    SlotsLater(s, next);
  }

  /** A request moves on without a delivery. */
  lemma PhaseKeeps(s: State, r: nat, p: Phase)
    requires Inv(s) && Unfinished(s, r) && !p.Finished? && Delivered(p).None?
    ensures Inv(To(s, r, p))
  {
    var next := To(s, r, p);
    OneRowLater(s, next, r);
    PhasePending(s, r, p);
    PhaseSlots(s, r, p);
    HandlersLater(s, next);
    ResultsLater(s, next);
  }

  lemma PhasePending(s: State, r: nat, p: Phase)
    requires PendingExact(s) && Unfinished(s, r) && !p.Finished?
    ensures PendingExact(To(s, r, p))
  {
    var next := To(s, r, p);
    forall t | t in next.pending ensures Listed(next, t) { assert Listed(s, t); }
    forall q | Unfinished(next, q) ensures Lists(next, q) { assert Unfinished(s, q) && Lists(s, q); }
  }

  lemma PhaseSlots(s: State, r: nat, p: Phase)
    requires SlotsOk(s) && Unfinished(s, r)
    ensures SlotsOk(To(s, r, p))
  {
    var next := To(s, r, p);
    OneRowLater(s, next, r);
    forall q | Unfinished(next, q) ensures q in next.slots { assert Unfinished(s, q); }
    forall q | q in next.slots ensures q in next.requests { assert SlotOk(s, q, s.slots[q]); }
    SlotsLater(s, next);
  }

  lemma GotResults(s: State, r: nat, d: Delivery)
    requires ResultsOk(s) && Addressed(s, r, d)
    ensures ResultsOk(To(s, r, Returning(Got(d))))
  {
    var next := To(s, r, Returning(Got(d)));
    OneRowLater(s, next, r);
    forall q | q in next.requests ensures ResultOk(next, q) {
      assert ResultOk(s, q);
      if q == r { AddressedLater(s, next, r, d); }
      else if Delivered(s.requests[q].phase).Some? { AddressedLater(s, next, q, Delivered(s.requests[q].phase).value); }
    }
  }

  lemma TakeKeeps(s: State, m: Move)
    requires Inv(s) && m.Take?
    ensures Inv(Step(s, m))
  {
    var r := m.r;
    if PhaseOf(s, r) == Some(Waiting) && r in s.slots && s.slots[r] != [] {
      var d := s.slots[r][0];
      assert SlotOk(s, r, s.slots[r]);
      GotKeeps(s, r, d);
      var got := To(s, r, Returning(Got(d)));
      assert s.slots[r] == [d] && s.slots[r][1..] == [];
      assert Taken(s, r) == got.(slots := got.slots[r := []]);
      SlotEmptied(got, r);
    }
  }

  lemma GotKeeps(s: State, r: nat, d: Delivery)
    requires Inv(s) && Unfinished(s, r) && Addressed(s, r, d)
    ensures Inv(To(s, r, Returning(Got(d))))
  {
    var next := To(s, r, Returning(Got(d)));
    OneRowLater(s, next, r);
    PhasePending(s, r, Returning(Got(d)));
    PhaseSlots(s, r, Returning(Got(d)));
    HandlersLater(s, next);
    GotResults(s, r, d);
  }

  lemma SlotEmptied(s: State, r: nat)
    requires Inv(s) && r in s.slots
    ensures Inv(s.(slots := s.slots[r := []]))
  {
    forall q | q in s.slots ensures SlotOk(s, q, s.slots[r := []][q]) { assert SlotOk(s, q, s.slots[q]); }
    SlotChanges(s, s.slots[r := []]);
  }

  /** Emptying a slot, or filling it with something addressed, keeps everything. */
  lemma SlotChanges(s: State, slots: map<nat, seq<Delivery>>)
    requires Inv(s) && s.slots.Keys <= slots.Keys && forall r :: r in slots ==> SlotOk(s, r, slots[r])
    ensures Inv(s.(slots := slots))
  {
    var next := s.(slots := slots);
    assert Later(s, next);
    SlotsReplaced(s, slots);
    PendingSame(s, next);
    HandlersLater(s, next);
    ResultsLater(s, next);
  }

  lemma SlotsReplaced(s: State, slots: map<nat, seq<Delivery>>)
    requires SlotsOk(s) && s.slots.Keys <= slots.Keys && forall r :: r in slots ==> SlotOk(s, r, slots[r])
    ensures SlotsOk(s.(slots := slots))
  {
    var next := s.(slots := slots);
    forall q | Unfinished(next, q) ensures q in next.slots { assert Unfinished(s, q); }
    forall q | q in next.slots ensures SlotOk(next, q, next.slots[q]) { assert SlotOk(s, q, slots[q]); }
  }

  lemma PendingSame(s: State, next: State)
    requires PendingExact(s) && next.requests == s.requests && next.pending == s.pending
    ensures PendingExact(next)
  {
    forall t | t in next.pending ensures Listed(next, t) { assert Listed(s, t); }
    forall q | Unfinished(next, q) ensures Lists(next, q) { assert Unfinished(s, q) && Lists(s, q); }
  }

  lemma ReleasePending(s: State, r: nat)
    requires PendingExact(s) && r in s.requests && s.requests[r].phase.Returning?
    ensures PendingExact(Step(s, Release(r)))
  {
    var next := Step(s, Release(r));
    var t := s.requests[r].trace;
    assert Unfinished(s, r) && Lists(s, r);
    assert next.pending.Keys == s.pending.Keys - {t};
    forall u | u in next.pending ensures Listed(next, u) { assert Listed(s, u); }
    forall q | Unfinished(next, q) ensures Lists(next, q) { assert Unfinished(s, q) && Lists(s, q); }
  }

  lemma ReleaseKeeps(s: State, r: nat)
    requires Inv(s)
    ensures Inv(Step(s, Release(r)))
  {
    if r in s.requests && s.requests[r].phase.Returning? {
      var next := Step(s, Release(r));
      ReleasePending(s, r);
      assert OneRow(s, next, r) && Unfinished(s, r);
      ReleasedKeeps(s, next, r);
    }
  }

  lemma ReleasedKeeps(s: State, next: State, r: nat)
    requires Inv(s) && PendingExact(next) && OneRow(s, next, r) && Unfinished(s, r) && next.slots == s.slots
    requires Delivered(next.requests[r].phase) == Delivered(s.requests[r].phase)
    ensures Inv(next)
  {
    OneRowLater(s, next, r);
    ReleasedSlots(s, next, r);
    HandlersLater(s, next);
    ResultsLater(s, next);
  }

  lemma ReleasedSlots(s: State, next: State, r: nat)
    requires SlotsOk(s) && OneRow(s, next, r) && Unfinished(s, r) && next.slots == s.slots
    ensures SlotsOk(next)
  {
    OneRowLater(s, next, r);
    forall q | Unfinished(next, q) ensures q in next.slots { assert Unfinished(s, q); }
    forall q | q in next.slots ensures q in next.requests { assert SlotOk(s, q, s.slots[q]); }
    SlotsLater(s, next);
  }

  /* ---- handlers ---- */

  /** Nothing changed but handlers, failers and the record of what was handled. */
  ghost predicate OnRecord(s: State, next: State) {
    && next == s.(handlers := next.handlers, failers := next.failers, replies := next.replies,
                  failures := next.failures)
    && Later(s, next)
  }

  lemma OnRecordKeeps(s: State, next: State)
    requires Inv(s) && OnRecord(s, next) && HandlersOk(next)
    ensures Inv(next)
  {
    PendingSame(s, next);
    SlotsOnRecord(s, next);
    ResultsLater(s, next);
  }

  lemma SlotsOnRecord(s: State, next: State)
    requires SlotsOk(s) && OnRecord(s, next)
    ensures SlotsOk(next)
  {
    forall q | Unfinished(next, q) ensures q in next.slots { assert Unfinished(s, q); }
    forall q | q in next.slots ensures q in next.requests { assert SlotOk(s, q, s.slots[q]); }
    SlotsLater(s, next);
  }

  lemma LookupKeeps(s: State, m: Move)
    requires Inv(s) && m.Lookup?
    ensures Inv(Step(s, m))
  {
    LookupHandlers(s, m);
    LookupRecord(s, m);
    OnRecordKeeps(s, Step(s, m));
  }

  lemma LookupRecord(s: State, m: Move)
    requires m.Lookup? || m.Collect?
    ensures OnRecord(s, Step(s, m))
  {
  }

  lemma LookupHandlers(s: State, m: Move)
    requires PendingExact(s) && HandlersOk(s) && m.Lookup?
    ensures HandlersOk(Step(s, m))
  {
    var next := Step(s, m);
    if m.trace in s.pending { assert Listed(s, m.trace); }
    forall h | h in next.handlers ensures HandlerOk(next, h, next.handlers[h]) {
      if h in s.handlers { assert HandlerOk(s, h, s.handlers[h]); }
    }
    forall f | f in next.failers ensures FailerOk(next, f, next.failers[f]) { assert FailerOk(s, f, s.failers[f]); }
  }

  lemma CollectKeeps(s: State, m: Move)
    requires Inv(s) && m.Collect?
    ensures Inv(Step(s, m))
  {
    CollectHandlers(s, m);
    LookupRecord(s, m);
    OnRecordKeeps(s, Step(s, m));
  }

  lemma CollectHandlers(s: State, m: Move)
    requires PendingExact(s) && HandlersOk(s) && m.Collect?
    ensures HandlersOk(Step(s, m))
  {
    var next := Step(s, m);
    forall h | h in next.handlers ensures HandlerOk(next, h, next.handlers[h]) {
      assert HandlerOk(s, h, s.handlers[h]);
    }
    PendingKnown(s);
    forall f | f in next.failers ensures FailerOk(next, f, next.failers[f]) {
      if f in s.failers { assert FailerOk(s, f, s.failers[f]); }
    }
  }

  lemma PendingKnown(s: State)
    requires PendingExact(s)
    ensures s.pending.Values <= s.requests.Keys
  {
    forall w | w in s.pending.Values ensures w in s.requests {
      var t :| t in s.pending && s.pending[t] == w;
      assert Listed(s, t);
    }
  }

  lemma OfferKeeps(s: State, w: nat, d: Delivery)
    requires Inv(s) && Addressed(s, w, d)
    ensures Inv(s.(slots := Offer(s.slots, w, d)))
  {
    forall r | r in Offer(s.slots, w, d) ensures SlotOk(s, r, Offer(s.slots, w, d)[r]) {
      assert SlotOk(s, r, s.slots[r]);
    }
    SlotChanges(s, Offer(s.slots, w, d));
  }

  lemma DeliverKeeps(s: State, m: Move)
    requires Inv(s) && m.Deliver?
    ensures Inv(Step(s, m))
  {
    if m.h in s.handlers {
      var x := s.handlers[m.h];
      assert HandlerOk(s, m.h, x);
      var mid := s;
      if x.waiter.Some? {
        OfferKeeps(s, x.waiter.value, FromReply(m.h, x.trace, x.body));
        mid := s.(slots := Offer(s.slots, x.waiter.value, FromReply(m.h, x.trace, x.body)));
      }
      HandlerGone(mid, m.h);
    }
  }

  lemma HandlerGone(s: State, h: nat)
    requires Inv(s)
    ensures Inv(s.(handlers := s.handlers - {h}))
  {
    var next := s.(handlers := s.handlers - {h});
    forall x | x in next.handlers ensures HandlerOk(next, x, next.handlers[x]) {
      assert HandlerOk(s, x, s.handlers[x]);
    }
    forall f | f in next.failers ensures FailerOk(next, f, next.failers[f]) { assert FailerOk(s, f, s.failers[f]); }
    OnRecordKeeps(s, next);
  }

  lemma FailOneKeeps(s: State, m: Move)
    requires Inv(s) && m.FailOne?
    ensures Inv(Step(s, m))
  {
    if m.f in s.failers && m.w in s.failers[m.f].waiters {
      var x := s.failers[m.f];
      assert FailerOk(s, m.f, x);
      OfferKeeps(s, m.w, FromFailure(m.f, x.error));
      WaiterFailed(s.(slots := Offer(s.slots, m.w, FromFailure(m.f, x.error))), m.f, m.w);
    }
  }

  lemma WaiterFailed(s: State, f: nat, w: nat)
    requires Inv(s) && f in s.failers
    ensures Inv(s.(failers := s.failers[f := s.failers[f].(waiters := s.failers[f].waiters - {w})]))
  {
    var next := s.(failers := s.failers[f := s.failers[f].(waiters := s.failers[f].waiters - {w})]);
    forall h | h in next.handlers ensures HandlerOk(next, h, next.handlers[h]) {
      assert HandlerOk(s, h, s.handlers[h]);
    }
    forall g | g in next.failers ensures FailerOk(next, g, next.failers[g]) { assert FailerOk(s, g, s.failers[g]); }
    OnRecordKeeps(s, next);
  }

  /* ---- every interleaving ---- */

  lemma StepKeeps(s: State, m: Move)
    requires Inv(s) && Minted(s, m)
    ensures Inv(Step(s, m))
  {
    match m
    case Begin(_, _, _) => BeginKeeps(s, m);
    case Send(r, ok) =>
      if PhaseOf(s, r) == Some(Registered) { PhaseKeeps(s, r, if ok then Waiting else Returning(SendFailed)); }
    case Take(_) => TakeKeeps(s, m);
    case Cancel(r, reason) => if PhaseOf(s, r) == Some(Waiting) { PhaseKeeps(s, r, Returning(Cancelled(reason))); }
    case Release(r) => ReleaseKeeps(s, r);
    case Lookup(_, _, _) => LookupKeeps(s, m);
    case Collect(_, _) => CollectKeeps(s, m);
    case Deliver(_) => DeliverKeeps(s, m);
    case FailOne(_, _) => FailOneKeeps(s, m);
  }

  lemma {:induction false} Reachable(s: State, moves: seq<Move>)
    requires Inv(s) && AllMinted(s, moves)
    ensures Inv(Execute(s, moves))
    decreases |moves|
  {
    if moves != [] {
      StepKeeps(s, moves[0]);
      Reachable(Step(s, moves[0]), moves[1..]);
    }
  }

  /* ---- main results ---- */

  /** The move that gave request `r` a result of its own making. */
  predicate Causes(m: Move, r: nat, x: Result) {
    match x
    case AgentOffline => m.Begin? && m.r == r && !m.online
    case Busy => m.Begin? && m.r == r && m.online
    case SendFailed => m == Send(r, false)
    case Cancelled(reason) => m == Cancel(r, reason)
    case Got(_) => m == Take(r)
  }

  function ResultAt(s: State, r: nat): Option<Result> {
    if r !in s.requests then None
    else match s.requests[r].phase
         case Returning(x) => Some(x)
         case Finished(x) => Some(x)
         case _ => None
  }

  lemma StepResult(s: State, m: Move, r: nat)
    ensures var x := ResultAt(Step(s, m), r); x.Some? && x != ResultAt(s, r) ==> Causes(m, r, x.value)
  {
  }

  /** A request's result is the one some move of its own gave it. */
  lemma {:induction false} ResultCaused(s: State, moves: seq<Move>, r: nat)
    requires ResultAt(s, r).None? && ResultAt(Execute(s, moves), r).Some?
    ensures exists i :: 0 <= i < |moves| && Causes(moves[i], r, ResultAt(Execute(s, moves), r).value)
    decreases |moves|
  {
    var next := Step(s, moves[0]);
    StepResult(s, moves[0], r);
    if ResultAt(next, r).Some? {
      ResultStays(next, moves[1..], r);
      assert Causes(moves[0], r, ResultAt(next, r).value);
    } else {
      ResultCaused(next, moves[1..], r);
      var i :| 0 <= i < |moves[1..]| && Causes(moves[1..][i], r, ResultAt(Execute(s, moves), r).value);
      assert moves[i + 1] == moves[1..][i];
    }
  }

  lemma OneResult(s: State, m: Move, r: nat)
    requires ResultAt(s, r).Some?
    ensures ResultAt(Step(s, m), r) == ResultAt(s, r)
  {
  }

  lemma {:induction false} ResultStays(s: State, moves: seq<Move>, r: nat)
    requires ResultAt(s, r).Some?
    ensures ResultAt(Execute(s, moves), r) == ResultAt(s, r)
    decreases |moves|
  {
    if moves != [] {
      OneResult(s, moves[0], r);
      ResultStays(Step(s, moves[0]), moves[1..], r);
    }
  }

  /** In every interleaving: at most 16 pending entries, which are exactly the registered unfinished
      requests; at most one delivery per waiter; a request that got an answer got a reply handled under its
      own trace, or the error of a FailPending call; and any other result is its own refusal, failed send
      or cancellation. */
  lemma GatewaySafe(moves: seq<Move>, r: nat)
    requires AllMinted(INIT, moves)
    requires r in Execute(INIT, moves).requests
    ensures var s := Execute(INIT, moves);
            && |s.pending.Keys| <= 16
            && (Unfinished(s, r) <==> Lists(s, r))
            && (r in s.slots ==> |s.slots[r]| <= 1)
            && (match s.requests[r].phase
                case Finished(Got(FromReply(h, trace, body))) =>
                  trace == s.requests[r].trace && h in s.replies && s.replies[h] == (trace, body)
                case Finished(Got(FromFailure(f, error))) => f in s.failures && s.failures[f] == error
                case Finished(x) => exists i :: 0 <= i < |moves| && Causes(moves[i], r, x)
                case _ => true)
  {
    Reachable(INIT, moves);
    var s := Execute(INIT, moves);
    assert ResultOk(s, r);
    if r in s.slots { assert SlotOk(s, r, s.slots[r]); }
    if Lists(s, r) { assert Listed(s, s.requests[r].trace); }
    if ResultAt(s, r).Some? { ResultCaused(INIT, moves, r); }
  }

  /* ---- what a request gets ---- */

  lemma AdmissionExact(pending: map<string, nat>, online: bool)
    ensures Admission(pending, online) == if !online then Finished(AgentOffline)
                                          else if |pending| < 16 then Registered
                                          else Finished(Busy)
  {
  }

  lemma BegunWith(s: State, r: nat, trace: string, online: bool, p: Phase)
    requires r !in s.requests && p == Admission(s.pending, online)
    ensures var next := Begun(s, r, trace, online);
            && next.requests == s.requests[r := Request(trace, p)]
            && (if p.Registered? then next.pending == s.pending[trace := r] && next.slots == s.slots[r := []]
                else next.pending == s.pending && next.slots == s.slots)
  {
  }

  /** A new request is refused without an Agent, refused at 16 pending entries, and registered otherwise, with
      an entry and an empty slot of its own. */
  lemma BeginExact(s: State, r: nat, trace: string, online: bool)
    requires r !in s.requests
    ensures var next := Step(s, Begin(r, trace, online));
            var p := if !online then Finished(AgentOffline)
                     else if |s.pending| < 16 then Registered
                     else Finished(Busy);
            && next.requests == s.requests[r := Request(trace, p)]
            && (if p.Registered? then next.pending == s.pending[trace := r] && next.slots == s.slots[r := []]
                else next.pending == s.pending && next.slots == s.slots)
  {
    AdmissionExact(s.pending, online);
    BegunWith(s, r, trace, online, Admission(s.pending, online));
  }

  /** The request waits, under its trace, and nothing has been delivered to it. */
  ghost predicate Idle(s: State, r: nat) {
    && PhaseOf(s, r) == Some(Waiting) && r in s.slots && s.slots[r] == []
    && s.requests[r].trace in s.pending && s.pending[s.requests[r].trace] == r
  }

  /** A reply under the trace of a request that waits is what the request gets, and its entry is freed. */
  lemma ReplyArrives(s: State, r: nat, h: nat, body: string)
    requires Idle(s, r) && h !in s.replies
    ensures var t := s.requests[r].trace;
            var got := Step(Step(Step(s, Lookup(h, t, body)), Deliver(h)), Take(r));
            var end := Step(got, Release(r));
            && r in end.requests && end.requests[r].phase == Finished(Got(FromReply(h, t, body)))
            && end.pending == s.pending - {t}
            && forall q :: q in s.requests && q != r ==> q in end.requests && end.requests[q] == s.requests[q]
  {
    var t := s.requests[r].trace;
    var s1 := Step(s, Lookup(h, t, body));
    assert s1.handlers[h] == Handler(t, body, Some(r)) && s1.slots == s.slots && s1.requests == s.requests;
    var s2 := Step(s1, Deliver(h));
    assert s.slots[r] + [FromReply(h, t, body)] == [FromReply(h, t, body)];
    assert s2.slots == s.slots[r := [FromReply(h, t, body)]] && s2.requests == s.requests && s2.pending == s.pending;
    TakenThenReleased(s2, r, FromReply(h, t, body));
  }

  lemma TakenThenReleased(s: State, r: nat, d: Delivery)
    requires PhaseOf(s, r) == Some(Waiting) && r in s.slots && s.slots[r] == [d]
    ensures var end := Step(Step(s, Take(r)), Release(r));
            && r in end.requests && end.requests[r].phase == Finished(Got(d))
            && end.pending == s.pending - {s.requests[r].trace}
            && forall q :: q in s.requests && q != r ==> q in end.requests && end.requests[q] == s.requests[q]
  {
    var got := Step(s, Take(r));
    assert got.requests == s.requests[r := s.requests[r].(phase := Returning(Got(d)))] && got.pending == s.pending;
  }

  /** A FailPending call reaches every request that waits: each gets its error. */
  lemma FailureArrives(s: State, r: nat, f: nat, error: string)
    requires Idle(s, r) && f !in s.failures
    ensures var got := Step(Step(Step(s, Collect(f, error)), FailOne(f, r)), Take(r));
            var end := Step(got, Release(r));
            && r in end.requests && end.requests[r].phase == Finished(Got(FromFailure(f, error)))
            && end.pending == s.pending - {s.requests[r].trace}
            && forall q :: q in s.requests && q != r ==> q in end.requests && end.requests[q] == s.requests[q]
  {
    var s1 := Step(s, Collect(f, error));
    assert r in s.pending.Values;
    assert s1.failers[f] == Failer(error, s.pending.Values) && s1.slots == s.slots && s1.requests == s.requests;
    var s2 := Step(s1, FailOne(f, r));
    assert s.slots[r] + [FromFailure(f, error)] == [FromFailure(f, error)];
    assert s2.slots == s.slots[r := [FromFailure(f, error)]] && s2.requests == s.requests && s2.pending == s.pending;
    TakenThenReleased(s2, r, FromFailure(f, error));
  }

  /** A send that fails, or a wait that is given up, ends the request with that and frees its entry. */
  lemma GivenUp(s: State, r: nat, reason: string)
    requires r in s.requests
    ensures s.requests[r].phase == Registered ==>
              var end := Step(Step(s, Send(r, false)), Release(r));
              && r in end.requests && end.requests[r].phase == Finished(SendFailed)
              && end.pending == s.pending - {s.requests[r].trace}
    ensures s.requests[r].phase == Registered ==>
              var sent := Step(s, Send(r, true));
              r in sent.requests && sent.requests[r].phase == Waiting && sent.pending == s.pending
    ensures s.requests[r].phase == Waiting ==>
              var end := Step(Step(s, Cancel(r, reason)), Release(r));
              && r in end.requests && end.requests[r].phase == Finished(Cancelled(reason))
              && end.pending == s.pending - {s.requests[r].trace}
  {
  }

  /** The view one request has of the gateway. */
  ghost predicate SameFor(s: State, next: State, q: nat) {
    && (q in s.requests <==> q in next.requests) && (q in s.requests ==> next.requests[q] == s.requests[q])
    && (q in s.slots <==> q in next.slots) && (q in s.slots ==> next.slots[q] == s.slots[q])
  }

  /** A reply, however late, touches no request but the one whose trace it names, and that one only
      through its slot: an abandoned request stays as it is. */
  lemma ReplyTouchesOnlyItsTrace(s: State, m: Move, q: nat)
    requires Inv(s) && (m.Lookup? || m.Deliver?) && q in s.requests
    requires m.Lookup? || (m.h in s.handlers ==> s.handlers[m.h].trace != s.requests[q].trace)
    ensures SameFor(s, Step(s, m), q)
  {
    if m.Deliver? && m.h in s.handlers { assert HandlerOk(s, m.h, s.handlers[m.h]); }
  }

  /* ---- a reply that comes too late ---- */

  /** No request waits for the reply any more: none is registered under the trace, or its result is settled. */
  predicate Abandoned(s: State, trace: string) { trace in s.pending ==> ResultAt(s, s.pending[trace]).Some? }

  ghost predicate AgreeBut<V>(a: map<nat, V>, b: map<nat, V>, h: nat) {
    h !in b && forall x :: x != h ==> (x in a <==> x in b) && (x in a ==> a[x] == b[x])
  }

  /** Slots differ only where a result is settled, so that nobody will read them. */
  ghost predicate SlotsAgree(s: State, slots: map<nat, seq<Delivery>>) {
    && s.slots.Keys == slots.Keys
    && forall r :: r in s.slots && s.slots[r] != slots[r] ==> ResultAt(s, r).Some?
  }

  /** `t` is `s` without reply `h`, which comes too late. */
  ghost predicate SameBut(s: State, t: State, h: nat) {
    && s.requests == t.requests && s.pending == t.pending && s.failers == t.failers && s.failures == t.failures
    && AgreeBut(s.handlers, t.handlers, h) && AgreeBut(s.replies, t.replies, h) && h in s.replies
    && SlotsAgree(s, t.slots)
    && (h in s.handlers && s.handlers[h].waiter.Some? ==> ResultAt(s, s.handlers[h].waiter.value).Some?)
  }

  predicate About(m: Move, h: nat) { (m.Lookup? || m.Deliver?) && m.h == h }

  function Without(moves: seq<Move>, h: nat): seq<Move> {
    if moves == [] then []
    else if About(moves[0], h) then Without(moves[1..], h)
    else [moves[0]] + Without(moves[1..], h)
  }

  /** Every result settled in `s` is settled in `next`. */
  ghost predicate Settles(s: State, next: State) { forall r :: ResultAt(s, r).Some? ==> ResultAt(next, r).Some? }

  lemma SettledStays(s: State, m: Move)
    ensures Settles(s, Step(s, m))
  {
    forall r | ResultAt(s, r).Some? ensures ResultAt(Step(s, m), r).Some? { OneResult(s, m, r); }
  }

  lemma LateMove(s: State, t: State, m: Move, h: nat)
    requires SameBut(s, t, h) && About(m, h)
    ensures SameBut(Step(s, m), t, h)
  {
  }

  /** A move of a request: both states take it alike, and it touches no handler. */
  lemma RequestMove(s: State, t: State, m: Move, h: nat)
    requires SameBut(s, t, h) && OfRequest(m)
    ensures SameBut(Step(s, m), Step(t, m), h)
  {
    SettledStays(s, m);
    RequestMoveAlike(s, t, m);
  }

  lemma SlotsAgreeLater(s: State, next: State, slots: map<nat, seq<Delivery>>)
    requires SlotsAgree(s, slots) && next.slots == s.slots && Settles(s, next)
    ensures SlotsAgree(next, slots)
  {
  }

  lemma SlotsAgreePut(s: State, next: State, slots: map<nat, seq<Delivery>>, r: nat, x: seq<Delivery>)
    requires SlotsAgree(s, slots) && next.slots == s.slots[r := x] && Settles(s, next)
    ensures SlotsAgree(next, slots[r := x])
  {
  }

  /** `s1` and `t1` come from `s` and `t` by a move of a request that both take alike. */
  ghost predicate Alike(s: State, t: State, s1: State, t1: State) {
    && s1.requests == t1.requests && s1.pending == t1.pending
    && SlotsAgree(s1, t1.slots)
    && s1 == s.(requests := s1.requests, pending := s1.pending, slots := s1.slots)
    && t1 == t.(requests := t1.requests, pending := t1.pending, slots := t1.slots)
  }

  lemma BeginAlike(s: State, t: State, r: nat, trace: string, online: bool)
    requires s.requests == t.requests && s.pending == t.pending && SlotsAgree(s, t.slots)
    requires Settles(s, Begun(s, r, trace, online))
    ensures Alike(s, t, Begun(s, r, trace, online), Begun(t, r, trace, online))
  {
    var s1 := Begun(s, r, trace, online);
    if r !in s.requests && Admission(s.pending, online).Registered? { SlotsAgreePut(s, s1, t.slots, r, []); }
    else { SlotsAgreeLater(s, s1, t.slots); }
  }

  lemma TakeAlike(s: State, t: State, r: nat)
    requires s.requests == t.requests && s.pending == t.pending && SlotsAgree(s, t.slots)
    requires Settles(s, Taken(s, r))
    ensures Alike(s, t, Taken(s, r), Taken(t, r))
  {
    if PhaseOf(s, r) == Some(Waiting) && r in s.slots {
      assert ResultAt(s, r).None? && s.slots[r] == t.slots[r];
      if s.slots[r] != [] { SlotsAgreePut(s, Taken(s, r), t.slots, r, s.slots[r][1..]); }
    }
  }

  /** A move that touches no slot. */
  ghost predicate SameRows(s: State, t: State, s1: State, t1: State) {
    && s1.requests == t1.requests && s1.pending == t1.pending
    && s1 == s.(requests := s1.requests, pending := s1.pending)
    && t1 == t.(requests := t1.requests, pending := t1.pending)
  }

  lemma SameRowsAlike(s: State, t: State, s1: State, t1: State)
    requires SlotsAgree(s, t.slots) && Settles(s, s1) && SameRows(s, t, s1, t1)
    ensures Alike(s, t, s1, t1)
  {
    SlotsAgreeLater(s, s1, t1.slots);
  }

  lemma ToSame(s: State, t: State, r: nat, p: Phase)
    requires s.requests == t.requests && s.pending == t.pending && r in s.requests
    ensures SameRows(s, t, To(s, r, p), To(t, r, p))
  {
  }

  lemma SendSame(s: State, t: State, r: nat, ok: bool)
    requires s.requests == t.requests && s.pending == t.pending
    ensures SameRows(s, t, Sent(s, r, ok), Sent(t, r, ok))
  {
    if r in s.requests { ToSame(s, t, r, if ok then Waiting else Returning(SendFailed)); }
  }

  lemma CancelSame(s: State, t: State, r: nat, reason: string)
    requires s.requests == t.requests && s.pending == t.pending
    ensures SameRows(s, t, CancelledAs(s, r, reason), CancelledAs(t, r, reason))
  {
    if r in s.requests { ToSame(s, t, r, Returning(Cancelled(reason))); }
  }

  lemma ReleaseSame(s: State, t: State, r: nat)
    requires s.requests == t.requests && s.pending == t.pending
    ensures SameRows(s, t, Released(s, r), Released(t, r))
  {
    if r in s.requests && s.requests[r].phase.Returning? {
      ToSame(s, t, r, Finished(s.requests[r].phase.result));
    }
  }

  predicate OfRequest(m: Move) { m.Begin? || m.Send? || m.Take? || m.Cancel? || m.Release? }

  lemma RequestMoveAlike(s: State, t: State, m: Move)
    requires s.requests == t.requests && s.pending == t.pending && SlotsAgree(s, t.slots) && OfRequest(m)
    ensures Alike(s, t, Step(s, m), Step(t, m))
  {
    SettledStays(s, m);
    match m
    case Begin(r, trace, online) => BeginAlike(s, t, r, trace, online);
    case Send(r, ok) =>
      SendSame(s, t, r, ok);
      SameRowsAlike(s, t, Sent(s, r, ok), Sent(t, r, ok));
    case Take(r) => TakeAlike(s, t, r);
    case Cancel(r, reason) =>
      CancelSame(s, t, r, reason);
      SameRowsAlike(s, t, CancelledAs(s, r, reason), CancelledAs(t, r, reason));
    case Release(r) =>
      ReleaseSame(s, t, r);
      SameRowsAlike(s, t, Released(s, r), Released(t, r));
  }

  lemma OfferAgrees(s: State, slots: map<nat, seq<Delivery>>, w: nat, d: Delivery)
    requires SlotsAgree(s, slots)
    ensures SlotsAgree(s.(slots := Offer(s.slots, w, d)), Offer(slots, w, d))
  {
  }

  lemma AgreeButPut<V>(a: map<nat, V>, b: map<nat, V>, h: nat, x: nat, v: V)
    requires AgreeBut(a, b, h) && x != h
    ensures AgreeBut(a[x := v], b[x := v], h) && AgreeBut(a - {x}, b - {x}, h)
  {
  }

  /** Nothing changed but handlers, failers and the record, in both states alike. */
  lemma RecordAlike(s: State, t: State, s1: State, t1: State, h: nat)
    requires SameBut(s, t, h) && s1.failers == t1.failers && s1.failures == t1.failures
    requires s1 == s.(handlers := s1.handlers, replies := s1.replies, failers := s1.failers, failures := s1.failures)
    requires t1 == t.(handlers := t1.handlers, replies := t1.replies, failers := t1.failers, failures := t1.failures)
    requires AgreeBut(s1.handlers, t1.handlers, h) && AgreeBut(s1.replies, t1.replies, h) && h in s1.replies
    requires h in s1.handlers ==> h in s.handlers && s1.handlers[h] == s.handlers[h]
    ensures SameBut(s1, t1, h)
  {
    assert forall r :: ResultAt(s1, r) == ResultAt(s, r);
    SlotsAgreeLater(s, s1, t1.slots);
  }

  lemma LookedUpAlike(s: State, t: State, k: nat, x: Handler, reply: (string, string), h: nat)
    requires SameBut(s, t, h) && k != h
    ensures SameBut(s.(handlers := s.handlers[k := x], replies := s.replies[k := reply]),
                    t.(handlers := t.handlers[k := x], replies := t.replies[k := reply]), h)
  {
    AgreeButPut(s.handlers, t.handlers, h, k, x);
    AgreeButPut(s.replies, t.replies, h, k, reply);
    var s1 := s.(handlers := s.handlers[k := x], replies := s.replies[k := reply]);
    var t1 := t.(handlers := t.handlers[k := x], replies := t.replies[k := reply]);
    RecordAlike(s, t, s1, t1, h);
  }

  lemma LookupAlike(s: State, t: State, k: nat, trace: string, body: string, h: nat)
    requires SameBut(s, t, h) && k != h && k !in s.replies
    ensures SameBut(LookedUp(s, k, trace, body), LookedUp(t, k, trace, body), h)
  {
    var x := Handler(trace, body, if trace in s.pending then Some(s.pending[trace]) else None);
    LookedUpAlike(s, t, k, x, (trace, body), h);
  }

  lemma CollectAlike(s: State, t: State, m: Move, h: nat)
    requires SameBut(s, t, h) && m.Collect? && m.f !in s.failures
    ensures SameBut(Step(s, m), Step(t, m), h)
  {
    var x := Failer(m.error, s.pending.Values);
    var s1 := s.(failures := s.failures[m.f := m.error], failers := s.failers[m.f := x]);
    var t1 := t.(failures := t.failures[m.f := m.error], failers := t.failers[m.f := x]);
    RecordAlike(s, t, s1, t1, h);
    assert Step(s, m) == s1 && Step(t, m) == t1;
  }

  lemma LookupMove(s: State, t: State, m: Move, h: nat)
    requires SameBut(s, t, h) && (m.Lookup? || m.Collect?) && !About(m, h)
    ensures SameBut(Step(s, m), Step(t, m), h)
  {
    if m.Lookup? && m.h !in s.replies { LookupAlike(s, t, m.h, m.trace, m.body, h); }
    else if m.Collect? && m.f !in s.failures { CollectAlike(s, t, m, h); }
  }

  lemma DeliverMove(s: State, t: State, m: Move, h: nat)
    requires SameBut(s, t, h) && m.Deliver? && !About(m, h)
    ensures SameBut(Step(s, m), Step(t, m), h)
  {
    if m.h in s.handlers {
      var x := s.handlers[m.h];
      assert m.h in t.handlers && t.handlers[m.h] == x;
      AgreeButPut(s.handlers, t.handlers, h, m.h, x);
      var s1, t1 := s.(handlers := s.handlers - {m.h}), t.(handlers := t.handlers - {m.h});
      RecordAlike(s, t, s1, t1, h);
      if x.waiter.Some? { OfferedAlike(s1, t1, h, x.waiter.value, FromReply(m.h, x.trace, x.body)); }
    }
  }

  lemma OfferedAlike(s: State, t: State, h: nat, w: nat, d: Delivery)
    requires SameBut(s, t, h)
    ensures SameBut(s.(slots := Offer(s.slots, w, d)), t.(slots := Offer(t.slots, w, d)), h)
  {
    OfferAgrees(s, t.slots, w, d);
    assert forall r :: ResultAt(s.(slots := Offer(s.slots, w, d)), r) == ResultAt(s, r);
  }

  lemma FailMove(s: State, t: State, m: Move, h: nat)
    requires SameBut(s, t, h) && m.FailOne?
    ensures SameBut(Step(s, m), Step(t, m), h)
  {
    if m.f in s.failers { OfferAgrees(s, t.slots, m.w, FromFailure(m.f, s.failers[m.f].error)); }
  }

  lemma {:induction false} LateInvisible(s: State, t: State, moves: seq<Move>, h: nat)
    requires SameBut(s, t, h)
    ensures SameBut(Execute(s, moves), Execute(t, Without(moves, h)), h)
    decreases |moves|
  {
    if moves != [] {
      var m, rest := moves[0], Without(moves[1..], h);
      if About(m, h) {
        LateMove(s, t, m, h);
        LateInvisible(Step(s, m), t, moves[1..], h);
      } else {
        match m {
          case Lookup(_, _, _) => LookupMove(s, t, m, h);
          case Collect(_, _) => LookupMove(s, t, m, h);
          case Deliver(_) => DeliverMove(s, t, m, h);
          case FailOne(_, _) => FailMove(s, t, m, h);
          case _ => RequestMove(s, t, m, h);
        }
        LateInvisible(Step(s, m), Step(t, m), moves[1..], h);
        assert ([m] + rest)[1..] == rest;
      }
    }
  }

  /** A late reply affects nothing: if nobody waits for it when it comes, then whatever follows, every
      request, with its phase and its result, and the pending map are as if it had never come. */
  lemma LateReplyInvisible(s: State, h: nat, trace: string, body: string, moves: seq<Move>)
    requires HandlersOk(s) && h !in s.replies && Abandoned(s, trace)
    ensures var with := Execute(Step(s, Lookup(h, trace, body)), moves);
            var without := Execute(s, Without(moves, h));
            with.requests == without.requests && with.pending == without.pending && with.failures == without.failures
  {
    var next := Step(s, Lookup(h, trace, body));
    assert forall x :: x in s.handlers ==> HandlerOk(s, x, s.handlers[x]);
    LateInvisible(next, s, moves, h);
  }

  /* ---- which messages a gateway takes ---- */

  datatype Kind = SourceReads | ExecutionProfiles

  /** The source gateway takes every reply of its types; the profile gateway leaves a reply that no
      request waits for to the router. */
  predicate Consumes(kind: Kind, s: State, trace: string) { kind == SourceReads || trace in s.pending }

  function HandleReply(kind: Kind, s: State, h: nat, trace: string, body: string): State {
    if Consumes(kind, s, trace) then Step(Step(s, Lookup(h, trace, body)), Deliver(h)) else s
  }

  /** A profile reply is taken if and only if an unfinished request waits under its trace; then that
      request's slot is filled, unless it already was. */
  lemma ProfileRepliesMatched(s: State, h: nat, trace: string, body: string)
    requires Inv(s) && h !in s.replies
    ensures Consumes(ExecutionProfiles, s, trace) <==> exists r :: Unfinished(s, r) && s.requests[r].trace == trace
    ensures Consumes(ExecutionProfiles, s, trace) ==>
              var w := s.pending[trace];
              var next := HandleReply(ExecutionProfiles, s, h, trace, body);
              w in s.slots && w in next.slots
              && next.slots[w] == if s.slots[w] == [] then [FromReply(h, trace, body)] else s.slots[w]
    ensures !Consumes(ExecutionProfiles, s, trace) ==> HandleReply(ExecutionProfiles, s, h, trace, body) == s
  {
    if trace in s.pending { assert Listed(s, trace) && SlotOk(s, s.pending[trace], s.slots[s.pending[trace]]); }
    if r :| Unfinished(s, r) && s.requests[r].trace == trace { assert Lists(s, r); }
  }
}
