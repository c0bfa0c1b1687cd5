/** The connection registry: one slot per role, the latest connection wins, and the Agent's last notes are
    replayed to an App that connects. */
module Registry {
  import opened RuntimeTypes

  datatype Role = App | Agent | Other

  datatype Peer = Peer(id: nat, role: Role)

  datatype NoteKind = Hello | Status | Capabilities | Unremembered

  datatype Note = Note(kind: NoteKind, body: string)

  datatype Slots = Slots(
    app: Option<Peer>,
    agent: Option<Peer>,
    hello: Option<Note>,
    status: Option<Note>,
    capabilities: Option<Note>)

  const EMPTY := Slots(None, None, None, None, None)

  datatype Change = Connects(peer: Peer) | Disconnects(peer: Peer) | Remembers(note: Note)

  function SlotOf(s: Slots, role: Role): Option<Peer> {
    match role
    case App => s.app
    case Agent => s.agent
    case Other => None
  }

  function NoteOf(s: Slots, kind: NoteKind): Option<Note> {
    match kind
    case Hello => s.hello
    case Status => s.status
    case Capabilities => s.capabilities
    case Unremembered => None
  }

  /** A change of the Agent slot forgets the notes. */
  function Put(s: Slots, role: Role, p: Option<Peer>): Slots {
    match role
    case App => s.(app := p)
    case Agent => Slots(s.app, p, None, None, None)
    case Other => s
  }

  function Holds(s: Slots, p: Peer): bool { SlotOf(s, p.role).Some? && SlotOf(s, p.role).value.id == p.id }

  function Apply(s: Slots, c: Change): Slots {
    match c
    case Connects(p) => Put(s, p.role, Some(p))
    case Disconnects(p) => if Holds(s, p) then Put(s, p.role, None) else s
    case Remembers(n) =>
      match n.kind
      case Hello => s.(hello := Some(n))
      case Status => s.(status := Some(n))
      case Capabilities => s.(capabilities := Some(n))
      case Unremembered => s
  }

  function ApplyAll(changes: seq<Change>): Slots
    decreases |changes|
  {
    if changes == [] then EMPTY else Apply(ApplyAll(changes[..|changes| - 1]), changes[|changes| - 1])
  }

  /** `p` connected as change `i`, nobody of its role connected after that, and it has not left since. */
  ghost predicate Current(changes: seq<Change>, p: Peer, i: int) {
    && 0 <= i < |changes| && changes[i] == Connects(p)
    && forall j :: i < j < |changes| ==>
         (changes[j].Connects? ==> changes[j].peer.role != p.role)
         && (changes[j].Disconnects? ==> changes[j].peer.role != p.role || changes[j].peer.id != p.id)
  }

  /** For every history, a role's peer is exactly its latest one that has not left; in particular the
      disconnect of a replaced connection never evicts its successor. */
  lemma {:induction false} LatestWins(changes: seq<Change>, p: Peer)
    requires p.role != Other
    ensures SlotOf(ApplyAll(changes), p.role) == Some(p) <==> exists i :: Current(changes, p, i)
    decreases |changes|
  {
    if changes != [] {
      var n := |changes| - 1;
      var before, last := changes[..n], changes[n];
      LatestWins(before, p);
      if i :| Current(changes, p, i) {
        if i < n { assert Current(before, p, i); }
      }
      if SlotOf(ApplyAll(changes), p.role) == Some(p) {
        if last == Connects(p) {
          assert Current(changes, p, n);
        } else {
          var i :| Current(before, p, i);
          assert Current(changes, p, i);
        }
      }
    }
  }

  /* ---- the Agent's notes ---- */

  /** Change `j` of the history put another peer, or none, into the Agent slot. */
  ghost predicate TurnsOver(changes: seq<Change>, j: int) {
    && 0 <= j < |changes|
    && match changes[j]
       case Connects(p) => p.role == Agent
       case Disconnects(p) => p.role == Agent && exists i :: Current(changes[..j], p, i)
       case Remembers(_) => false
  }

  /** Note `n` came as change `i`, none of its kind came after it, and the Agent slot has not changed since. */
  ghost predicate LatestNote(changes: seq<Change>, n: Note, i: int) {
    && 0 <= i < |changes| && changes[i] == Remembers(n)
    && forall j :: i < j < |changes|
         ==> !TurnsOver(changes, j) && !(changes[j].Remembers? && changes[j].note.kind == n.kind)
  }

  lemma TurnsOverPrefix(changes: seq<Change>, n: int, j: int)
    requires 0 <= j < n <= |changes|
    ensures TurnsOver(changes[..n], j) <==> TurnsOver(changes, j)
  {
    assert changes[..n][..j] == changes[..j] && changes[..n][j] == changes[j];
  }

  /** The slot is emptied exactly by the peer that holds it. */
  lemma TurnsOverExact(changes: seq<Change>)
    requires changes != [] && changes[|changes| - 1].Disconnects?
    ensures var n, p := |changes| - 1, changes[|changes| - 1].peer;
            TurnsOver(changes, n) <==> p.role == Agent && Holds(ApplyAll(changes[..n]), p)
  {
    var n, p := |changes| - 1, changes[|changes| - 1].peer;
    AgentRole(changes[..n]);
    if p.role == Agent { LatestWins(changes[..n], p); }
  }

  lemma {:induction false} AgentRole(changes: seq<Change>)
    ensures ApplyAll(changes).agent.Some? ==> ApplyAll(changes).agent.value.role == Agent
    decreases |changes|
  {
    if changes != [] { AgentRole(changes[..|changes| - 1]); }
  }

  lemma LastTurnsOver(changes: seq<Change>)
    requires changes != []
    ensures var n := |changes| - 1;
            var s := ApplyAll(changes[..n]);
            TurnsOver(changes, n) <==>
              match changes[n]
              case Connects(p) => p.role == Agent
              case Disconnects(p) => p.role == Agent && Holds(s, p)
              case Remembers(_) => false
  {
    if changes[|changes| - 1].Disconnects? { TurnsOverExact(changes); }
  }

  lemma LatestNoteSplit(changes: seq<Change>, n: Note, i: int)
    requires changes != []
    ensures var k := |changes| - 1;
            LatestNote(changes, n, i) <==>
              || (i == k && changes[k] == Remembers(n))
              || (i < k && LatestNote(changes[..k], n, i) && !TurnsOver(changes, k)
                  && !(changes[k].Remembers? && changes[k].note.kind == n.kind))
  {
    var k := |changes| - 1;
    forall j | 0 <= j < k ensures TurnsOver(changes[..k], j) <==> TurnsOver(changes, j) {
      TurnsOverPrefix(changes, k, j);
    }
  }

  /** For every history, the note remembered of a kind is exactly the latest one of that kind since the
      Agent slot last changed. */
  lemma {:induction false} NotesExact(changes: seq<Change>, n: Note)
    requires n.kind != Unremembered
    ensures NoteOf(ApplyAll(changes), n.kind) == Some(n) <==> exists i :: LatestNote(changes, n, i)
    decreases |changes|
  {
    if changes != [] {
      var k := |changes| - 1;
      NotesExact(changes[..k], n);
      LastTurnsOver(changes);
      if i :| LatestNote(changes, n, i) { LatestNoteSplit(changes, n, i); }
      if NoteOf(ApplyAll(changes), n.kind) == Some(n) {
        if changes[k] == Remembers(n) {
          LatestNoteSplit(changes, n, k);
        } else {
          var i :| LatestNote(changes[..k], n, i);
          LatestNoteSplit(changes, n, i);
        }
      }
    }
  }

  /** Position of a kind in the replay. */
  function Rank(kind: NoteKind): nat {
    match kind
    case Hello => 0
    case Status => 1
    case Capabilities => 2
    case Unremembered => 3
  }

  ghost predicate ReplayOf(s: Slots, notes: seq<Note>) {
    && (forall n :: n in notes <==> n.kind != Unremembered && NoteOf(s, n.kind) == Some(n))
    && (forall i, j :: 0 <= i < j < |notes| ==> Rank(notes[i].kind) < Rank(notes[j].kind))
  }

  ghost predicate Sorted(s: Slots) {
    && (s.hello.Some? ==> s.hello.value.kind == Hello) && (s.status.Some? ==> s.status.value.kind == Status)
    && (s.capabilities.Some? ==> s.capabilities.value.kind == Capabilities)
  }

  /** The registry. */
  class Store {
    var app: Option<Peer>
    var agent: Option<Peer>
    var hello: Option<Note>
    var status: Option<Note>
    var capabilities: Option<Note>

    ghost function Contents(): Slots
      reads this
    {
      Slots(app, agent, hello, status, capabilities)
    }

    ghost predicate Valid()
      reads this
    {
      Sorted(Contents())
    }

    constructor ()
      ensures Valid() && Contents() == ApplyAll([])
    {
      app, agent, hello, status, capabilities := None, None, None, None, None;
    }

    method Replace(peer: Peer) returns (replaced: Option<Peer>)
      requires Valid()
      modifies this
      ensures Valid() && Contents() == Apply(old(Contents()), Connects(peer))
      ensures replaced == SlotOf(old(Contents()), peer.role)
    {
      match peer.role {
        case App => replaced := app; app := Some(peer);
        case Agent =>
          replaced := agent;
          agent, hello, status, capabilities := Some(peer), None, None, None;
        case Other => replaced := None;
      }
    }

    method Remove(peer: Peer) returns (removed: bool)
      requires Valid()
      modifies this
      ensures Valid() && Contents() == Apply(old(Contents()), Disconnects(peer))
      ensures removed <==> Holds(old(Contents()), peer)
    {
      match peer.role {
        case App =>
          if app.None? || app.value.id != peer.id { return false; }
          app := None;
          return true;
        case Agent =>
          if agent.None? || agent.value.id != peer.id { return false; }
          agent, hello, status, capabilities := None, None, None, None;
          return true;
        case Other => return false;
      }
    }

    /** The note is kept under its kind, whichever connection it came from. */
    method RememberAgentState(note: Note)
      requires Valid()
      modifies this`hello, this`status, this`capabilities
      ensures Valid() && Contents() == Apply(old(Contents()), Remembers(note))
    {
      match note.kind {
        case Hello => hello := Some(note);
        case Status => status := Some(note);
        case Capabilities => capabilities := Some(note);
        case Unremembered =>
      }
    }

    /** Exactly the remembered notes, each once, hello before status before capabilities. */
    method AgentState() returns (notes: seq<Note>)
      requires Valid()
      ensures ReplayOf(Contents(), notes)
    {
      notes := [];
      if hello.Some? { notes := notes + [hello.value]; }
      if status.Some? { notes := notes + [status.value]; }
      if capabilities.Some? { notes := notes + [capabilities.value]; }
    }
  }

  /** What an App is sent when it connects: after any history, exactly the latest note of each kind since the
      Agent slot last changed. */
  lemma ReplayExact(changes: seq<Change>, notes: seq<Note>, n: Note)
    requires ReplayOf(ApplyAll(changes), notes)
    ensures n in notes <==> n.kind != Unremembered && exists i :: LatestNote(changes, n, i)
  {
    if n.kind != Unremembered { NotesExact(changes, n); }
  }
}
