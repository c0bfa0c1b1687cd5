/** The Redis side of the event path: one stream per run, appended under explicit identifiers. */
module RedisBroker {
  import opened RuntimeTypes
  import opened RelaySystem
  import opened SystemInvariant

  class Broker {
    var streams: map<string, seq<Entry>>

    ghost predicate Valid()
      reads this
    {
      forall r :: r in streams ==> StreamAscending(streams[r])
    }

    function Stream(run: string): seq<Entry>
      reads this
    {
      if run in streams then streams[run] else []
    }

    constructor ()
      ensures Valid() && streams == map[]
    {
      streams := map[];
    }

    /** XADD; on "equal or smaller", the existing entry must be the same event. */
    method AppendRunEvent(run: string, sequence: int, event: RunEvent) returns (out: Result<()>)
      requires Valid()
      modifies this
      ensures Valid()
      ensures match AppendEntry(old(Stream(run)), sequence, event)
              case Err(e) => out == Err(e) && streams == old(streams)
              case Ok(stream) => out == Ok(()) && streams == old(streams)[run := stream]
    {
      var stream := Stream(run);
      if |stream| == 0 || stream[|stream| - 1].sequence < sequence {
        streams := streams[run := stream + [Entry(sequence, event)]];
        return Ok(());
      }
      var existing := Range(stream, sequence);
      if existing.None? || existing.value != event { return Err(StreamConflict); }
      return Ok(());
    }

    /** XRANGE id id COUNT 1. */
    method Range(stream: seq<Entry>, sequence: int) returns (found: Option<RunEvent>)
      requires StreamAscending(stream)
      ensures found.None? <==> forall i :: 0 <= i < |stream| ==> stream[i].sequence != sequence
      ensures forall e :: Entry(sequence, e) in stream <==> found == Some(e)
    {
      var i := 0;
      while i < |stream|
        invariant 0 <= i <= |stream|
        invariant forall j :: 0 <= j < i ==> stream[j].sequence != sequence
      {
        if stream[i].sequence == sequence {
          assert stream[i] in stream;
          return Some(stream[i].event);
        }
        i := i + 1;
      }
      return None;
    }
  }
}
