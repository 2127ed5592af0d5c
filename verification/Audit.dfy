/** The in-memory audit store. */
module Audit {

  datatype Event = Event(at: int, actor: string, clientId: string, tool: string, resourceKind: string,
                         resourceId: string, result: string, traceId: string, message: string)

  class MemoryStore {
    var events: seq<Event>

    constructor ()
      ensures events == []
    {
      events := [];
    }

    method Append(event: Event)
      modifies this
      ensures events == old(events) + [event]
    {
      events := events + [event];
    }

    /** The most recent events, oldest first; a limit that is not positive or exceeds the log means all of it. */
    method List(limit: int) returns (out: seq<Event>)
      ensures |out| == if 0 < limit <= |events| then limit else |events|
      ensures out == events[|events| - |out|..]
    {
      var n := limit;
      if n <= 0 || n > |events| {
        n := |events|;
      }
      var start := |events| - n;
      if start < 0 {
        start := 0;
      }
      out := events[start..];
    }
  }
}
