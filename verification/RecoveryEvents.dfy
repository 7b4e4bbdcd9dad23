/** The recovery timeline: what is recorded, and what a listing returns (backend/backup/recovery_events.go). */
module RecoveryEvents {
  import opened Common
  import opened Text

  datatype Event = Event(recoveryId: string, eventType: string, status: string, component: string)

  /** The event recordRecoveryEvent stores: fields without surrounding white space, None if one is then missing. */
  function Recorded(id: string, eventType: string, status: string, component: string): Option<Event> {
    var e := Event(TrimSpace(id), TrimSpace(eventType), TrimSpace(status), TrimSpace(component));
    if e.recoveryId == "" || e.eventType == "" || e.status == "" || e.component == "" then None else Some(e)
  }

  lemma RecordedPlain(id: string, eventType: string, status: string, component: string)
    requires !Blank(id) && Solid(eventType) && Solid(status) && Solid(component)
    ensures Recorded(id, eventType, status, component) == Some(Event(TrimSpace(id), eventType, status, component))
  {
    TrimSolid(eventType);
    TrimSolid(status);
    TrimSolid(component);
  }

  /** The timeline.  While `up`, every complete event is stored; otherwise a write can be lost. */
  class Timeline {
    var events: seq<Event>
    var up: bool

    constructor ()
      ensures events == [] && up
    {
      events, up := [], true;
    }

    method Record(id: string, eventType: string, status: string, component: string)
      modifies this`events
      ensures var e := Recorded(id, eventType, status, component);
              && (e.None? ==> events == old(events))
              && (e.Some? ==> events == old(events) + [e.value] || (!up && events == old(events)))
      ensures Blank(id) || Blank(eventType) || Blank(status) || Blank(component) ==> events == old(events)
      ensures !Blank(id) && !Blank(eventType) && !Blank(status) && !Blank(component) && up ==>
                events == old(events)
                          + [Event(TrimSpace(id), TrimSpace(eventType), TrimSpace(status), TrimSpace(component))]
    {
      var e := Recorded(id, eventType, status, component);
      if e.None? {
        return;
      }
      var lost: bool := *;
      if up || !lost {
        events := events + [e.value];
      }
    }

    /** ListRecoveryEvents on the in-memory store: newest first, cut to the limit. */
    method List(limit: int) returns (listed: seq<Event>)
      ensures listed == Newest(events, Limit(limit))
    {
      var n := Limit(limit);
      listed := Reverse(events);
      if |listed| > n {
        listed := listed[..n];
      }
    }
  }

  /** The copy and its reversal in place. */
  method Reverse(stored: seq<Event>) returns (reversed: seq<Event>)
    ensures |reversed| == |stored| && forall k :: 0 <= k < |stored| ==> reversed[k] == stored[|stored| - 1 - k]
  {
    var copied := new Event[|stored|](i requires 0 <= i < |stored| => stored[i]);
    var i, j := 0, copied.Length - 1;
    while i < j
      invariant 0 <= i <= j + 2 && i + j == |stored| - 1
      invariant forall k :: 0 <= k < |stored| && (k < i || k > j) ==> copied[k] == stored[|stored| - 1 - k]
      invariant forall k :: i <= k <= j ==> copied[k] == stored[k]
    {
      copied[i], copied[j] := copied[j], copied[i];
      i, j := i + 1, j - 1;
    }
    reversed := copied[..];
  }

  function Limit(limit: int): (n: nat)
    ensures 1 <= n <= 500
    ensures n == limit || (n == 100 && !(1 <= limit <= 500))
  {
    if limit <= 0 || limit > 500 then 100 else limit
  }

  /** The newest `n` events, newest first. */
  function Newest(events: seq<Event>, n: nat): (listed: seq<Event>)
    ensures |listed| == if |events| < n then |events| else n
    ensures forall i :: 0 <= i < |listed| ==> listed[i] == events[|events| - 1 - i]
  {
    seq(if |events| < n then |events| else n, i requires 0 <= i < |events| => events[|events| - 1 - i])
  }
}
