/**
 The in-memory queue of exits the broker has accepted but the table does not show yet.
 It retries the table write and, while an entry is in it, shields the position from
 being closed again.
 */
module CompensationQueue {
  import opened Outcomes
  import opened PositionStore

  datatype Kind = UpdateKind(exit: Exit) | MarkClosedKind
  datatype Entry = Entry(kind: Kind, attempts: nat)
  datatype Todo = Todo(id: PositionId, kind: Kind)

  /** `drain` is the unfinished part of the running pass, snapshotted when the pass began. */
  datatype Queue = Queue(entries: map<PositionId, Entry>, drain: Option<seq<Todo>>)

  const EMPTY := Queue(map[], None)

  function Enqueued(q: Queue, id: PositionId, kind: Kind): Queue {
    if id in q.entries then q else q.(entries := q.entries[id := Entry(kind, 0)])
  }

  /** The pass covers every entry once, with the payload it has now. */
  predicate IsSnapshot(q: Queue, todo: seq<Todo>) {
    && (forall i, j :: 0 <= i < j < |todo| ==> todo[i].id != todo[j].id)
    && (forall i :: 0 <= i < |todo| ==> todo[i].id in q.entries && q.entries[todo[i].id].kind == todo[i].kind)
    && (forall id :: id in q.entries ==> exists i :: 0 <= i < |todo| && todo[i].id == id)
  }

  function DrainBegun(q: Queue, todo: seq<Todo>): Queue {
    if q.drain.Some? || q.entries == map[] then q else q.(drain := Some(todo))
  }

  /** The head's table write succeeded: the entry, and with it the shield, goes. */
  function Recovered(q: Queue): Queue
    requires q.drain.Some? && q.drain.value != []
  {
    Queue(q.entries - {q.drain.value[0].id}, Some(q.drain.value[1..]))
  }

  /** The head's table write failed: the entry stays for the next pass. */
  function RetryFailed(q: Queue): Queue
    requires q.drain.Some? && q.drain.value != []
  {
    var id := q.drain.value[0].id;
    Queue(if id in q.entries then q.entries[id := Entry(q.entries[id].kind, q.entries[id].attempts + 1)] else q.entries,
          Some(q.drain.value[1..]))
  }

  class ExitCompensationQueue {
    var entries: map<PositionId, Entry>
    var draining: bool
    var todo: seq<Todo>
    const escalateAfterAttempts: nat

    function State(): Queue
      reads this
    {
      Queue(entries, if draining then Some(todo) else None)
    }

    constructor (escalateAfterAttempts: nat)
      ensures State() == EMPTY
    {
      entries, draining, todo := map[], false, [];
      this.escalateAfterAttempts := escalateAfterAttempts;
    }

    method EnqueueUpdate(id: PositionId, exit: Exit)
      modifies this
      ensures State() == Enqueued(old(State()), id, UpdateKind(exit))
      ensures entries == if id in old(entries) then old(entries) else old(entries)[id := Entry(UpdateKind(exit), 0)]
    {
      if id in entries { return; }
      entries := entries[id := Entry(UpdateKind(exit), 0)];
    }

    method EnqueueMarkClosed(id: PositionId)
      modifies this
      ensures State() == Enqueued(old(State()), id, MarkClosedKind)
      ensures entries == if id in old(entries) then old(entries) else old(entries)[id := Entry(MarkClosedKind, 0)]
    {
      if id in entries { return; }
      entries := entries[id := Entry(MarkClosedKind, 0)];
    }

    /** Up to the first await of `drain`: exclusive, and nothing to do when empty. */
    method BeginDrain(snapshot: seq<Todo>) returns (begun: bool)
      requires IsSnapshot(State(), snapshot)
      modifies this
      ensures State() == DrainBegun(old(State()), snapshot)
      ensures begun <==> !old(draining) && old(entries) != map[]
      ensures entries == old(entries) && (begun ==> draining && todo == snapshot)
    {
      if draining { return false; }
      if |entries| == 0 {
        assert entries == map[];
        return false;
      }
      draining, todo := true, snapshot;
      begun := true;
    }

    /** After the await on one entry's table write. */
    method Settle(ok: bool) returns (escalated: bool)
      requires draining && todo != []
      modifies this
      ensures State() == if ok then Recovered(old(State())) else RetryFailed(old(State()))
      ensures todo == old(todo)[1..] && draining
      ensures var id := old(todo)[0].id;
              entries == if ok then old(entries) - {id}
                         else if id !in old(entries) then old(entries)
                         else old(entries)[id := Entry(old(entries)[id].kind, old(entries)[id].attempts + 1)]
      ensures escalated <==> !ok && old(todo)[0].id in old(entries)
                             && old(entries)[old(todo)[0].id].attempts + 1 >= escalateAfterAttempts
    {
      var id := todo[0].id;
      todo := todo[1..];
      escalated := false;
      if ok {
        entries := entries - {id};
      } else if id in entries {
        var attempts := entries[id].attempts + 1;
        entries := entries[id := Entry(entries[id].kind, attempts)];
        escalated := attempts >= escalateAfterAttempts;
      }
    }

    method EndDrain()
      requires draining && todo == []
      modifies this
      ensures State() == old(State()).(drain := None)
    {
      draining := false;
    }
  }
}
