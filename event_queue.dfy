/** The hand-off buffer between the simulator and the ledger submitter: the
    connector's `queue.Queue`, unbounded and first-in first-out, with the
    unfinished-task counter that `task_done` decrements. */
module EventQueue {
  import opened Wrappers
  import opened Records

  class TransactionQueue {
    var items: seq<ParkingEvent>
    var unfinishedTasks: nat

    /** Every queued item is still an unfinished task. `put` and `get` keep
        this; only a `task_done` without a matching `get` could break it. */
    ghost predicate Balanced()
      reads this
    {
      |items| <= unfinishedTasks
    }

    constructor ()
      ensures Balanced() && items == [] && unfinishedTasks == 0
    {
      items := [];
      unfinishedTasks := 0;
    }

    /** `put`: never blocks, appends at the tail. */
    method Put(e: ParkingEvent)
      modifies this
      ensures items == old(items) + [e]
      ensures unfinishedTasks == old(unfinishedTasks) + 1
      ensures old(Balanced()) ==> Balanced()
    {
      items := items + [e];
      unfinishedTasks := unfinishedTasks + 1;
    }

    /** `get(timeout=1)`: the head, or `None` for `queue.Empty` when nothing
        is queued. */
    method Get() returns (e: Option<ParkingEvent>)
      modifies this`items
      ensures old(items) == [] ==> e.None? && items == []
      ensures old(items) != [] ==> e == Some(old(items)[0]) && items == old(items)[1..]
    {
      if items == [] {
        e := None;
      } else {
        e := Some(items[0]);
        items := items[1..];
      }
    }

    /** `task_done`: one fewer unfinished task; `ok` is false where Python
        raises `ValueError` (called more often than items were put). */
    method TaskDone() returns (ok: bool)
      modifies this`unfinishedTasks
      ensures ok <==> old(unfinishedTasks) > 0
      ensures unfinishedTasks == if ok then old(unfinishedTasks) - 1 else old(unfinishedTasks)
    {
      ok := unfinishedTasks > 0;
      if ok {
        unfinishedTasks := unfinishedTasks - 1;
      }
    }
  }
}
