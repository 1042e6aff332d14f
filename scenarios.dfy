/**
 * Request sequences against a fresh table, showing what callers can derive
 * from the handlers' contracts alone.
 */
module Scenarios {
  import opened Wrappers
  import opened Strconv
  import opened Storage

  const NoFaults: Faults := Faults(None, None, false)

  /** The digits of 9999, spelled out for Delete's not-found message. */
  lemma FormatNineNineNineNine()
    ensures FormatInt(9999) == "9999"
  {
  }

  /** Creating "Buy milk" with no status gives task 1, status "new" and equal timestamps. */
  method CreateBuyMilk(now: int) returns (created: Response)
    ensures created == Success(One(Task(1, "Buy milk", None, "new", now, now)))
  {
    var table := new TaskTable();
    created := table.CreateTask(Parsed(Body("Buy milk", None, "")), now, None);
  }

  /** Marking task 1 done keeps its title and creation time and advances `updated_at`. */
  method MarkDone(t0: int, t1: int) returns (updated: Response)
    ensures updated == Success(One(Task(1, "Buy milk", None, "done", t0, t1)))
  {
    var table := new TaskTable();
    var created := table.CreateTask(Parsed(Body("Buy milk", None, "")), t0, None);
    assert Atoi("1") == Some(1);
    updated := table.UpdateTask("1", Parsed(Body("", None, "done")), t1, NoFaults);
  }

  /** Deleting task 9999 from a table without it names the missing id. */
  method DeleteMissing() returns (missing: Response)
    ensures missing == Failure(StatusBadRequest, "there is no task with id: 9999")
  {
    var table := new TaskTable();
    FormatNineNineNineNine();
    AtoiFormatInt(9999);
    missing := table.DeleteTask("9999", NoFaults);
    assert NoTaskMsg + "9999" == "there is no task with id: 9999";
  }

  /** After a successful delete the lookup reports no rows, and the list no longer shows the task. */
  method CreateDeleteLookup(title: string, now: int) returns (deleted: Response, found: Lookup, listed: Response)
    requires title != ""
    ensures deleted == Success(Message(DeletedMsg))
    ensures found == NoRows
    ensures listed.code == StatusOK && listed.payload.Many?
    ensures forall t :: t in listed.payload.tasks ==> t.id != 1
  {
    var table := new TaskTable();
    var created := table.CreateTask(Parsed(Body(title, None, "")), now, None);
    assert Atoi("1") == Some(1);
    deleted := table.DeleteTask("1", NoFaults);
    found := table.GetTask(1, None);
    listed := table.GetTasks(None, None, None);
  }

  /**
   * A wrong status is refused on create and on update, and leaves the stored
   * task as it was. The good task is created first, so its id does not depend
   * on whether the refused insert used up a sequence value.
   */
  method WrongStatus(now: int) returns (onCreate: Response, onUpdate: Response, listed: Response)
    ensures onCreate == Failure(StatusBadRequest, WrongStatusMsg)
    ensures onUpdate == Failure(StatusBadRequest, WrongStatusMsg)
    ensures listed.code == StatusOK && listed.payload.Many?
    ensures Task(1, "Buy milk", None, "new", now, now) in listed.payload.tasks
    ensures forall t :: t in listed.payload.tasks ==> t == Task(1, "Buy milk", None, "new", now, now)
  {
    var table := new TaskTable();
    var created := table.CreateTask(Parsed(Body("Buy milk", None, "")), now, None);
    onCreate := table.CreateTask(Parsed(Body("Buy milk", None, "later")), now, None);
    assert Atoi("1") == Some(1);
    onUpdate := table.UpdateTask("1", Parsed(Body("", None, "archived")), now, NoFaults);
    listed := table.GetTasks(None, None, None);
  }

  /**
   * An Update whose statement matches no row (the row vanished meanwhile)
   * answers "there is no update" even when the new status is not allowed:
   * the constraint is never reached.
   */
  method UpdateVanishedRow(now: int) returns (updated: Response)
    ensures updated == Failure(StatusInternalServerError, NoUpdateMsg)
  {
    var table := new TaskTable();
    var created := table.CreateTask(Parsed(Body("Buy milk", None, "")), now, None);
    assert Atoi("1") == Some(1);
    updated := table.UpdateTask("1", Parsed(Body("", None, "archived")), now, Faults(None, None, true));
  }

  /** A read error before the first row still answers 200, with an empty list. */
  method ListInterruptedAtOnce(now: int) returns (listed: Response)
    ensures listed == Success(Many([]))
  {
    var table := new TaskTable();
    var created := table.CreateTask(Parsed(Body("Buy milk", None, "")), now, None);
    listed := table.GetTasks(None, None, Some(0));
  }
}
