/**
 * The task table and the four HTTP handlers over it (create, list, update,
 * delete) with the single-task lookup they share. The relational store is
 * an in-memory table: a map from id to row and the next value of the id
 * sequence. Fiber's context becomes already-decoded inputs (the `:id` path
 * string, the decoded body, the clock reading `now`) and a `Response` value;
 * pgx's errors become injected store faults.
 */
module Storage {
  import opened Wrappers
  import opened Strconv

  // HTTP status codes the handlers answer with.
  const StatusOK: int := 200
  const StatusBadRequest: int := 400
  const StatusInternalServerError: int := 500

  // Messages sent to the client.
  const NoTitleMsg: string := "title is missing"
  const ZeroIdMsg: string := "id shouldn't be 0"
  const IdNotNumberMsg: string := "id should be number"
  const NoTaskMsg: string := "there is no task with id: "
  const WrongStatusMsg: string := "status should be: 'new', 'in_progress' or 'done'"
  const NoDeleteMsg: string := "there is no delete"
  const NoUpdateMsg: string := "there is no update"
  const DeletedMsg: string := "successful deletion"

  /** Status given to a created task whose body names none. */
  const DefaultStatusName: string := "new"

  /** A row of the tasks table. Timestamps are plain clock readings. */
  datatype Task = Task(
    id: int,
    title: string,
    description: Option<string>,
    status: string,
    createdAt: int,
    updatedAt: int)

  /** The fields a request body may carry; `""` means the field was not given. */
  datatype Body = Body(title: string, description: Option<string>, status: string)

  /** The outcome of decoding the request body. */
  datatype Decoded = Parsed(body: Body) | Malformed(reason: string)

  /**
   * Injected failures of the store for Update and Delete: the lookup query
   * fails (other than with "no rows"), the UPDATE/DELETE statement fails, or
   * the statement succeeds but reports zero rows affected.
   */
  datatype Faults = Faults(lookup: Option<string>, write: Option<string>, zeroRows: bool)

  /** A failure to decode the row with this id while listing the table. */
  datatype RowFault = RowFault(id: int, reason: string)

  /** What the single-task lookup reports. */
  datatype Lookup = Found(task: Task) | NoRows | LookupFailed(reason: string)

  /** The JSON payload next to the `error` flag. */
  datatype Payload = Message(msg: string) | One(task: Task) | Many(tasks: seq<Task>)

  /** A response: HTTP status, the `error` flag and the payload. */
  datatype Response = Response(code: int, error: bool, payload: Payload)

  function Failure(code: int, msg: string): Response {
    Response(code, true, Message(msg))
  }

  function Success(payload: Payload): Response {
    Response(StatusOK, false, payload)
  }

  /** The store's check constraint on the status column. */
  predicate ValidStatus(s: string) {
    s in {"new", "in_progress", "done"}
  }

  /** What every stored row satisfies: a title and an allowed status. */
  predicate WellFormed(t: Task) {
    t.title != "" && ValidStatus(t.status)
  }

  /**
   * The table invariant: every key was handed out by the id sequence (so it
   * is positive and below `nextId`), each row carries its own key as id,
   * and each row is well formed.
   */
  predicate TableInvariant(rows: map<int, Task>, nextId: int) {
    0 < nextId &&
    forall k :: k in rows ==> 0 < k < nextId && rows[k].id == k && WellFormed(rows[k])
  }

  /** Create's default for an empty status. */
  function DefaultStatus(status: string): (s: string)
    ensures s != ""
    ensures status != "" ==> s == status
    ensures status == "" ==> s == DefaultStatusName
  {
    if status == "" then DefaultStatusName else status
  }

  /**
   * The checks Update and Delete run on the `:id` path parameter, in order:
   * it must parse as an `int`, then it must not be zero. Any other value,
   * negative ones included, is let through.
   */
  function CheckId(param: string): (r: Result<int>)
    ensures r == Err(IdNotNumberMsg) <==> Atoi(param).None?
    ensures r == Err(ZeroIdMsg) <==> Atoi(param) == Some(0)
    ensures r.Ok? <==> Atoi(param).Some? && Atoi(param).value != 0
    ensures r.Ok? ==> Atoi(param) == Some(r.value)
  {
    match Atoi(param)
    case None => Err(IdNotNumberMsg)
    case Some(id) => if id == 0 then Err(ZeroIdMsg) else Ok(id)
  }

  /** Delete's not-found message: the fixed text followed by the id in decimal. */
  function DeleteNotFoundMsg(id: int): (m: string)
    ensures |m| > |NoTaskMsg| && m[..|NoTaskMsg|] == NoTaskMsg
  {
    NoTaskMsg + FormatInt(id)
  }

  /**
   * Update's partial merge of a request body into the stored row: a given
   * title or status replaces the stored one, an empty one keeps it; a
   * description replaces the stored one only when present. The id is the
   * path id, `created_at` comes from the stored row and `updated_at` is now.
   */
  function Merge(stored: Task, body: Body, id: int, now: int): (t: Task)
    ensures t.id == id && t.createdAt == stored.createdAt && t.updatedAt == now
    ensures body.title != "" ==> t.title == body.title
    ensures body.title == "" ==> t.title == stored.title
    ensures body.status != "" ==> t.status == body.status
    ensures body.status == "" ==> t.status == stored.status
    ensures body.description.Some? ==> t.description == body.description
    ensures body.description.None? ==> t.description == stored.description
  {
    var title := if body.title == "" then stored.title else body.title;
    var status := if body.status == "" then stored.status else body.status;
    var description := if body.description.None? then stored.description else body.description;
    Task(id, title, description, status, stored.createdAt, now)
  }

  /** A list holds only rows of the table, each at most once. */
  predicate ListsSome(tasks: seq<Task>, rows: map<int, Task>) {
    (forall i :: 0 <= i < |tasks| ==> tasks[i].id in rows && rows[tasks[i].id] == tasks[i]) &&
    (forall i, j :: 0 <= i < j < |tasks| ==> tasks[i].id != tasks[j].id)
  }

  /** A list holds exactly the rows of the table: each once, and nothing else. */
  predicate Lists(tasks: seq<Task>, rows: map<int, Task>) {
    ListsSome(tasks, rows) &&
    (forall k :: k in rows ==> rows[k] in tasks)
  }

  /** Every non-zero 64-bit id, negative ones included, passes both id checks. */
  lemma CheckIdAcceptsNonZero(id: int)
    requires MinInt <= id <= MaxInt && id != 0
    ensures CheckId(FormatInt(id)) == Ok(id)
  {
    AtoiFormatInt(id);
  }

  /** The decimal form of zero is refused as zero, not as a non-number. */
  lemma CheckIdRefusesZero()
    ensures CheckId(FormatInt(0)) == Err(ZeroIdMsg)
  {
  }

  /** A decimal id beyond the range of `int` is reported as not a number. */
  lemma CheckIdRefusesOutOfRange(id: int)
    requires id < MinInt || MaxInt < id
    ensures CheckId(FormatInt(id)) == Err(IdNotNumberMsg)
  {
    AtoiOutOfRange(id);
  }

  /** The stored ids are all positive, so a negative or zero id is never found. */
  lemma NonPositiveIdNeverStored(rows: map<int, Task>, nextId: int, id: int)
    requires TableInvariant(rows, nextId) && id <= 0
    ensures id !in rows
  {
  }

  /** Delete's not-found message ends with the decimal id, which reads back as that id. */
  lemma DeleteNotFoundMsgNamesId(id: int)
    requires MinInt <= id <= MaxInt
    ensures Atoi(DeleteNotFoundMsg(id)[|NoTaskMsg|..]) == Some(id)
  {
    assert DeleteNotFoundMsg(id)[|NoTaskMsg|..] == FormatInt(id);
    AtoiFormatInt(id);
  }

  /** Update's not-found message has no id in it, so it never equals Delete's. */
  lemma NotFoundMessagesDiffer(id: int)
    ensures DeleteNotFoundMsg(id) != NoTaskMsg
  {
  }

  /** An Update whose body gives no field changes nothing but `updated_at`. */
  lemma MergeEmptyBody(stored: Task, now: int)
    ensures Merge(stored, Body("", None, ""), stored.id, now) == stored.(updatedAt := now)
  {
  }

  /**
   * Merging into a well-formed row gives a well-formed row exactly when the
   * body's status is empty or allowed: the title can never become empty.
   */
  lemma MergeWellFormed(stored: Task, body: Body, id: int, now: int)
    requires WellFormed(stored)
    ensures WellFormed(Merge(stored, body, id, now)) <==> body.status == "" || ValidStatus(body.status)
  {
  }

  /** The tasks table as the handlers see it. */
  class TaskTable {
    var rows: map<int, Task>
    var nextId: int

    ghost predicate Valid()
      reads this
    {
      TableInvariant(rows, nextId)
    }

    /** An empty table whose id sequence starts at 1. */
    constructor ()
      ensures Valid()
      ensures rows == map[] && nextId == 1
    {
      rows := map[];
      nextId := 1;
    }

    /** `GetTask`: the row with this id, "no rows" when there is none, or the store's failure. */
    method GetTask(id: int, fault: Option<string>) returns (r: Lookup)
      ensures fault.Some? ==> r == LookupFailed(fault.value)
      ensures fault.None? && id in rows ==> r == Found(rows[id])
      ensures fault.None? && id !in rows ==> r == NoRows
    {
      if fault.Some? {
        return LookupFailed(fault.value);
      }
      if id in rows {
        r := Found(rows[id]);
      } else {
        r := NoRows;
      }
    }

    /**
     * `CreateTask`: a malformed body or an empty title is a client error; an
     * empty status becomes "new"; the insert then fails with the store's
     * fault, or with the status constraint, or adds one row under a fresh id
     * and returns it.
     */
    method CreateTask(body: Decoded, now: int, fault: Option<string>) returns (r: Response)
      requires Valid()
      modifies this
      ensures Valid()
      ensures r.error <==> r.code != StatusOK
      ensures body.Malformed? ==> r == Failure(StatusBadRequest, body.reason)
      ensures body.Parsed? && body.body.title == "" ==> r == Failure(StatusBadRequest, NoTitleMsg)
      ensures body.Parsed? && body.body.title != "" && fault.Some? ==>
                r == Failure(StatusInternalServerError, fault.value)
      ensures body.Parsed? && body.body.title != "" && fault.None? && !ValidStatus(DefaultStatus(body.body.status)) ==>
                r == Failure(StatusBadRequest, WrongStatusMsg)
      ensures r.code == StatusOK <==>
                body.Parsed? && body.body.title != "" && fault.None? && ValidStatus(DefaultStatus(body.body.status))
      ensures r.code != StatusOK ==> rows == old(rows) && nextId == old(nextId)
      ensures r.code == StatusOK ==>
                var t := Task(old(nextId), body.body.title, body.body.description,
                              DefaultStatus(body.body.status), now, now);
                old(nextId) !in old(rows) &&
                r == Success(One(t)) &&
                rows == old(rows)[t.id := t] &&
                nextId == old(nextId) + 1
    {
      var task := Task(0, "", None, "", now, now);
      if body.Malformed? {
        return Failure(StatusBadRequest, body.reason);
      }
      task := task.(title := body.body.title, description := body.body.description, status := body.body.status);
      if task.title == "" {
        return Failure(StatusBadRequest, NoTitleMsg);
      }
      if task.status == "" {
        task := task.(status := DefaultStatusName);
      }
      // The INSERT: a store fault, then the status check constraint.
      if fault.Some? {
        return Failure(StatusInternalServerError, fault.value);
      }
      if !ValidStatus(task.status) {
        return Failure(StatusBadRequest, WrongStatusMsg);
      }
      task := task.(id := nextId);
      rows := rows[task.id := task];
      nextId := nextId + 1;
      r := Success(One(task));
    }

    /**
     * `GetTasks`: every stored row, in no particular order, unless the query
     * fails or one of the rows fails to decode. A read error while the rows
     * stream in (`interruptAfter`: after that many rows) ends the loop like
     * the end of the result set, since the rows' own error is never
     * consulted: the answer is then 200 with the rows read so far.
     */
    method GetTasks(queryFault: Option<string>, rowFault: Option<RowFault>, interruptAfter: Option<nat>)
      returns (r: Response)
      requires Valid()
      ensures r.error <==> r.code != StatusOK
      ensures queryFault.Some? ==> r == Failure(StatusInternalServerError, queryFault.value)
      ensures r.code != StatusOK ==>
                queryFault.Some? ||
                (rowFault.Some? && rowFault.value.id in rows &&
                 r == Failure(StatusInternalServerError, rowFault.value.reason))
      ensures r.code == StatusOK ==> r.payload.Many? && ListsSome(r.payload.tasks, rows)
      ensures r.code == StatusOK && interruptAfter.Some? ==> |r.payload.tasks| <= interruptAfter.value
      ensures r.code == StatusOK && interruptAfter.Some? && |r.payload.tasks| < interruptAfter.value ==>
                Lists(r.payload.tasks, rows)
      ensures queryFault.None? && interruptAfter == Some(0) ==> r == Success(Many([]))
      ensures queryFault.None? && interruptAfter.None? ==>
                (r.code == StatusOK <==> rowFault.None? || rowFault.value.id !in rows)
      ensures r.code == StatusOK && interruptAfter.None? ==> Lists(r.payload.tasks, rows)
    {
      if queryFault.Some? {
        return Failure(StatusInternalServerError, queryFault.value);
      }
      // The rows are read in ascending id order; the contract promises no order.
      var id := 1;
      var tasks: seq<Task> := [];
      while id < nextId && (interruptAfter.None? || |tasks| < interruptAfter.value)
        invariant 1 <= id <= nextId
        invariant forall i :: 0 <= i < |tasks| ==>
                    tasks[i].id in rows && tasks[i].id < id && rows[tasks[i].id] == tasks[i]
        invariant forall i, j :: 0 <= i < j < |tasks| ==> tasks[i].id != tasks[j].id
        invariant forall k :: k in rows && k < id ==> rows[k] in tasks
        invariant interruptAfter.Some? ==> |tasks| <= interruptAfter.value
        invariant rowFault.Some? && rowFault.value.id in rows ==> id <= rowFault.value.id
      {
        if id in rows {
          if rowFault.Some? && rowFault.value.id == id {
            return Failure(StatusInternalServerError, rowFault.value.reason);
          }
          tasks := tasks + [rows[id]];
        }
        id := id + 1;
      }
      r := Success(Many(tasks));
    }

    /**
     * `UpdateTask`: the id checks, then the body, then the lookup; the
     * stored row is merged with the body and written back at the path id,
     * unless the store fails, no row is affected, or the status constraint
     * rejects the merged status.
     */
    method UpdateTask(idParam: string, body: Decoded, now: int, faults: Faults) returns (r: Response)
      requires Valid()
      modifies this
      ensures Valid() && nextId == old(nextId)
      ensures r.error <==> r.code != StatusOK
      ensures r.code != StatusOK ==> rows == old(rows)
      ensures CheckId(idParam).Err? ==> r == Failure(StatusBadRequest, CheckId(idParam).error)
      ensures CheckId(idParam).Ok? && body.Malformed? ==> r == Failure(StatusInternalServerError, body.reason)
      ensures CheckId(idParam).Ok? && body.Parsed? && faults.lookup.Some? ==>
                r == Failure(StatusInternalServerError, faults.lookup.value)
      ensures CheckId(idParam).Ok? && body.Parsed? && faults.lookup.None? && CheckId(idParam).value !in old(rows) ==>
                r == Failure(StatusBadRequest, NoTaskMsg)
      ensures CheckId(idParam).Ok? && body.Parsed? && faults.lookup.None? && CheckId(idParam).value in old(rows) ==>
                var id := CheckId(idParam).value;
                var t := Merge(old(rows)[id], body.body, id, now);
                (faults.write.Some? ==> r == Failure(StatusInternalServerError, faults.write.value)) &&
                (faults.write.None? && faults.zeroRows ==> r == Failure(StatusInternalServerError, NoUpdateMsg)) &&
                (faults.write.None? && !faults.zeroRows && !ValidStatus(t.status) ==>
                   r == Failure(StatusBadRequest, WrongStatusMsg)) &&
                (faults.write.None? && !faults.zeroRows && ValidStatus(t.status) ==>
                   r == Success(One(t)) && rows == old(rows)[id := t])
    {
      var checked := CheckId(idParam);
      if checked.Err? {
        return Failure(StatusBadRequest, checked.error);
      }
      var id := checked.value;
      if body.Malformed? {
        return Failure(StatusInternalServerError, body.reason);
      }
      var found := GetTask(id, faults.lookup);
      match found
      case LookupFailed(reason) =>
        return Failure(StatusInternalServerError, reason);
      case NoRows =>
        return Failure(StatusBadRequest, NoTaskMsg);
      case Found(stored) =>
        var task := Merge(stored, body.body, id, now);
        // The UPDATE: a store fault; a statement that matches no row (the row
        // vanished meanwhile) never reaches the status check constraint.
        if faults.write.Some? {
          return Failure(StatusInternalServerError, faults.write.value);
        }
        if faults.zeroRows {
          return Failure(StatusInternalServerError, NoUpdateMsg);
        }
        if !ValidStatus(task.status) {
          return Failure(StatusBadRequest, WrongStatusMsg);
        }
        rows := rows[id := task];
        r := Success(One(task));
    }

    /**
     * `DeleteTask`: the id checks, then the lookup, then the DELETE, which
     * removes exactly the row with that id unless the store fails or no row
     * is affected.
     */
    method DeleteTask(idParam: string, faults: Faults) returns (r: Response)
      requires Valid()
      modifies this
      ensures Valid() && nextId == old(nextId)
      ensures r.error <==> r.code != StatusOK
      ensures r.code != StatusOK ==> rows == old(rows)
      ensures CheckId(idParam).Err? ==> r == Failure(StatusBadRequest, CheckId(idParam).error)
      ensures CheckId(idParam).Ok? && faults.lookup.Some? ==>
                r == Failure(StatusInternalServerError, faults.lookup.value)
      ensures CheckId(idParam).Ok? && faults.lookup.None? && CheckId(idParam).value !in old(rows) ==>
                r == Failure(StatusBadRequest, DeleteNotFoundMsg(CheckId(idParam).value))
      ensures CheckId(idParam).Ok? && faults.lookup.None? && CheckId(idParam).value in old(rows) ==>
                (faults.write.Some? ==> r == Failure(StatusInternalServerError, faults.write.value)) &&
                (faults.write.None? && faults.zeroRows ==> r == Failure(StatusInternalServerError, NoDeleteMsg)) &&
                (faults.write.None? && !faults.zeroRows ==>
                   r == Success(Message(DeletedMsg)) && rows == old(rows) - {CheckId(idParam).value})
    {
      var checked := CheckId(idParam);
      if checked.Err? {
        return Failure(StatusBadRequest, checked.error);
      }
      var id := checked.value;
      var found := GetTask(id, faults.lookup);
      match found
      case LookupFailed(reason) =>
        return Failure(StatusInternalServerError, reason);
      case NoRows =>
        return Failure(StatusBadRequest, DeleteNotFoundMsg(id));
      case Found(_) =>
        if faults.write.Some? {
          return Failure(StatusInternalServerError, faults.write.value);
        }
        if faults.zeroRows {
          return Failure(StatusInternalServerError, NoDeleteMsg);
        }
        rows := rows - {id};
        r := Success(Message(DeletedMsg));
    }
  }
}
