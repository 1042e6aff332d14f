# basic_CRUD task service in Dafny

This project models the core of a small Go HTTP service. The service does
create, list, update and delete on a single `tasks` table (Fiber handlers over
PostgreSQL through pgx). It also models how the server picks its log level.

- `wrappers.dfy`, module `Wrappers`: `Option` stands for Go's nil pointer.
  `Result` is a value or the error message sent to the client.
- `strconv.dfy`, module `Strconv`: Go's `strconv.Atoi`, with a 64-bit `int`.
  Also the decimal form `%v` prints for an `int`. Proved: `Atoi` inverts
  the printing on every 64-bit integer and refuses every number outside
  that range.
- `storage.dfy`, module `Storage`: the `Task` row, the decoded request body,
  the response, the error messages and the status check constraint.
  - pure functions for the id checks shared by Update and Delete, Create's
    status default and Update's partial merge;
  - class `TaskTable`, holding the table as a `map<int, Task>` and the next
    value of the id sequence, with one method per handler. Each method is
    specified case by case: the response, and the table afterwards.
  - `Valid()` is the table-wide invariant. Every row has a non-empty title
    and an allowed status, is stored under its own id, and has an id in
    `1 .. nextId-1`.
- `apiserver.dfy`, module `ApiServer`: the level switch of `NewLogger` as a
  function, and class `APIServer`, whose constructor `New` always leaves a
  logger set.
- `scenarios.dfy`, module `Scenarios`: request sequences on a fresh table.
  What they return follows from the handler contracts alone.

Handlers get already-decoded inputs:
- the `:id` path string;
- the body as `Parsed(Body(title, description, status))` or `Malformed(reason)`.
  `""` means a title or status was not given. A missing description is `None`.
- the clock reading `now`;
- injected store failures: a failing lookup, a failing INSERT/UPDATE/DELETE,
  or "zero rows affected" for Update and Delete; for `GetTasks`, a failing
  query, a row that fails to decode, or a read error after some number of rows.

A store failure takes precedence over the status constraint, because a
statement that fails never reaches the check. So does "zero rows affected" on
Update: a statement that matches no row never runs the check either, and the
answer is 500 "there is no update". The database reports "no rows"
as a structured `NoRows` result, not as error text. The constraint itself is
the predicate `ValidStatus(s) == s in {"new", "in_progress", "done"}`. This set
comes from the message at `internal/app/storage/storage.go:28`; the schema is
not part of the repository.

The model keeps these quirks of the code:
- The ids are not required to be positive. Only non-numbers and 0 are refused
  (`storage.go:137-153`). A negative id passes both checks and then is not found.
- A body that fails to parse is answered with 400 by Create (`storage.go:47`)
  but with 500 by Update (`storage.go:162`).
- Update's not-found message is the bare text "there is no task with id: ".
  Delete's adds the id after it.
- An empty title in an Update keeps the stored title instead of being refused.

## Model

| member | source | states |
|---|---|---|
| Strconv.Atoi | internal/app/storage/storage.go:137-144 | a parsed id is a 64-bit integer, the string is non-empty and starts with a digit or a sign, and a negative result comes from a leading '-' |
| Strconv.FormatInt | internal/app/storage/storage.go:266 | the printed form is non-empty and starts with '-' exactly for negative numbers |
| Strconv.AtoiFormatInt | internal/app/storage/storage.go:137 | parsing the decimal form of any 64-bit integer gives back that integer |
| Strconv.AtoiOutOfRange | internal/app/storage/storage.go:137-144 | the decimal form of an integer outside the 64-bit range fails to parse |
| Strconv.FormatIntInjective | internal/app/storage/storage.go:266 | two 64-bit ids with the same printed form are equal |
| Storage.CheckId | internal/app/storage/storage.go:137-153 | "id should be number" exactly when Atoi fails; "id shouldn't be 0" exactly when it gives 0, the number check coming first; otherwise the parsed non-zero id |
| Storage.CheckIdAcceptsNonZero | internal/app/storage/storage.go:137-153 | every non-zero 64-bit id, negative ones included, passes both checks as itself |
| Storage.CheckIdRefusesZero | internal/app/storage/storage.go:146-153 | "0" is refused with the zero message, not as a non-number |
| Storage.CheckIdRefusesOutOfRange | internal/app/storage/storage.go:137-144 | a decimal id beyond the 64-bit range is refused as not a number |
| Storage.NonPositiveIdNeverStored | internal/app/storage/storage.go:168-176 | under the table invariant no row has an id ≤ 0: such an id is never a key, so for one that passes the id checks the UpdateTask and DeleteTask contracts give the not-found answer |
| Storage.DeleteNotFoundMsg | internal/app/storage/storage.go:264-267 | Delete's not-found message begins with "there is no task with id: " and is longer than it |
| Storage.DeleteNotFoundMsgNamesId | internal/app/storage/storage.go:266 | what follows the fixed text parses back to the id that was looked up |
| Storage.NotFoundMessagesDiffer | internal/app/storage/storage.go:173-176 | Update's not-found message (without an id) never equals Delete's |
| Storage.DefaultStatus | internal/app/storage/storage.go:61-64 | an empty status becomes "new"; a given status is kept; the result is never empty |
| Storage.Merge | internal/app/storage/storage.go:185-201 | the merged row has the path id, the stored created_at and updated_at = now; for each of title, status and description, a given value replaces the stored one and an omitted one (empty string, absent description) keeps the stored value |
| Storage.MergeEmptyBody | internal/app/storage/storage.go:185-207 | an Update with an empty body changes only updated_at |
| Storage.MergeWellFormed | internal/app/storage/storage.go:191-197 | merging into a well-formed row gives a well-formed row exactly when the body's status is empty or allowed |
| Storage.TaskTable.constructor | internal/app/storage/storage.go:14-17 | the table the handlers work on starts empty, satisfying the invariant, with the id sequence at 1 |
| Storage.TaskTable.GetTask | internal/app/storage/storage.go:301-318 | the stored row for the id, NoRows when there is none, or the store's failure |
| Storage.TaskTable.CreateTask | internal/app/storage/storage.go:34-94 | malformed body: 400 with the decoder's reason; empty title: 400 "title is missing" whatever the status; then a store fault: 500; then a bad (defaulted) status: 400 wrong-status; all failures leave the table unchanged; success exactly otherwise, adding one row under the previously unused id nextId with created_at = updated_at = now and returning that row; the invariant is kept |
| Storage.TaskTable.GetTasks | internal/app/storage/storage.go:97-129 | a query fault gives 500; a 500 otherwise comes only from an undecodable stored row; a 200 lists only stored rows, each at most once; a read error after k rows still answers 200 with at most k rows (none for k = 0), and with every stored row when fewer than k come back; without such an error, an undecodable stored row gives 500 and otherwise the list holds every stored row; the table is not modified |
| Storage.TaskTable.UpdateTask | internal/app/storage/storage.go:131-237 | id checks (400), then malformed body (500), then lookup fault (500), then absent id (400, bare message) before any status check; then, on the merged row: write fault (500), zero rows (500 "there is no update", whatever the status), bad status (400); every failure leaves the table unchanged; success writes the merged row at the path id only and returns it; the invariant is kept |
| Storage.TaskTable.DeleteTask | internal/app/storage/storage.go:238-299 | id checks (400), then lookup fault (500), then absent id (400 with the id in decimal); then write fault (500) or zero rows (500 "there is no delete") leave the table unchanged; success removes exactly that row and answers 200 "successful deletion" |
| ApiServer.SelectLevel | internal/app/apiserver/apiserver.go:39-51 | Debug exactly for "debug" and ""; Warn exactly for "warn"; Error exactly for "error"; Info exactly for "info" and every other (unrecognised) name |
| ApiServer.UnknownNameIsInfo | internal/app/apiserver/apiserver.go:40-51 | an unrecognised name yields the zero-valued level, which is Info |
| ApiServer.UpperCaseIsNotRecognised | internal/app/apiserver/apiserver.go:42-51 | matching is case-sensitive: "DEBUG" and "Error" give Info |
| ApiServer.APIServer.New | internal/app/apiserver/apiserver.go:18-25 | keeps config and database, and the logger is always set, at the level chosen from the configured log level |
| ApiServer.APIServer.NewLogger | internal/app/apiserver/apiserver.go:53-55 | the logger becomes one at the selected level |
| Scenarios.FormatNineNineNineNine | internal/app/storage/storage.go:266 | 9999 is printed as "9999" |
| Scenarios.CreateBuyMilk | internal/app/storage/storage.go:54-93 | creating "Buy milk" without a status gives task 1 with status "new" and equal timestamps |
| Scenarios.MarkDone | internal/app/storage/storage.go:185-234 | setting status "done" on task 1 keeps its title and created_at and sets updated_at to the new time |
| Scenarios.DeleteMissing | internal/app/storage/storage.go:259-267 | deleting 9999 from a table without it answers 400 "there is no task with id: 9999" |
| Scenarios.CreateDeleteLookup | internal/app/storage/storage.go:276-318 | after a successful delete the lookup is NoRows and the list shows no task with that id |
| Scenarios.WrongStatus | internal/app/storage/storage.go:72-80 | a status outside the allowed set is refused on create and on update, and the stored task remains as created |
| Scenarios.UpdateVanishedRow | internal/app/storage/storage.go:225-231 | an Update that affects no row answers 500 "there is no update", even with a status outside the allowed set |
| Scenarios.ListInterruptedAtOnce | internal/app/storage/storage.go:111-128 | a read error before the first row answers 200 with an empty list |

## Left out

- HTTP and JSON: Fiber's context, body decoding and response encoding are not modelled. Handlers take decoded inputs and return a `Response` value. The JSON `null` that Go sends for an empty task list is not modelled either: an empty list is `Many([])`.
- Request body fields `id`, `created_at` and `updated_at`: the body is only title, description and status. So the property `created_at == updated_at == now` for Create assumes these fields are absent, and the task Update returns always carries the path id. The source echoes a body `id` there.
- Driver error text: "no rows", `SQLSTATE 23514` and other faults are structured outcomes, not substring tests on error messages. A store fault whose text only mimics one of these is not modelled.
- SQL text and pgx calls: the INSERT, SELECT, UPDATE and DELETE are stated as changes to the map.
- Id sequence: a failed INSERT does not use up a sequence value in the model; PostgreSQL's would. Sequence overflow beyond 64 bits is not modelled.
- Concurrency: the race between the lookup and the UPDATE/DELETE is not modelled. "Zero rows affected" is an injected input that leaves the table unchanged. In the real race, a concurrent request has already removed the row.
- Row order: `Storage.TaskTable.GetTasks` promises no order, as the store promises none. The model reads rows in ascending id order. A row that fails to decode is named by its id.
- Storage.TaskTable.GetTasks: the contract has no separate `|tasks| == |rows|` clause. It says each listed row is stored, that no id appears twice and that every stored row is listed; the count follows from those.
- Storage.TaskTable.GetTasks: after a read error at row k the contract does not give the exact count min(k, |rows|). It says at most k rows come back, and all stored rows when fewer than k do. It does not say which rows a cut-off list holds, because the store's order is unspecified.
- Logging: every `Logger` call in the handlers is a side effect, left out. The logger's output stream is not modelled, only its level.
- Clock: `time.Now()` becomes the parameter `now`; timestamps are integers.
- `internal/app/storage/postgresDB.go`: connecting, pool settings and the ping are I/O. It always uses host `localhost`, so the configured host is never used.
- `internal/app/apiserver/config.go`: reading the environment and `.env` is I/O through external libraries. `Config` is just a record of its fields.
- `Start` in `internal/app/apiserver/apiserver.go:28-36`, `internal/app/routes/routes.go` and `cmd/apiserver/main.go`: route binding and starting the listener are wiring, with no logic to model.
