/** The task endpoints of the AI manager (app/api/ai-manager/tasks/route.ts):
    creating tasks, with their field defaults and the title check, and
    updating one, where a status change stamps the start, the completion
    and the execution time. The database, the clock and date parsing are
    parameters. */
module ManagerTasks {
  import opened Wrappers
  import opened Json
  import opened AIManager

  // ---------------------------------------------------------------------
  // POST

  /** A task as it is inserted (without the owner). */
  datatype Prepared = Prepared(intentId: Json, title: Option<Json>, description: Json, kind: Json,
                               service: Json, model: Json, params: Json, status: Json, priority: Json,
                               order: Json, dependsOn: Json)

  /** The defaults applied to the task at `index`: title from `task_title`
      or `title`, type "other", parameters `{}`, status "pending",
      priority 5, and the position as order unless an order is given. */
  function PrepareTask(t: Json, index: nat): (r: Prepared)
    ensures Truthy(r.kind) && Truthy(r.params) && Truthy(r.status) && Truthy(r.priority)
    ensures TruthyField(r.title) <==> TruthyField(Get(t, "task_title")) || TruthyField(Get(t, "title"))
    ensures !TruthyField(Get(t, "status")) ==> r.status == JStr("pending")
    ensures !TruthyField(Get(t, "priority")) ==> r.priority == JNum(5.0)
    ensures Get(t, "order_index").None? ==> r.order == JNum(index as real)
    ensures Get(t, "order_index").Some? ==> r.order == Get(t, "order_index").value
  {
    Prepared(Or(Get(t, "intent_id"), JNull),
             OrField(Get(t, "task_title"), Get(t, "title")),
             Or(Get(t, "task_description"), Or(Get(t, "description"), JNull)),
             Or(Get(t, "task_type"), JStr("other")),
             Or(Get(t, "ai_service"), JNull), Or(Get(t, "ai_model"), JNull),
             Or(Get(t, "task_params"), Or(Get(t, "params"), JObj([]))),
             Or(Get(t, "status"), JStr("pending")),
             Or(Get(t, "priority"), JNum(5.0)),
             Defined(Get(t, "order_index"), JNum(index as real)),
             Or(Get(t, "depends_on_task_id"), JNull))
  }

  /** The answer to POST: a rejection with its status, the 500 of a failed
      insert with the database's message, or the 201 with the rows sent to
      the database and the rows it returned. */
  datatype PostReply = Rejected(status: nat) | InsertFailed(details: string) | Created(rows: seq<Prepared>, data: Json)

  /** The batch with each task prepared at its position (`tasksToInsert.map`). */
  function PrepareAll(items: seq<Json>): (rows: seq<Prepared>)
    ensures |rows| == |items| && forall i :: 0 <= i < |items| ==> rows[i] == PrepareTask(items[i], i)
  {
    seq(|items|, i requires 0 <= i < |items| => PrepareTask(items[i], i))
  }

  /** The check loop: every prepared task has a title. */
  method AllTitled(rows: seq<Prepared>) returns (ok: bool)
    ensures ok <==> forall i :: 0 <= i < |rows| ==> TruthyField(rows[i].title)
  {
    var i := 0;
    while i < |rows|
      invariant 0 <= i <= |rows|
      invariant forall j :: 0 <= j < i ==> TruthyField(rows[j].title)
    {
      if !TruthyField(rows[i].title) {
        return false;
      }
      i := i + 1;
    }
    return true;
  }

  /** POST: the body's `tasks`, or its single `task`, prepared; nothing is
      inserted unless every task has a title. `insert` is the database
      insert with `.select()`: the stored rows, or the error's message. */
  method PostTasks(admin: Option<string>, body: Option<Json>, insert: seq<Prepared> -> Result<Json, string>)
    returns (r: PostReply)
    ensures admin.None? ==> r == Rejected(403)
    ensures admin.Some? && (body.None? || body.value == JNull) ==> r == Rejected(500)
    ensures r.Rejected? ==> r.status in {400, 403, 500}
    ensures r.Created? ==>
      admin.Some? && body.Some? &&
      var batch := Batch(Get(body.value, "tasks"), Get(body.value, "task"));
      batch.Some? && |r.rows| == |batch.value| > 0 &&
      forall i :: 0 <= i < |r.rows| ==> r.rows[i] == PrepareTask(batch.value[i], i) && TruthyField(r.rows[i].title)
    ensures admin.Some? && body.Some? && body.value != JNull ==>
            var batch := Batch(Get(body.value, "tasks"), Get(body.value, "task"));
            batch.Some? && |batch.value| > 0 && JNull !in batch.value &&
            (forall i :: 0 <= i < |batch.value| ==> TruthyField(PrepareTask(batch.value[i], i).title)) ==>
            var sent := insert(PrepareAll(batch.value));
            (sent.Ok? ==> r == Created(PrepareAll(batch.value), sent.value)) &&
            (sent.Err? ==> r == InsertFailed(sent.error))
    ensures r.InsertFailed? || r.Created? ==> admin.Some? && body.Some?
    ensures admin.Some? && body.Some? && body.value != JNull &&
            Batch(Get(body.value, "tasks"), Get(body.value, "task")) == Some([])
            ==> r == Rejected(400)
    ensures admin.Some? && body.Some? && body.value != JNull ==>
            var batch := Batch(Get(body.value, "tasks"), Get(body.value, "task"));
            batch.Some? && JNull !in batch.value &&
            (exists i :: 0 <= i < |batch.value| && !TruthyField(PrepareTask(batch.value[i], i).title)) ==>
            r == Rejected(400)
  {
    if admin.None? {
      return Rejected(403);
    }
    if body.None? || body.value == JNull {
      return Rejected(500);
    }
    var batch := Batch(Get(body.value, "tasks"), Get(body.value, "task"));
    if batch.None? {
      return Rejected(500);
    }
    var items := batch.value;
    if |items| == 0 {
      return Rejected(400);
    }
    if JNull in items {
      return Rejected(500);
    }
    var rows := PrepareAll(items);
    var ok := AllTitled(rows);
    if !ok {
      return Rejected(400);
    }
    var sent := insert(rows);
    if sent.Err? {
      return InsertFailed(sent.error);
    }
    return Created(rows, sent.value);
  }

  // ---------------------------------------------------------------------
  // PUT

  /** A stored task as far as the update is concerned. */
  datatype Row = Row(owner: string, status: Json, startedAt: Option<Json>)

  /** What the update reads of the stored task. */
  datatype Selected = Selected(owner: string, status: Json, startedAt: Option<Json>)

  /** `select('user_id, status')`, as written: the start time is not read. */
  function SelectAsWritten(row: Row): (s: Selected)
    ensures s.owner == row.owner && s.status == row.status && s.startedAt.None?
  {
    Selected(row.owner, row.status, None)
  }

  /** The selection the execution-time rule needs: the start time too. */
  function Select(row: Row): (s: Selected)
    ensures s.owner == row.owner && s.status == row.status && s.startedAt == row.startedAt
  {
    Selected(row.owner, row.status, row.startedAt)
  }

  predicate Has(u: map<string, Json>, k: string, v: Json)
  {
    k in u && u[k] == v
  }

  /** A move from pending to in progress. */
  predicate Starts(u: map<string, Json>, e: Selected)
  {
    Has(u, "status", JStr("in_progress")) && e.status == JStr("pending")
  }

  /** A move to completed from any other status. */
  predicate Completes(u: map<string, Json>, e: Selected)
  {
    Has(u, "status", JStr("completed")) && e.status != JStr("completed")
  }

  /** `updates.started_at || existingTask.started_at`, when truthy. */
  function StartOf(u: map<string, Json>, e: Selected): Option<Json>
  {
    if "started_at" in u && Truthy(u["started_at"]) then Some(u["started_at"])
    else if TruthyField(e.startedAt) then e.startedAt
    else None
  }

  /** The update after the status rules, case by case. `now` is the time
      as ISO text, `nowMs` in milliseconds, `time` reads a stored time. */
  function Stamped(u: map<string, Json>, e: Selected, now: string, nowMs: int, time: Json -> int)
    : (r: map<string, Json>)
    ensures u.Keys <= r.Keys <= u.Keys + TimeFields
    ensures forall k :: k in u && k !in TimeFields ==> r[k] == u[k]
  {
    if Starts(u, e) then u["started_at" := JStr(now)]
    else if Completes(u, e) then
      var c := u["completed_at" := JStr(now)];
      if StartOf(u, e).Some? then c["execution_time_ms" := JNum((nowMs - time(StartOf(u, e).value)) as real)]
      else c
    else u
  }

  /** The status rules as the route applies them to the update in place. */
  method Stamp(updates: map<string, Json>, existing: Selected, now: string, nowMs: int, time: Json -> int)
    returns (u: map<string, Json>)
    ensures u == Stamped(updates, existing, now, nowMs, time)
  {
    u := updates;
    if "status" in u && Truthy(u["status"]) {
      if u["status"] == JStr("in_progress") && existing.status == JStr("pending") {
        u := u["started_at" := JStr(now)];
      }
      if u["status"] == JStr("completed") && existing.status != JStr("completed") {
        u := u["completed_at" := JStr(now)];
        if ("started_at" in u && Truthy(u["started_at"])) || TruthyField(existing.startedAt) {
          var start := if "started_at" in u && Truthy(u["started_at"]) then u["started_at"] else existing.startedAt.value;
          u := u["execution_time_ms" := JNum((nowMs - time(start)) as real)];
        }
      }
    }
  }

  const TimeFields := {"started_at", "completed_at", "execution_time_ms"}

  /** A field the route changes or adds: the start only on pending to in
      progress, the completion only on a move to completed from another
      status, the execution time only then and only when a start time is
      known; and in those cases they are set. */
  lemma {:induction false} StampWhen(u: map<string, Json>, e: Selected, now: string, nowMs: int,
                                     time: Json -> int)
    ensures var r := Stamped(u, e, now, nowMs, time);
      (Starts(u, e) ==> r == u["started_at" := JStr(now)]) &&
      ("started_at" in r && !Has(u, "started_at", r["started_at"]) ==> Starts(u, e)) &&
      (Completes(u, e) ==> Has(r, "completed_at", JStr(now))) &&
      ("completed_at" in r && !Has(u, "completed_at", r["completed_at"]) ==> Completes(u, e)) &&
      ("execution_time_ms" in r && !Has(u, "execution_time_ms", r["execution_time_ms"]) ==>
        Completes(u, e) && StartOf(u, e).Some?) &&
      (Completes(u, e) && StartOf(u, e).Some? ==>
        r["execution_time_ms"] == JNum((nowMs - time(StartOf(u, e).value)) as real))
  {
    if Starts(u, e) {
      assert !Completes(u, e);
    }
  }

  /** As written: a task started earlier and now completed gets no
      execution time, because the stored start time is never read. */
  lemma {:induction false} StoredStartIgnored(row: Row, u: map<string, Json>, now: string, nowMs: int,
                                              time: Json -> int)
    requires Has(u, "status", JStr("completed")) && row.status != JStr("completed")
    requires "started_at" !in u && "execution_time_ms" !in u
    requires TruthyField(row.startedAt)
    ensures "execution_time_ms" !in Stamped(u, SelectAsWritten(row), now, nowMs, time)
  {
    assert StartOf(u, SelectAsWritten(row)).None?;
  }

  /** Reading the start time as well: the same update records the time
      since the stored start. */
  lemma {:induction false} StoredStartTimed(row: Row, u: map<string, Json>, now: string, nowMs: int,
                                            time: Json -> int)
    requires Has(u, "status", JStr("completed")) && row.status != JStr("completed")
    requires "started_at" !in u
    requires TruthyField(row.startedAt)
    ensures Stamped(u, Select(row), now, nowMs, time)["execution_time_ms"] ==
      JNum((nowMs - time(row.startedAt.value)) as real)
  {
    assert StartOf(u, Select(row)) == row.startedAt;
  }

  /** The fields of the body other than `id`. */
  function Updates(body: Json): (u: map<string, Json>)
    ensures "id" !in u
    ensures body.JObj? ==> forall k :: k != "id" ==> (k in u <==> Get(body, k).Some?)
  {
    if body.JObj? then FieldMap(body.fields) - {"id"} else map[]
  }

  /** What the PUT handler answers when the stored task is read through
      `stored` and the update is written through `store`: 403 for a
      non-administrator, 400 without an id, 404 for an unknown task, 403 for
      another user's task; otherwise the body's fields stamped by the status
      rules are sent, and the answer is 200 with the stored row when the
      update succeeds and 500 "Failed to update task" when it fails. */
  ghost predicate PutAnswers(admin: Option<string>, body: Option<Json>, find: Json -> Option<Row>,
                             now: string, nowMs: int, time: Json -> int, stored: Row -> Selected,
                             store: map<string, Json> -> Result<Json, string>,
                             status: nat, update: Option<map<string, Json>>, saved: Option<Json>)
  {
    (saved.Some? <==> status == 200) &&
    (status == 200 ==> update.Some?) &&
    (update.Some? ==> store(update.value).Ok? == (status == 200)) &&
    (update.Some? && status == 200 ==> saved == Some(store(update.value).value)) &&
    (update.Some? && status != 200 ==> status == 500) &&
    (admin.None? ==> status == 403 && update.None?) &&
    (admin.Some? && body.Some? && body.value != JNull && !TruthyField(Get(body.value, "id")) ==>
      status == 400 && update.None?) &&
    (admin.Some? && body.Some? && TruthyField(Get(body.value, "id")) ==>
      var row := find(Get(body.value, "id").value);
      (row.None? ==> status == 404 && update.None?) &&
      (row.Some? && row.value.owner != admin.value ==> status == 403 && update.None?) &&
      (row.Some? && row.value.owner == admin.value ==>
        update == Some(Stamped(Updates(body.value), stored(row.value), now, nowMs, time))))
  }

  /** PUT, as the route is written: the stored task is read without its
      start time. `find` stands for the row lookup and `store` for the
      update of that row. */
  method PutTask(admin: Option<string>, body: Option<Json>, find: Json -> Option<Row>,
                 now: string, nowMs: int, time: Json -> int, store: map<string, Json> -> Result<Json, string>)
    returns (status: nat, update: Option<map<string, Json>>, saved: Option<Json>)
    ensures PutAnswers(admin, body, find, now, nowMs, time, SelectAsWritten, store, status, update, saved)
  {
    status, update, saved := PutWith(admin, body, find, now, nowMs, time, SelectAsWritten, store);
  }

  /** PUT with the stored start time selected too, so a completion can time
      itself against a start recorded by an earlier update. */
  method PutTaskCorrected(admin: Option<string>, body: Option<Json>, find: Json -> Option<Row>,
                          now: string, nowMs: int, time: Json -> int,
                          store: map<string, Json> -> Result<Json, string>)
    returns (status: nat, update: Option<map<string, Json>>, saved: Option<Json>)
    ensures PutAnswers(admin, body, find, now, nowMs, time, Select, store, status, update, saved)
  {
    status, update, saved := PutWith(admin, body, find, now, nowMs, time, Select, store);
  }

  method PutWith(admin: Option<string>, body: Option<Json>, find: Json -> Option<Row>,
                 now: string, nowMs: int, time: Json -> int, stored: Row -> Selected,
                 store: map<string, Json> -> Result<Json, string>)
    returns (status: nat, update: Option<map<string, Json>>, saved: Option<Json>)
    ensures PutAnswers(admin, body, find, now, nowMs, time, stored, store, status, update, saved)
  {
    if admin.None? {
      return 403, None, None;
    }
    if body.None? || body.value == JNull {
      return 500, None, None;
    }
    var id := Get(body.value, "id");
    if !TruthyField(id) {
      return 400, None, None;
    }
    var row := find(id.value);
    var gate := Ownership(if row.Some? then Some(row.value.owner) else None, admin.value);
    if gate == NotFound {
      return 404, None, None;
    }
    if gate == NotOwner {
      return 403, None, None;
    }
    var u := Stamp(Updates(body.value), stored(row.value), now, nowMs, time);
    var written := store(u);
    if written.Err? {
      return 500, Some(u), None;
    }
    return 200, Some(u), Some(written.value);
  }
}
