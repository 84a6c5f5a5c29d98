/** The question endpoints of the AI manager
    (app/api/ai-manager/questions/route.ts): creating clarification
    questions, with their defaults and the text check, and answering or
    re-labelling one. The database and the clock are parameters. */
module ManagerQuestions {
  import opened Wrappers
  import opened Json
  import opened AIManager

  // ---------------------------------------------------------------------
  // POST

  /** The answer to POST: a rejection with its status, the 500 of a failed
      insert with the database's message, or the 201 with the rows sent to
      the database and the rows it returned. */
  datatype PostReply = Rejected(status: nat) | InsertFailed(details: string) | Created(rows: seq<Question>, data: Json)

  /** The batch with each question prepared (`questionsToInsert.map`). */
  function PrepareAll(items: seq<Json>): (rows: seq<Question>)
    ensures |rows| == |items| && forall i :: 0 <= i < |items| ==> rows[i] == Prepare(items[i])
  {
    seq(|items|, i requires 0 <= i < |items| => Prepare(items[i]))
  }

  /** `intent_id || null` and the shared question defaults. */
  function Prepare(q: Json): (r: Question)
    ensures !TruthyField(Get(q, "intent_id")) ==> r.intentId == JNull
  {
    PrepareQuestion(q, Or(Get(q, "intent_id"), JNull))
  }

  /** The check loop: every prepared question has a text. */
  method AllWorded(rows: seq<Question>) returns (ok: bool)
    ensures ok <==> forall i :: 0 <= i < |rows| ==> TruthyField(rows[i].text)
  {
    for i := 0 to |rows|
      invariant forall j :: 0 <= j < i ==> TruthyField(rows[j].text)
    {
      if !TruthyField(rows[i].text) {
        return false;
      }
    }
    return true;
  }

  /** POST: the body's `questions`, or its single `question`, prepared;
      nothing is inserted unless every question has a text. `insert` is
      the database insert with `.select()`: the stored rows, or the
      error's message. */
  method PostQuestions(admin: Option<string>, body: Option<Json>, insert: seq<Question> -> Result<Json, string>)
    returns (r: PostReply)
    ensures admin.None? ==> r == Rejected(403)
    ensures admin.Some? && (body.None? || body.value == JNull) ==> r == Rejected(500)
    ensures r.Rejected? ==> r.status in {400, 403, 500}
    ensures r.Created? ==>
      admin.Some? && body.Some? &&
      var batch := Batch(Get(body.value, "questions"), Get(body.value, "question"));
      batch.Some? && |r.rows| == |batch.value| > 0 &&
      forall i :: 0 <= i < |r.rows| ==>
        r.rows[i] == Prepare(batch.value[i]) && TruthyField(r.rows[i].text) && r.rows[i].status == "pending"
    ensures admin.Some? && body.Some? && body.value != JNull ==>
            var batch := Batch(Get(body.value, "questions"), Get(body.value, "question"));
            batch.Some? && |batch.value| > 0 && JNull !in batch.value &&
            (forall i :: 0 <= i < |batch.value| ==> TruthyField(Prepare(batch.value[i]).text)) ==>
            var sent := insert(PrepareAll(batch.value));
            (sent.Ok? ==> r == Created(PrepareAll(batch.value), sent.value)) &&
            (sent.Err? ==> r == InsertFailed(sent.error))
    ensures r.InsertFailed? || r.Created? ==> admin.Some? && body.Some?
    ensures admin.Some? && body.Some? && body.value != JNull &&
            Batch(Get(body.value, "questions"), Get(body.value, "question")) == Some([])
            ==> r == Rejected(400)
    ensures admin.Some? && body.Some? && body.value != JNull ==>
            var batch := Batch(Get(body.value, "questions"), Get(body.value, "question"));
            batch.Some? && JNull !in batch.value &&
            (exists i :: 0 <= i < |batch.value| && !TruthyField(Prepare(batch.value[i]).text)) ==>
            r == Rejected(400)
  {
    if admin.None? {
      return Rejected(403);
    }
    if body.None? || body.value == JNull {
      return Rejected(500);
    }
    var batch := Batch(Get(body.value, "questions"), Get(body.value, "question"));
    if batch.None? {
      return Rejected(500);
    }
    var items := batch.value;
    if |items| == 0 {
      return Rejected(400);
    }
    if JNull in items {
      return Rejected(500);
    }
    var rows := PrepareAll(items);
    var ok := AllWorded(rows);
    if !ok {
      return Rejected(400);
    }
    var sent := insert(rows);
    if sent.Err? {
      return InsertFailed(sent.error);
    }
    return Created(rows, sent.value);
  }

  // ---------------------------------------------------------------------
  // PUT

  /** The update built field by field: an answer that is given (even as
      `null`) is stored with its time and marks the question answered; a
      truthy `status` wins over that. */
  method AnswerUpdate(answer: Option<Json>, newStatus: Option<Json>, now: string) returns (u: map<string, Json>)
    ensures u.Keys <= {"answer", "answered_at", "status"}
    ensures ("answer" in u <==> answer.Some?) && ("answered_at" in u <==> answer.Some?)
    ensures answer.Some? ==> u["answer"] == answer.value && u["answered_at"] == JStr(now)
    ensures "status" in u <==> answer.Some? || TruthyField(newStatus)
    ensures TruthyField(newStatus) ==> u["status"] == newStatus.value
    ensures answer.Some? && !TruthyField(newStatus) ==> u["status"] == JStr("answered")
  {
    u := map[];
    if answer.Some? {
      u := u["answer" := answer.value];
      u := u["answered_at" := JStr(now)];
      u := u["status" := JStr("answered")];
    }
    if TruthyField(newStatus) {
      u := u["status" := newStatus.value];
    }
  }

  /** PUT: the question must exist and belong to the caller. `owner`
      stands for the row lookup (the owner's id, `None` when there is no
      such question) and `store` for the update of that row: 200 with the
      stored row when it succeeds, 500 "Failed to update question" when it
      fails. */
  method PutQuestion(admin: Option<string>, body: Option<Json>, owner: Json -> Option<string>, now: string,
                     store: map<string, Json> -> Result<Json, string>)
    returns (status: nat, update: Option<map<string, Json>>, saved: Option<Json>)
    ensures saved.Some? <==> status == 200
    ensures status == 200 ==> update.Some?
    ensures update.Some? ==> (store(update.value).Ok? <==> status == 200)
    ensures update.Some? && status == 200 ==> saved == Some(store(update.value).value)
    ensures update.Some? && status != 200 ==> status == 500
    ensures admin.None? ==> status == 403 && update.None?
    ensures admin.Some? && body.Some? && body.value != JNull && !TruthyField(Get(body.value, "id")) ==>
      status == 400 && update.None?
    ensures admin.Some? && body.Some? && TruthyField(Get(body.value, "id")) ==>
      var o := owner(Get(body.value, "id").value);
      (o.None? ==> status == 404 && update.None?) &&
      (o.Some? && o.value != admin.value ==> status == 403 && update.None?) &&
      (o.Some? && o.value == admin.value ==> update.Some?)
    ensures update.Some? ==>
      (body.Some? &&
       var answer := Get(body.value, "answer");
       update.value.Keys <= {"answer", "answered_at", "status"} &&
       ("answer" in update.value <==> answer.Some?) &&
       ("answered_at" in update.value <==> answer.Some?) &&
       (answer.Some? ==> update.value["answer"] == answer.value && update.value["answered_at"] == JStr(now)))
    ensures update.Some? ==>
      (body.Some? &&
       var answer := Get(body.value, "answer");
       var s := Get(body.value, "status");
       ("status" in update.value <==> answer.Some? || TruthyField(s)) &&
       (TruthyField(s) ==> update.value["status"] == s.value) &&
       (answer.Some? && !TruthyField(s) ==> update.value["status"] == JStr("answered")))
  {
    if admin.None? {
      return 403, None, None;
    }
    if body.None? || body.value == JNull {
      return 500, None, None;
    }
    var id := Get(body.value, "id");
    if !TruthyField(id) {
      return 400, None, None;
    }
    var gate := Ownership(owner(id.value), admin.value);
    if gate == NotFound {
      return 404, None, None;
    }
    if gate == NotOwner {
      return 403, None, None;
    }
    var u := AnswerUpdate(Get(body.value, "answer"), Get(body.value, "status"), now);
    var written := store(u);
    if written.Err? {
      return 500, Some(u), None;
    }
    return 200, Some(u), Some(written.value);
  }
}
