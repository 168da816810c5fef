/** The progress routes. The progress table is a map keyed on
    (user id, course id), so there is at most one record per pair; a remote
    failure of the read or of the upsert is an input. Timestamps are the
    input `now`. */
module Progress {
  import opened Js
  import opened AuthGate

  /** A progress record. */
  datatype ProgressRow = ProgressRow(
    userId: string,
    courseId: Scalar,
    completedPercent: Scalar,
    lastWatchedLessonId: Scalar,
    createdAt: string,
    updatedAt: string)

  type Table = map<(string, Scalar), ProgressRow>

  /** A table whose every record sits under its own (user, course) key. */
  predicate WellKeyed(table: Table)
  {
    forall k :: k in table ==> table[k].userId == k.0 && table[k].courseId == k.1
  }

  /** The record `GET` synthesises when there is none. */
  function DefaultProgress(userId: string, courseId: string, now: string): ProgressRow
  {
    ProgressRow(userId, Str(courseId), Num(0.0), Null, now, now)
  }

  /** `GET /progress/:userId/:courseId` behind `requireAuth`. `readFailed`
      says the single-row read reported an error other than "no row". */
  function GetProgress(auth: Gate, userId: string, courseId: string, table: Table, readFailed: bool, now: string): (r: Reply<ProgressRow>)
    ensures auth.Deny? ==> r == Fail(auth.status, Some(auth.message))
    ensures auth.Pass? && auth.user.id != userId ==> r == Fail(403, Some("Forbidden"))
    ensures auth.Pass? && auth.user.id == userId ==> r.Ok? && r.status == 200
    ensures auth.Pass? && auth.user.id == userId && (readFailed || (userId, Str(courseId)) !in table) ==>
              && r.body.userId == userId && r.body.courseId == Str(courseId)
              && r.body.completedPercent == Num(0.0) && r.body.lastWatchedLessonId == Null
              && r.body.createdAt == now && r.body.updatedAt == now
    ensures auth.Pass? && auth.user.id == userId && !readFailed && (userId, Str(courseId)) in table ==>
              r.body == table[(userId, Str(courseId))]
  {
    match auth
    case Deny(status, message) => Fail(status, Some(message))
    case Pass(user) =>
      if user.id != userId then Fail(403, Some("Forbidden"))
      else
        var key := (userId, Str(courseId));
        if readFailed || key !in table then Ok(200, DefaultProgress(userId, courseId, now))
        else Ok(200, table[key])
  }

  /** The ownership check comes before the read: a caller asking for another
      user's progress is refused whatever the table holds. */
  lemma ForbiddenWithoutRead(auth: Gate, userId: string, courseId: string, t1: Table, t2: Table, f1: bool, f2: bool, now: string)
    requires auth.Pass? && auth.user.id != userId
    ensures GetProgress(auth, userId, courseId, t1, f1, now) == GetProgress(auth, userId, courseId, t2, f2, now)
    ensures GetProgress(auth, userId, courseId, t1, f1, now).Fail?
  {
  }

  /** `{ courseId, completedPercent }` of the request body. */
  datatype UpdateBody = UpdateBody(courseId: Option<Scalar>, completedPercent: Option<Scalar>)

  /** The upsert payload; a `None` field is left out of it. */
  datatype Payload = Payload(userId: string, courseId: Option<Scalar>, completedPercent: Option<Scalar>)

  /** The payload of `POST /progress/update`: the user is always the caller. */
  function UpdatePayload(caller: Claims, body: UpdateBody): (p: Payload)
    ensures p.userId == caller.id
    ensures p.courseId == body.courseId && p.completedPercent == body.completedPercent
  {
    Payload(caller.id, body.courseId, body.completedPercent)
  }

  /** The key a payload is stored under; a missing course id is `null`. */
  function KeyOf(p: Payload): (string, Scalar)
  {
    (p.userId, if p.courseId.Some? then p.courseId.value else Null)
  }

  /** The percent a write leaves: the payload's when it carries one,
      otherwise `current`. */
  function Written(p: Payload, current: Scalar): Scalar
  {
    if p.completedPercent.Some? then p.completedPercent.value else current
  }

  /** The upsert with conflict target (user_id, course_id). An existing record
      has only the columns the payload carries replaced; otherwise a record is
      inserted, with `null` for what the payload leaves out and both
      timestamps set to the time of the write. */
  function Upsert(table: Table, p: Payload, now: string): (t: Table)
    ensures t.Keys == table.Keys + {KeyOf(p)}
    ensures forall k :: k in table && k != KeyOf(p) ==> t[k] == table[k]
    ensures KeyOf(p) in table ==>
              var prev := table[KeyOf(p)];
              && t[KeyOf(p)].completedPercent == Written(p, prev.completedPercent)
              && t[KeyOf(p)].userId == prev.userId && t[KeyOf(p)].courseId == prev.courseId
              && t[KeyOf(p)].lastWatchedLessonId == prev.lastWatchedLessonId
              && t[KeyOf(p)].createdAt == prev.createdAt && t[KeyOf(p)].updatedAt == prev.updatedAt
    ensures KeyOf(p) !in table ==>
              t[KeyOf(p)] == ProgressRow(p.userId, KeyOf(p).1, Written(p, Null), Null, now, now)
    ensures p.completedPercent.Some? ==> t[KeyOf(p)].completedPercent == p.completedPercent.value
    ensures WellKeyed(table) ==> WellKeyed(t)
  {
    var key := KeyOf(p);
    var row :=
      if key in table then table[key].(completedPercent := Written(p, table[key].completedPercent))
      else ProgressRow(key.0, key.1, Written(p, Null), Null, now, now);
    table[key := row]
  }

  /** Last write wins: of two updates of the same pair the second one's percent
      stays, and the pair still has exactly one record. */
  lemma UpsertLastWins(table: Table, p1: Payload, p2: Payload, now1: string, now2: string)
    requires KeyOf(p1) == KeyOf(p2) && p2.completedPercent.Some?
    ensures var t := Upsert(Upsert(table, p1, now1), p2, now2);
            && t.Keys == table.Keys + {KeyOf(p2)}
            && t[KeyOf(p2)].completedPercent == p2.completedPercent.value
  {
  }

  /** Repeating a write changes nothing more: the upsert is idempotent. */
  lemma UpsertIdempotent(table: Table, p: Payload, now: string, later: string)
    ensures Upsert(Upsert(table, p, now), p, later) == Upsert(table, p, now)
  {
    var t1 := Upsert(table, p, now);
    var t2 := Upsert(t1, p, later);
    assert t2[KeyOf(p)] == t1[KeyOf(p)];
  }

  /** A write without a percent to a pair that has a record leaves the table
      as it was. */
  lemma UpsertWithoutPercent(table: Table, p: Payload, now: string)
    requires KeyOf(p) in table && p.completedPercent.None?
    ensures Upsert(table, p, now) == table
  {
    assert Upsert(table, p, now)[KeyOf(p)] == table[KeyOf(p)];
  }

  /** `POST /progress/update` behind `requireAuth`; `writeError` is the
      upsert's error, if any. Returns the reply and the table afterwards. */
  function UpdateProgress(auth: Gate, body: UpdateBody, table: Table, writeError: Option<Option<string>>, now: string): (r: (Reply<ProgressRow>, Table))
    ensures auth.Deny? ==> r == (Fail(auth.status, Some(auth.message)), table)
    ensures auth.Pass? && writeError.Some? ==> r == (Fail(400, writeError.value), table)
    ensures auth.Pass? && writeError.None? ==>
              var key := KeyOf(UpdatePayload(auth.user, body));
              && key.0 == auth.user.id
              && r.1 == Upsert(table, UpdatePayload(auth.user, body), now)
              && r.0 == Ok(200, r.1[key])
  {
    match auth
    case Deny(status, message) => (Fail(status, Some(message)), table)
    case Pass(user) =>
      if writeError.Some? then (Fail(400, writeError.value), table)
      else
        var p := UpdatePayload(user, body);
        var t := Upsert(table, p, now);
        (Ok(200, t[KeyOf(p)]), t)
  }

  /** A user who records a percent for a course reads that percent back. */
  lemma ReadYourWrite(auth: Gate, courseId: string, percent: Scalar, table: Table, now: string, later: string)
    requires auth.Pass?
    ensures var body := UpdateBody(Some(Str(courseId)), Some(percent));
            var t := UpdateProgress(auth, body, table, None, now).1;
            GetProgress(auth, auth.user.id, courseId, t, false, later) == Ok(200, t[(auth.user.id, Str(courseId))]) &&
            t[(auth.user.id, Str(courseId))].completedPercent == percent
  {
    var body := UpdateBody(Some(Str(courseId)), Some(percent));
    assert KeyOf(UpdatePayload(auth.user, body)) == (auth.user.id, Str(courseId));
  }
}
