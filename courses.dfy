/** The course routes. Reads are public; create, update and delete sit behind
    `requireAuth` and `requireRole(["instructor", "admin"])`, whose outcome
    is the `auth` input. Each table call is an oracle from what is sent to
    what comes back; rows are of an arbitrary type `Row`. */
module Courses {
  import opened Js
  import opened AuthGate

  /** The roles allowed to change courses. */
  const Staff: seq<string> := ["instructor", "admin"]

  /** `GET /courses`: the rows ordered by id, descending; if that query
      fails, the rows unordered; `data || []` either way. */
  function ListCourses<Row>(ordered: Fetch<seq<Row>>, unordered: Fetch<seq<Row>>): (r: Reply<seq<Row>>)
    ensures ordered.Fetched? ==> r == Ok(200, RowsOrEmpty(ordered.data))
    ensures ordered.FetchError? && unordered.FetchError? ==> r == Fail(500, unordered.message)
    ensures ordered.FetchError? && unordered.Fetched? ==> r == Ok(200, RowsOrEmpty(unordered.data))
    ensures r.Fail? ==> ordered.FetchError? && unordered.FetchError?
  {
    match ordered
    case Fetched(data) => Ok(200, RowsOrEmpty(data))
    case FetchError(_) =>
      match unordered
      case FetchError(message) => Fail(500, message)
      case Fetched(data) => Ok(200, RowsOrEmpty(data))
  }

  /** The fallback query matters only when the ordered one fails. */
  lemma FallbackOnlyOnError<Row>(ordered: Fetch<seq<Row>>, u1: Fetch<seq<Row>>, u2: Fetch<seq<Row>>)
    requires ordered.Fetched?
    ensures ListCourses(ordered, u1) == ListCourses(ordered, u2)
  {
  }

  /** `GET /courses/:id`: every error of the single-row read, a missing row
      among them, is a 404. */
  function GetCourse<Row>(id: string, fetch: string -> Fetch<Row>): (r: Reply<Option<Row>>)
    ensures fetch(id).FetchError? <==> r == Fail(404, Some("Course not found"))
    ensures fetch(id).Fetched? ==> r == Ok(200, fetch(id).data)
  {
    match fetch(id)
    case FetchError(_) => Fail(404, Some("Course not found"))
    case Fetched(data) => Ok(200, data)
  }

  /** The fields of a `POST /courses` body; `None` is `undefined`. */
  datatype CourseBody = CourseBody(
    title: Option<Scalar>,
    description: Option<Scalar>,
    thumbnailUrl: Option<Scalar>,
    isPremium: Option<Scalar>,
    price: Option<Scalar>)

  /** The row `POST /courses` inserts. */
  datatype NewCourse = NewCourse(
    title: Option<Scalar>,
    description: Option<Scalar>,
    instructorId: string,
    thumbnailUrl: Option<Scalar>,
    isPremium: Scalar,
    price: Scalar)

  /** A destructuring default: it replaces `undefined` only, not `null`. */
  function Defaulted(v: Option<Scalar>, default: Scalar): (r: Scalar)
    ensures v.Some? ==> r == v.value
    ensures v.None? ==> r == default
  {
    if v.Some? then v.value else default
  }

  /** The insert payload: the caller is the instructor, `is_premium` defaults
      to `false` and `price` to `0`; a missing body reads as `{}`. */
  function CreatePayload(caller: Claims, body: Option<CourseBody>): (p: NewCourse)
    ensures p.instructorId == caller.id
    ensures body.None? ==> p == NewCourse(None, None, caller.id, None, Bool(false), Num(0.0))
    ensures body.Some? ==>
              && p.title == body.value.title && p.description == body.value.description
              && p.thumbnailUrl == body.value.thumbnailUrl
              && p.isPremium == Defaulted(body.value.isPremium, Bool(false))
              && p.price == Defaulted(body.value.price, Num(0.0))
  {
    var b := if body.Some? then body.value else CourseBody(None, None, None, None, None);
    NewCourse(b.title, b.description, caller.id, b.thumbnailUrl,
              Defaulted(b.isPremium, Bool(false)), Defaulted(b.price, Num(0.0)))
  }

  /** An explicit `null` price is kept (the default replaces `undefined`
      only), and the course is still filed under the caller. */
  lemma NullPriceKept(caller: Claims, b: CourseBody)
    requires b.price == Some(Null)
    ensures CreatePayload(caller, Some(b)).price == Null
    ensures CreatePayload(caller, Some(b)).instructorId == caller.id
  {
  }

  /** `POST /courses`. */
  function CreateCourse<Row>(auth: Gate, body: Option<CourseBody>, insert: NewCourse -> Fetch<Row>): (r: Reply<Option<Row>>)
    ensures auth.Deny? ==> r == Fail(auth.status, Some(auth.message))
    ensures auth.Pass? && insert(CreatePayload(auth.user, body)).FetchError? ==>
              r == Fail(400, insert(CreatePayload(auth.user, body)).message)
    ensures auth.Pass? && insert(CreatePayload(auth.user, body)).Fetched? ==>
              r == Ok(201, insert(CreatePayload(auth.user, body)).data)
  {
    match auth
    case Deny(status, message) => Fail(status, Some(message))
    case Pass(user) =>
      match insert(CreatePayload(user, body))
      case FetchError(message) => Fail(400, message)
      case Fetched(data) => Ok(201, data)
  }

  /** `PATCH /courses/:id`: the body goes to the update unchanged. */
  function UpdateCourse<Body, Row>(auth: Gate, id: string, body: Body, update: (string, Body) -> Fetch<Row>): (r: Reply<Option<Row>>)
    ensures auth.Deny? ==> r == Fail(auth.status, Some(auth.message))
    ensures auth.Pass? && update(id, body).FetchError? ==> r == Fail(400, update(id, body).message)
    ensures auth.Pass? && update(id, body).Fetched? ==> r == Ok(200, update(id, body).data)
  {
    match auth
    case Deny(status, message) => Fail(status, Some(message))
    case Pass(_) =>
      match update(id, body)
      case FetchError(message) => Fail(400, message)
      case Fetched(data) => Ok(200, data)
  }

  /** `DELETE /courses/:id`; `remove(id)` is the delete's error, if any. A
      success is a 204 with no body. */
  function DeleteCourse(auth: Gate, id: string, remove: string -> Option<Option<string>>): (r: Reply<()>)
    ensures auth.Deny? ==> r == Fail(auth.status, Some(auth.message))
    ensures auth.Pass? && remove(id).Some? ==> r == Fail(400, remove(id).value)
    ensures auth.Pass? && remove(id).None? ==> r == Ok(204, ())
  {
    match auth
    case Deny(status, message) => Fail(status, Some(message))
    case Pass(_) =>
      match remove(id)
      case Some(message) => Fail(400, message)
      case None => Ok(204, ())
  }

  /** A caller whose effective role is not staff (a student, or a token
      without a role) gets 403 from every changing route, and no table call
      is made on its behalf: the reply does not depend on the oracles. */
  lemma StudentsCannotChangeCourses<Body, Row>(header: Option<string>, verify: string -> Option<Claims>,
                                               body: Option<CourseBody>, id: string, patch: Body,
                                               insert: NewCourse -> Fetch<Row>,
                                               update: (string, Body) -> Fetch<Row>,
                                               remove: string -> Option<Option<string>>)
    requires BearerToken(header).Some? && verify(BearerToken(header).value).Some?
    requires EffectiveRole(verify(BearerToken(header).value).value) !in Staff
    ensures CreateCourse(Guard(header, verify, Staff), body, insert) == Fail(403, Some("Forbidden"))
    ensures UpdateCourse(Guard(header, verify, Staff), id, patch, update) == Fail(403, Some("Forbidden"))
    ensures DeleteCourse(Guard(header, verify, Staff), id, remove) == Fail(403, Some("Forbidden"))
  {
    GuardPasses(header, verify, Staff);
  }

  /** Every verified instructor or admin passes the guard, and the course it
      creates is filed under its own id. */
  lemma InstructorOwnsNewCourse(header: Option<string>, verify: string -> Option<Claims>, body: Option<CourseBody>)
    requires BearerToken(header).Some? && verify(BearerToken(header).value).Some?
    requires EffectiveRole(verify(BearerToken(header).value).value) in Staff
    ensures Guard(header, verify, Staff).Pass?
    ensures Guard(header, verify, Staff).user == verify(BearerToken(header).value).value
    ensures CreatePayload(Guard(header, verify, Staff).user, body).instructorId ==
              verify(BearerToken(header).value).value.id
  {
    GuardPasses(header, verify, Staff);
  }
}
