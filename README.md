# EduVerse backend: the decision logic of the REST layer

EduVerse's backend is an Express application over a hosted service that
provides authentication, tables and storage. Almost every route passes a
request to that service and relays the answer. This project models the
logic that sits on top of those calls, and proves what it promises:

- **Quiz scoring** (`Quiz`). Submitted answers become an id → selection map in
  which the last duplicate wins. The stored questions are counted with a
  strict match against `correct_index`, and the result is turned into a
  rounded percentage that is guarded against an empty quiz. Listing questions
  normalises each row's `options` column: stored text is decoded, a list is
  kept, and anything else becomes the empty list.
- **Authentication middleware** (`AuthGate`). `requireAuth` extracts a
  `Bearer ` token and verifies it. `requireRole` checks the caller's role,
  `"student"` by default, against an allow-list.
- **Account routes** (`AuthRoutes`):
  - Sign-up validates its input and defaults the role, with at most two
    profile upserts.
  - Login allows at most one forced e-mail confirmation and one second
    sign-in. The role and name precedence decides the token's claims.
  - The profile endpoint merges the token with the stored profile.
- **Progress** (`Progress`). Callers may read only their own records. A
  missing record is replaced by a synthesised zero record. Updates are an
  upsert keyed on (user, course), modelled as a map update.
- **CORS policy** (`Cors`). `FRONTEND_URL` becomes a trimmed, comma-separated
  list of origins. In production the deployed front end is appended when it
  is absent. The per-request origin predicate decides each request.
- **Courses** (`Courses`):
  - Listing falls back to an unordered query.
  - A failed single read becomes a 404.
  - Create, update and delete are role-guarded.
  - The create payload's defaults apply, and the instructor is forced to be
    the caller.
- **Demo seeding** (`Seed`). The handler picks an instructor and builds six
  demo courses. For each inserted course it builds three lessons and three
  quiz questions, and it counts only the batches whose insert succeeded.

Shared building blocks are:

- `Js`: optional values, JSON scalars, truthiness, `||`, replies, and the
  `{ data, error }` shape of remote calls.
- `JsString`: `startsWith`, `split`, `join`, `trim`, and a case-insensitive
  literal pattern test.
- `JsonList`: `JSON.stringify` and `JSON.parse` on arrays of strings, which is
  what the seeding stores in a quiz's `options` column.

Every remote call is an input to the model:

- a table read or write;
- a sign-in, user listing, user creation or confirmation;
- token verification and token signing.

A call is passed in either as its outcome or as an oracle from what is sent
to what comes back. Handlers that make several calls in sequence (sign-up,
login, seeding) return the trace of calls they made, so the retry bounds and
the call order can be stated.

## Model

| member | source | states |
|---|---|---|
| Js.Or | src/routes/auth.routes.js:116 | `a \|\| b`: the first operand when it is truthy, otherwise the second; the result is truthy iff either operand is |
| Js.OrDefault | src/middleware/supabaseAuth.js:18 | `a \|\| literal`: the operand when truthy, otherwise the non-empty literal; never empty |
| Js.FirstTruthy | src/routes/auth.routes.js:136 | a chain `c0 \|\| c1 \|\| … \|\| default` yields the first truthy candidate, or the default when none is; the result is never empty and is one of the candidates or the default |
| JsString.SplitHead | src/routes/seed.routes.js:98 | the first piece of a split is a prefix of the text that runs up to the first separator, or is the whole text when there is none |
| JsString.Split | src/index.js:21 | the pieces of `split(',')` contain no separator, and there is always at least one |
| JsString.JoinSplit | src/index.js:21 | joining the pieces of a split with the separator gives back the original text |
| JsString.SplitJoin | src/index.js:21 | splitting a join of separator-free pieces gives back those pieces |
| JsString.Trim | src/index.js:21 | `trim()` removes exactly the leading and trailing ECMAScript white space: the result is a contiguous slice, everything outside it is white space, and it neither starts nor ends with white space |
| JsString.TrimIdempotent | src/index.js:21 | trimming twice is trimming once |
| JsString.ContainsFoldFrom | src/routes/auth.routes.js:79 | the case-insensitive scan finds the pattern iff it occurs at some offset at or after the start |
| JsonList.HexValue | src/routes/quiz.routes.js:15 | a character has a value iff it is a hexadecimal digit of either case; the value is below 16 and is the one whose lower-case digit is that character (upper-case letters read as their lower-case partners) |
| JsonList.HexUpperRoundTrip | src/routes/quiz.routes.js:15 | the upper-case digits `A`–`F`, which the parser accepts in `\u` escapes, read as 10–15 |
| JsonList.ParseEscaped | src/routes/quiz.routes.js:15 | parsing the escaped characters of a string followed by its closing quote returns that string and the rest of the text |
| JsonList.ParseElements | src/routes/quiz.routes.js:15 | parsing the comma-separated literals of a non-empty list returns the list and what follows the closing bracket |
| JsonList.ParseStringify | src/routes/seed.routes.js:127-132 | `JSON.parse(JSON.stringify(xs))` returns `xs` for every array of strings, the empty one included |
| AuthGate.BearerToken | src/middleware/supabaseAuth.js:4-6 | a token exists iff the header starts with exactly `"Bearer "` and has more after it; the token is the header with those 7 characters removed |
| AuthGate.BearerTokenOfHeader | src/middleware/supabaseAuth.js:5 | any non-empty token sent as `"Bearer " + token` is extracted unchanged |
| AuthGate.RequireAuth | src/middleware/supabaseAuth.js:3-14 | no token gives 401 "Unauthorized"; a token that does not verify gives 401 "Invalid token"; otherwise the request passes with exactly the verified claims, and only then |
| AuthGate.EffectiveRole | src/middleware/supabaseAuth.js:18 | the claim's role when present and non-empty, otherwise `"student"` |
| AuthGate.RequireRole | src/middleware/supabaseAuth.js:16-22 | the request passes, with the user unchanged, iff the effective role is in the allow-list; otherwise 403 "Forbidden" |
| AuthGate.GuardPasses | src/middleware/supabaseAuth.js:3-22 | the two middlewares in sequence deny only with 401 "Unauthorized", 401 "Invalid token" or 403 "Forbidden", and pass iff the token verifies and its effective role is allowed, handing on the verified claims |
| Quiz.NormaliseOptions | src/routes/quiz.routes.js:15 | a string is decoded to a list (no value when decoding throws), a list is kept as it is, anything else becomes the empty list |
| Quiz.FormatRows | src/routes/quiz.routes.js:13-16 | the listing keeps the number and order of rows and every field but `options`, each row's `options` is replaced by its normalised value (a list, for text that decodes to a list of strings), and it fails iff some row's options fail to decode |
| Quiz.FormatRowsIdempotent | src/routes/quiz.routes.js:13-16 | formatting an already formatted listing changes nothing |
| Quiz.ListQuestions | src/routes/quiz.routes.js:8-18 | a read error is a 500 with its message, missing data is an empty list, otherwise the reply is 200 with exactly the formatted rows, and there is no reply iff some row's options fail to decode |
| Quiz.IndexByIdKeys | src/routes/quiz.routes.js:29 | the answer map holds exactly the submitted ids |
| Quiz.IndexByIdLastWins | src/routes/quiz.routes.js:29 | for an id submitted several times, the map holds the selection of the last of those answers |
| Quiz.CorrectCount | src/routes/quiz.routes.js:28-32 | the number of correctly answered stored questions is at most the number of stored questions |
| Quiz.AllCorrect | src/routes/quiz.routes.js:28-32 | every question counts iff every stored question's submitted selection equals its `correct_index` |
| Quiz.NoneCorrect | src/routes/quiz.routes.js:28-32 | the count is 0 iff no stored question is answered correctly |
| Quiz.UnknownAnswerIgnored | src/routes/quiz.routes.js:29-31 | adding an answer whose id matches no stored question leaves the count unchanged |
| Quiz.SameAnswers | src/routes/quiz.routes.js:30-31 | the count depends only on the selections looked up for the stored questions' ids |
| Quiz.UnansweredNotCounted | src/routes/quiz.routes.js:31 | a stored question whose id was never submitted is not counted as correct |
| Quiz.CountCorrect | src/routes/quiz.routes.js:28-32 | the loop's counter equals the number of correctly answered stored questions, computed with the last-wins answer map, and is at most their number |
| Quiz.RoundedPercent | src/routes/quiz.routes.js:33 | the score is `100 * correct / total` rounded half up (it lies in the half-open interval around that value), and 0 when there are no questions |
| Quiz.RoundingUnique | src/routes/quiz.routes.js:33 | at most one integer satisfies that rounding condition, so the score is determined by it |
| Quiz.ScoreBounds | src/routes/quiz.routes.js:33 | with `correct <= total` the score is at most 100, all-correct gives 100, none-correct gives 0 |
| Quiz.Submit | src/routes/quiz.routes.js:22-38 | a falsy `courseId` or non-array `answers` gives 400 "Invalid payload" before any scoring; a read error gives 500; otherwise the reply carries the total, the count of correct answers, the rounded percentage (at most 100) and the submitted `courseId` |
| Quiz.SubmitRoute | src/routes/quiz.routes.js:21-38 | an unauthenticated request gets the middleware's reply; for an authenticated one, an invalid payload gets 400, a read error 500, and otherwise the scored reply with the total, the count of correct answers, the rounded percentage and the `courseId` |
| Quiz.HalfCorrect | src/routes/quiz.routes.js:28-33 | two questions with one answered correctly score 1 correct and 50 |
| AuthRoutes.RequestedRole | src/routes/auth.routes.js:10 | the role defaults to `"student"` only when the body has none |
| AuthRoutes.CreateRequest | src/routes/auth.routes.js:13-18 | the account is created already confirmed, with the given e-mail and password and the name and requested role as metadata |
| AuthRoutes.Signup | src/routes/auth.routes.js:9-73 | a missing or empty e-mail or password gives 400 with no remote call; a creation error gives 400 with its message; otherwise the reply is the created user with the requested role, whatever the upserts did. The profile upsert runs once, or twice when the first failed, always with the requested role |
| AuthRoutes.LoginClaims | src/routes/auth.routes.js:94-118 | the token payload keeps the user's id and e-mail; the role is profile role, else metadata role, else `"student"`; the name is metadata name, else profile name |
| AuthRoutes.SignInAtMostTwice | src/routes/auth.routes.js:78-89 | sign-in runs at most twice, and twice iff the first error matches "email not confirmed" (any case) and a user was listed; a forced confirmation happens only then and targets the listed user; users are listed at most once |
| AuthRoutes.Login | src/routes/auth.routes.js:76-124 | an error left after the retry step gives 401 with that error's message and no profile read; otherwise the reply carries the resolved claims and the token signed over them for seven days, after exactly the calls of the retry policy and one profile read |
| AuthRoutes.ProfileView | src/routes/auth.routes.js:136-142 | role = profile role, else token role, else `"student"`; name = token name, else profile name; every other claim unchanged |
| AuthRoutes.ProfileRoute | src/routes/auth.routes.js:127-145 | an authenticated caller gets its claims merged with its own profile row; otherwise the middleware's reply |
| AuthRoutes.ProfileAgreesWithLogin | src/routes/auth.routes.js:106-142 | with the profile unchanged since login, the profile endpoint returns the login's role and name again |
| Progress.GetProgress | src/routes/progress.routes.js:8-31 | another user's id gives 403 "Forbidden"; for one's own id, a failed read or a missing record gives the zero record (percent 0, no last lesson, the path's ids, both timestamps now), and a found record is returned unchanged |
| Progress.ForbiddenWithoutRead | src/routes/progress.routes.js:10 | the ownership check comes first: the 403 does not depend on the table or on the read's outcome |
| Progress.UpdatePayload | src/routes/progress.routes.js:35-37 | the payload's user is the authenticated caller, never taken from the body; course and percent come from the body |
| Progress.Upsert | src/routes/progress.routes.js:37-38 | afterwards exactly one record exists for the (user, course) pair. An existing record has only its percent replaced, and only when one is sent; user, course, last watched lesson and both timestamps are kept. A new record holds the pair, the sent percent (else `null`), no last lesson, and the write time. No other record changes, and records stay under their own keys |
| Progress.UpsertIdempotent | src/routes/progress.routes.js:38 | repeating the same write changes nothing more |
| Progress.UpsertWithoutPercent | src/routes/progress.routes.js:37-38 | a write without a percent to a pair that has a record leaves the table as it was |
| Progress.UpsertLastWins | src/routes/progress.routes.js:38 | of two writes to the same pair the later percent stays, and the pair still has a single record |
| Progress.UpdateProgress | src/routes/progress.routes.js:34-41 | a write error gives 400 and leaves the table as it was; otherwise the table is the upsert and the reply is the caller's record |
| Progress.ReadYourWrite | src/routes/progress.routes.js:8-41 | a user who records a percent for a course reads that record, with that percent, back |
| Cors.TrimAll | src/index.js:21 | every piece trimmed, in order, none dropped |
| Cors.ConfiguredOrigins | src/index.js:20-22 | without a (non-empty) `FRONTEND_URL`, exactly the two localhost origins; with it, its comma-separated pieces, each trimmed, in order |
| Cors.TrimAllListable | src/index.js:21 | trimming a list of already trimmed origins changes nothing |
| Cors.ConfiguredOfSplit | src/index.js:20-22 | a `FRONTEND_URL` that splits into trimmed pieces configures exactly those pieces |
| Cors.ConfiguredFromJoined | src/index.js:20-22 | writing a list of comma-free trimmed origins into `FRONTEND_URL`, comma-joined, configures exactly that list |
| Cors.AllowedOrigins | src/index.js:20-27 | the configured list comes first; outside production nothing is added; in production the deployed front end is present, appended once only if absent, and no other origin's count changes |
| Cors.OriginAllowed | src/index.js:32 | a request without an origin is always allowed, every origin is allowed outside production, and in production an origin is allowed iff it is in the list |
| Courses.ListCourses | src/routes/course.routes.js:8-31 | the ordered rows (or `[]`) when the ordered query succeeds; otherwise the unordered rows (or `[]`), and a 500 with its message only when both queries fail |
| Courses.FallbackOnlyOnError | src/routes/course.routes.js:14-18 | the unordered query plays no part when the ordered one succeeds |
| Courses.GetCourse | src/routes/course.routes.js:34-39 | any read error, a missing row included, is 404 "Course not found", and only an error is; otherwise the row |
| Courses.Defaulted | src/routes/course.routes.js:43 | a destructuring default replaces an absent value only |
| Courses.CreatePayload | src/routes/course.routes.js:43-47 | the instructor is always the caller; `is_premium` defaults to false and `price` to 0 when absent; the other fields are copied; a missing body reads as `{}` |
| Courses.NullPriceKept | src/routes/course.routes.js:43 | an explicit `null` price is kept, not replaced by 0 |
| Courses.CreateCourse | src/routes/course.routes.js:42-52 | the guard's denial is returned as is; an insert error is 400 with its message; otherwise 201 with the inserted row |
| Courses.UpdateCourse | src/routes/course.routes.js:55-60 | the guard's denial is returned as is; an update error is 400; otherwise 200 with the updated row |
| Courses.DeleteCourse | src/routes/course.routes.js:63-68 | the guard's denial is returned as is; a delete error is 400; otherwise 204 with no body |
| Courses.StudentsCannotChangeCourses | src/routes/course.routes.js:42-68 | a verified caller whose effective role is not instructor or admin (a student, or no role) gets 403 "Forbidden" from create, update and delete, whatever the table would answer |
| Courses.InstructorOwnsNewCourse | src/routes/course.routes.js:42-47 | every verified caller whose effective role is instructor or admin passes the guard with its claims unchanged, and the course it creates is filed under its own id |
| Seed.JsText | src/routes/seed.routes.js:85 | concatenating an absent message writes `undefined` |
| Seed.DemoCourses | src/routes/seed.routes.js:27-76 | exactly six courses, all filed under the chosen instructor; a course is premium iff its price is positive, which holds for every second one |
| Seed.FirstWord | src/routes/seed.routes.js:98 | `title.split(' ')[0]` is the prefix of the title up to its first space (the whole title when there is none), and contains no space |
| Seed.LessonsFor | src/routes/seed.routes.js:95-117 | three lessons per course |
| Seed.LessonsLayout | src/routes/seed.routes.js:95-117 | lesson `i` belongs to the course, sits at position `i + 1` and plays `videos/<id>/lesson-<i + 1>.mp4` |
| Seed.VideoPathsDistinct | src/routes/seed.routes.js:100-114 | for any course ids, two lessons share a video path iff they are the same lesson of the same course |
| Seed.QuizOptions | src/routes/seed.routes.js:127-154 | three option lists of four options each |
| Seed.QuizzesFor | src/routes/seed.routes.js:123-157 | three quiz questions per course |
| Seed.QuizzesLayout | src/routes/seed.routes.js:123-157 | question `k` belongs to the course, offers the `k`-th option list and marks its first option correct |
| Seed.SeededQuizReadsBack | src/routes/seed.routes.js:127-133 | a seeded question read back by the quiz listing offers its four options again, and its correct index lies within them |
| Seed.LessonsAdded | src/routes/seed.routes.js:119-120 | the lesson total is a multiple of 3 and at most 3 per course |
| Seed.QuizzesAdded | src/routes/seed.routes.js:159-160 | the quiz total is a multiple of 3 and at most 3 per course |
| Seed.LessonsAddedBounds | src/routes/seed.routes.js:119-120 | all lesson inserts succeeding gives 3 per course; all failing gives 0 |
| Seed.QuizzesAddedBounds | src/routes/seed.routes.js:159-160 | all quiz inserts succeeding gives 3 per course; all failing gives 0 |
| Seed.CourseCalls | src/routes/seed.routes.js:93-161 | two inserts per course |
| Seed.CourseCallsInOrder | src/routes/seed.routes.js:93-161 | the inserts go course by course, in the order the courses came back: the lessons of course `i`, then its quizzes |
| Seed.AddedStep | src/routes/seed.routes.js:93-161 | one more course adds its own lessons, quizzes and two inserts to the totals and the trace |
| Seed.PickInstructor | src/routes/seed.routes.js:11-24 | the first listed user when any exist; otherwise the demo instructor is created and becomes the instructor, or null when creation returned no data; reading the id of a returned null user throws |
| Seed.SeedCourses | src/routes/seed.routes.js:88-161 | the loop's counters are the per-course totals of successful inserts (each at most 3 per course) and its calls are the per-course inserts in order |
| Seed.SeedDemoData | src/routes/seed.routes.js:7-174 | a thrown error is 500; a course insert error is 400 "Failed to seed courses: …" with no lesson or quiz insert; otherwise the reply carries the number of returned courses (0 for none) and the lesson and quiz totals, after exactly the instructor, course, and per-course calls |

## Left out

- Remote calls are not modelled. Their outcomes are parameters: table reads and writes, sign-in, user listing, creation and confirmation.
- The delays before the sign-up upserts are not modelled, and neither is console logging.
- Timestamps (`new Date()`) are the input `now`. The default progress record reads the clock twice, once for `created_at` and once for `updated_at`, and the model takes both reads as one instant.
- Token signing and verification are oracles. The cryptography behind them is not modelled.
- `src/lib/supabase.js` and `src/lib/db.js` are client set-up. They are not part of this model.
- `src/models/User.model.js` and `src/models/Course.model.js` are schema declarations that no modelled route uses. They are not part of this model.
- `src/routes/payment.routes.js` and `src/routes/lesson.routes.js` are not part of this model. The first returns constant stubs. The second forwards a lesson listing, and a single-lesson read followed by a signed-URL call. It replies 404 "Lesson not found" when the lesson read fails or finds no row, and 500 with the remote message when the listing or the URL call fails.
- Express routing and CORS middleware plumbing are not modelled. The credentials option and the `GET /` and `/health` responses in `src/index.js` are also left out.
- Quiz.RoundedPercent: uses exact arithmetic. `Math.round((correct / total) * 100)` computes in binary floating point, which can round a true half differently, e.g. when the product lands just below `.5`.
- Quiz.NormaliseOptions: `JSON.parse` of a stored options string is an abstract oracle. Malformed text makes the handler throw, which is modelled as no reply.
- Quiz.NormaliseOptions: the oracle yields a list of strings. Well-formed JSON text that is not such an array (`"5"`, `"null"`, `"{}"`) decodes to a non-list `options` in the handler, and the model does not represent that outcome.
- Quiz.Answered: selections are compared as JSON scalars. JavaScript numbers are modelled as exact reals, and a selection matches only a number equal to `correct_index`.
- Progress.Upsert: a payload without a course is keyed on `null`. The database's NULL-distinct uniqueness is not modelled.
- Progress.Upsert: the key is the `courseId` JSON value as sent. The database coerces a number and its text form (`5` and `"5"`) to one `course_id` value, but the model keeps them as two pairs. A write under one form is therefore not seen by a read under the other.
- Progress.Upsert: the timestamps of an inserted record are assumed to be set to the write time by column defaults, and a missing percent is assumed to be `null`. A trigger that refreshes `updated_at` on update is not modelled, so an updated record keeps its timestamps.
- Progress.GetProgress: the read's failure is a boolean input. A read that returns no row and a read that errors are treated alike, as in the source.
- Courses.ListCourses: when both queries fail, the 500 reply also carries the whole error object as `details`. The model does not represent that field and keeps only the message. A thrown exception inside the handler, which becomes a 500 with its message or "Internal server error", is not modelled either.
- AuthRoutes.Login: `listUsers` yields at most one candidate user as an input. The login force-confirms that user without comparing e-mails, so the filter the listing applies is not modelled.
- Quiz.Submit: a `null` entry in `answers` makes the handler throw while building the map, so no reply is sent, and the model does not represent such an entry. A number, string or boolean entry has no `id` and no `selected_index`, so it acts as `Answer(None, None)`, which the model does represent.
- AuthRoutes.RequestedRole: the role is a string or absent. An explicit `role: null` escapes the default, so the handler stores and returns a `null` role, which the model does not represent.
- AuthRoutes.Signup: the outcome of the second profile upsert is not an input, because it is only logged.
- Seed.SeedDemoData: the text of the crash message is the JavaScript engine's. Other thrown errors (a title that is not a string, a failing remote call that throws) are not modelled.
- Seed.DemoCourses: prices are exact reals rather than floating-point numbers.
- JsonList.Parse: only arrays of strings are parsed. Other JSON values are refused, and so is every `\u` escape in the surrogate range `\uD800`–`\uDFFF`, paired or lone. `JSON.parse` accepts a valid surrogate pair (one character outside the Basic Multilingual Plane), which the model does not; the seeding never writes such escapes, since `JSON.stringify` writes those characters as they are.
- JsString.ContainsFoldFrom: only ASCII letters are folded, as a non-Unicode `/…/i` pattern made of ASCII letters does.
