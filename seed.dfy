/** `POST /seed/demo-data`: picks an instructor, inserts six demo courses and,
    for every course the insert returns, three lessons and three quiz
    questions. Remote calls are inputs: what the user listing returned, what
    the user creation returned, and oracles from each insert's rows to its
    outcome. The handler returns the reply and the trace of remote calls. */
module Seed {
  import opened Js
  import opened JsString
  import JsonList
  import Quiz

  /** A course row as sent to the insert. */
  datatype DemoCourse = DemoCourse(
    title: string,
    description: string,
    thumbnailUrl: string,
    isPremium: bool,
    price: real,
    instructorId: Option<string>)

  /** A course row as the insert returns it: its id (in the text form the
      templates print) and its title. */
  datatype InsertedCourse = InsertedCourse(id: string, title: string)

  datatype Lesson = Lesson(courseId: string, title: string, description: string, videoPath: string, position: nat)

  /** A quiz row as sent to the insert. The `options` column carries the
      JSON text of the list `options` (see `OptionsColumn`). */
  datatype QuizSeed = QuizSeed(courseId: string, question: string, options: seq<string>, correctIndex: int)

  /** The text stored in the `options` column: `JSON.stringify(options)`. */
  function OptionsColumn(q: QuizSeed): string
  {
    JsonList.Stringify(q.options)
  }

  datatype Call =
    | ListUsers
    | CreateInstructor
    | InsertCourses(courses: seq<DemoCourse>)
    | InsertLessons(lessons: seq<Lesson>)
    | InsertQuizzes(quizzes: seq<QuizSeed>)

  datatype Seeded = Seeded(message: string, courses: nat, lessons: nat, quizzes: nat)

  const SeededMessage: string := "Demo data seeded successfully"
  const CourseErrorPrefix: string := "Failed to seed courses: "
  /** What the engine throws when it reads `id` of a `null` user. */
  const NullUserMessage: string := "Cannot read properties of null (reading 'id')"

  /** String concatenation of a possibly `undefined` value. */
  function JsText(o: Option<string>): (r: string)
    ensures o.Some? ==> r == o.value
    ensures o.None? ==> r == "undefined"
  {
    if o.Some? then o.value else "undefined"
  }

  const ReactTitle: string := "Complete React Development Course"
  const ReactText: string := "Master React from basics to advanced concepts. Learn hooks, state management, and building real-world applications."
  const ReactImage: string := "https://picsum.photos/seed/react/400/300"
  const NodeTitle: string := "Node.js & Express.js Masterclass"
  const NodeText: string := "Build scalable backend APIs with Node.js and Express. Learn RESTful APIs, authentication, and database integration."
  const NodeImage: string := "https://picsum.photos/seed/nodejs/400/300"
  const TypeScriptTitle: string := "TypeScript for Modern Development"
  const TypeScriptText: string := "Deep dive into TypeScript. Learn type safety, advanced types, generics, and building type-safe applications."
  const TypeScriptImage: string := "https://picsum.photos/seed/typescript/400/300"
  const FullStackTitle: string := "Full-Stack JavaScript Development"
  const FullStackText: string := "Complete guide to building full-stack applications with JavaScript, React, Node.js, and databases."
  const FullStackImage: string := "https://picsum.photos/seed/fullstack/400/300"
  const MongoTitle: string := "MongoDB & Database Design"
  const MongoText: string := "Learn MongoDB from scratch. Master database design, queries, aggregation, and best practices."
  const MongoImage: string := "https://picsum.photos/seed/mongodb/400/300"
  const NextTitle: string := "Next.js 14 Complete Guide"
  const NextText: string := "Build modern web applications with Next.js 14. Learn SSR, SSG, API routes, and deployment."
  const NextImage: string := "https://picsum.photos/seed/nextjs/400/300"

  /** The six demo courses, every one filed under `instructorId`; every
      other one is premium. */
  function DemoCourses(instructorId: Option<string>): (r: seq<DemoCourse>)
    ensures |r| == 6
    ensures forall i :: 0 <= i < |r| ==> r[i].instructorId == instructorId
    ensures forall i :: 0 <= i < |r| ==> (r[i].isPremium <==> r[i].price > 0.0)
    ensures forall i :: 0 <= i < |r| ==> (r[i].isPremium <==> i % 2 == 1)
  {
    [ DemoCourse(ReactTitle, ReactText, ReactImage, false, 0.0, instructorId),
      DemoCourse(NodeTitle, NodeText, NodeImage, true, 49.99, instructorId),
      DemoCourse(TypeScriptTitle, TypeScriptText, TypeScriptImage, false, 0.0, instructorId),
      DemoCourse(FullStackTitle, FullStackText, FullStackImage, true, 79.99, instructorId),
      DemoCourse(MongoTitle, MongoText, MongoImage, false, 0.0, instructorId),
      DemoCourse(NextTitle, NextText, NextImage, true, 59.99, instructorId) ]
  }

  /** `title.split(' ')[0]`. */
  function FirstWord(title: string): (w: string)
    ensures ' ' !in w
    ensures w <= title
    ensures w == title || title[|w|] == ' '
  {
    SplitHead(title, ' ');
    Split(title, ' ')[0]
  }

  function Digit(n: nat): char
    requires n < 10
  {
    ('0' as int + n) as char
  }

  const VideoDir: string := "videos/"
  const LessonFile: string := "/lesson-"
  const VideoExt: string := ".mp4"

  /** `videos/<course id>/lesson-<n>.mp4`. */
  function VideoPath(courseId: string, n: nat): string
    requires n < 10
  {
    VideoDir + courseId + LessonFile + [Digit(n)] + VideoExt
  }

  const IntroPrefix: string := "Introduction to "
  const StartedPrefix: string := "Get started with "
  const FundamentalsSuffix: string := " Fundamentals"
  const FundamentalsPrefix: string := "Learn the fundamentals of "
  const AdvancedPrefix: string := "Advanced "
  const AdvancedText: string := "Master advanced concepts"

  /** The three lessons of a course, at positions 1, 2 and 3. */
  function LessonsFor(c: InsertedCourse): (r: seq<Lesson>)
    ensures |r| == 3
  {
    var w := FirstWord(c.title);
    [ Lesson(c.id, IntroPrefix + w, StartedPrefix + c.title, VideoPath(c.id, 1), 1),
      Lesson(c.id, w + FundamentalsSuffix, FundamentalsPrefix + c.title, VideoPath(c.id, 2), 2),
      Lesson(c.id, AdvancedPrefix + w, AdvancedText, VideoPath(c.id, 3), 3) ]
  }

  /** Lesson `i` of a course belongs to it, sits at position `i + 1` and
      plays `videos/<course id>/lesson-<i + 1>.mp4`. */
  lemma LessonsLayout(c: InsertedCourse)
    ensures forall i :: 0 <= i < 3 ==>
              var l := LessonsFor(c)[i];
              l.courseId == c.id && l.position == i + 1 && l.videoPath == VideoPath(c.id, i + 1)
  {
  }

  /** Two lessons share a video path only if they are the same lesson of the
      same course: the fixed-length file name pins down the course id. */
  lemma VideoPathsDistinct(id1: string, n1: nat, id2: string, n2: nat)
    requires n1 < 10 && n2 < 10
    ensures VideoPath(id1, n1) == VideoPath(id2, n2) <==> id1 == id2 && n1 == n2
  {
    if VideoPath(id1, n1) == VideoPath(id2, n2) {
      var t1 := LessonFile + [Digit(n1)] + VideoExt;
      var t2 := LessonFile + [Digit(n2)] + VideoExt;
      var s1, s2 := id1 + t1, id2 + t2;
      assert VideoPath(id1, n1) == VideoDir + s1;
      assert VideoPath(id2, n2) == VideoDir + s2;
      assert s1 == VideoPath(id1, n1)[7..];
      assert s1 == s2;
      if |id1| != |id2| {
        assert false;
      }
      assert id1 == s1[..|id1|] == s2[..|id2|] == id2;
      assert t1 == s1[|id1|..] == s2[|id2|..] == t2;
      assert t1[8] == Digit(n1) && t2[8] == Digit(n2);
    }
  }

  const QuestionMark: string := "?"
  const PurposeQuestion: string := "What is the main purpose of "
  const FeatureQuestion: string := "Which feature is most important in "
  const StartQuestion: string := "How do you get started with "
  const BuildPrefix: string := "To build modern applications with "
  const PurposeWrong: seq<string> := ["To manage databases", "To design user interfaces", "To write server-side code"]
  const FeatureOptions: seq<string> := ["Core concepts and best practices", "Color schemes", "File organization", "Naming conventions"]
  const StartOptions: seq<string> := ["Follow the course lessons step by step", "Read documentation only", "Watch random videos", "Skip the basics"]

  /** The option lists of the three questions of a course. */
  function QuizOptions(c: InsertedCourse): (r: seq<seq<string>>)
    ensures |r| == 3
    ensures forall k :: 0 <= k < 3 ==> |r[k]| == 4
  {
    [[BuildPrefix + FirstWord(c.title)] + PurposeWrong, FeatureOptions, StartOptions]
  }

  /** The three quiz questions of a course; the first option is always the
      right one. */
  function QuizzesFor(c: InsertedCourse): (r: seq<QuizSeed>)
    ensures |r| == 3
  {
    var w := FirstWord(c.title);
    var opts := QuizOptions(c);
    [ QuizSeed(c.id, PurposeQuestion + w + QuestionMark, opts[0], 0),
      QuizSeed(c.id, FeatureQuestion + w + QuestionMark, opts[1], 0),
      QuizSeed(c.id, StartQuestion + w + QuestionMark, opts[2], 0) ]
  }

  /** Question `k` of a course belongs to it, offers the `k`-th option list
      and marks its first option correct. */
  lemma QuizzesLayout(c: InsertedCourse)
    ensures forall k :: 0 <= k < 3 ==>
              var q := QuizzesFor(c)[k];
              q.courseId == c.id && q.correctIndex == 0 && q.options == QuizOptions(c)[k]
  {
  }

  /** A seeded question, read back by the quiz listing, offers its four
      options again, and its correct index points at one of them. */
  lemma SeededQuizReadsBack(c: InsertedCourse, k: nat)
    requires k < 3
    ensures var q := QuizzesFor(c)[k];
            && Quiz.NormaliseOptions(Quiz.Encoded(OptionsColumn(q)), JsonList.Parse) == Some(Quiz.List(q.options))
            && |q.options| == 4
            && 0 <= q.correctIndex < |q.options|
  {
    var q := QuizzesFor(c)[k];
    QuizzesLayout(c);
    JsonList.ParseStringify(q.options);
  }

  /** Lessons the lesson inserts report added, over courses `cs`. */
  function LessonsAdded(cs: seq<InsertedCourse>, lessonsOk: seq<Lesson> -> bool): (n: nat)
    ensures n <= 3 * |cs|
    ensures n % 3 == 0
  {
    if cs == [] then 0
    else LessonsAdded(cs[..|cs| - 1], lessonsOk) + (if lessonsOk(LessonsFor(cs[|cs| - 1])) then 3 else 0)
  }

  /** Questions the quiz inserts report added, over courses `cs`. */
  function QuizzesAdded(cs: seq<InsertedCourse>, quizzesOk: seq<QuizSeed> -> bool): (n: nat)
    ensures n <= 3 * |cs|
    ensures n % 3 == 0
  {
    if cs == [] then 0
    else QuizzesAdded(cs[..|cs| - 1], quizzesOk) + (if quizzesOk(QuizzesFor(cs[|cs| - 1])) then 3 else 0)
  }

  /** When every lesson insert succeeds, every course adds three lessons;
      when every one fails, none are counted. */
  lemma {:induction false} LessonsAddedBounds(cs: seq<InsertedCourse>, lessonsOk: seq<Lesson> -> bool)
    ensures (forall i :: 0 <= i < |cs| ==> lessonsOk(LessonsFor(cs[i]))) ==> LessonsAdded(cs, lessonsOk) == 3 * |cs|
    ensures (forall i :: 0 <= i < |cs| ==> !lessonsOk(LessonsFor(cs[i]))) ==> LessonsAdded(cs, lessonsOk) == 0
  {
    if cs != [] {
      var init := cs[..|cs| - 1];
      LessonsAddedBounds(init, lessonsOk);
      assert forall i :: 0 <= i < |init| ==> init[i] == cs[i];
    }
  }

  lemma {:induction false} QuizzesAddedBounds(cs: seq<InsertedCourse>, quizzesOk: seq<QuizSeed> -> bool)
    ensures (forall i :: 0 <= i < |cs| ==> quizzesOk(QuizzesFor(cs[i]))) ==> QuizzesAdded(cs, quizzesOk) == 3 * |cs|
    ensures (forall i :: 0 <= i < |cs| ==> !quizzesOk(QuizzesFor(cs[i]))) ==> QuizzesAdded(cs, quizzesOk) == 0
  {
    if cs != [] {
      var init := cs[..|cs| - 1];
      QuizzesAddedBounds(init, quizzesOk);
      assert forall i :: 0 <= i < |init| ==> init[i] == cs[i];
    }
  }

  /** The per-course inserts: for each course, its lessons, then its quizzes. */
  function CourseCalls(cs: seq<InsertedCourse>): (calls: seq<Call>)
    ensures |calls| == 2 * |cs|
  {
    if cs == [] then []
    else CourseCalls(cs[..|cs| - 1]) + [InsertLessons(LessonsFor(cs[|cs| - 1])), InsertQuizzes(QuizzesFor(cs[|cs| - 1]))]
  }

  /** The inserts go course by course, in the order the courses came back:
      call `2i` inserts the lessons of course `i`, call `2i+1` its quizzes. */
  lemma {:induction false} CourseCallsInOrder(cs: seq<InsertedCourse>)
    ensures forall i :: 0 <= i < |cs| ==>
              CourseCalls(cs)[2 * i] == InsertLessons(LessonsFor(cs[i])) &&
              CourseCalls(cs)[2 * i + 1] == InsertQuizzes(QuizzesFor(cs[i]))
  {
    if cs != [] {
      var init := cs[..|cs| - 1];
      CourseCallsInOrder(init);
      assert forall i :: 0 <= i < |init| ==> init[i] == cs[i];
    }
  }

  /** One more course: the counts and the calls grow by that course's share. */
  lemma AddedStep(cs: seq<InsertedCourse>, i: nat, lessonsOk: seq<Lesson> -> bool, quizzesOk: seq<QuizSeed> -> bool)
    requires i < |cs|
    ensures LessonsAdded(cs[..i + 1], lessonsOk) ==
              LessonsAdded(cs[..i], lessonsOk) + (if lessonsOk(LessonsFor(cs[i])) then 3 else 0)
    ensures QuizzesAdded(cs[..i + 1], quizzesOk) ==
              QuizzesAdded(cs[..i], quizzesOk) + (if quizzesOk(QuizzesFor(cs[i])) then 3 else 0)
    ensures CourseCalls(cs[..i + 1]) == CourseCalls(cs[..i]) + [InsertLessons(LessonsFor(cs[i])), InsertQuizzes(QuizzesFor(cs[i]))]
  {
    assert cs[..i + 1][..i] == cs[..i] && cs[..i + 1][i] == cs[i];
  }

  /** Whether the user listing returned at least one user. */
  predicate HasListed(listed: Option<seq<string>>)
  {
    listed.Some? && |listed.value| > 0
  }

  /** The instructor the demo courses are filed under when no exception is
      thrown: the first listed user, else the created one, else `null`. */
  function Instructor(listed: Option<seq<string>>, created: Option<Option<string>>): Option<string>
  {
    if HasListed(listed) then Some(listed.value[0])
    else if created.Some? then created.value
    else None
  }

  /** The calls made while choosing the instructor. */
  function InstructorCalls(listed: Option<seq<string>>): seq<Call>
  {
    if HasListed(listed) then [ListUsers] else [ListUsers, CreateInstructor]
  }

  /** Chooses the instructor by reassigning a variable that starts `null`.
      `listed` is the ids of the listed users (`None` when the listing gave
      no data); `created` is what creating the demo instructor gave (`None`
      for no data, `Some(None)` for data without a user, whose `id` cannot be
      read: `crashed`). The instructor is created only when nobody is
      listed. */
  method PickInstructor(listed: Option<seq<string>>, created: Option<Option<string>>)
    returns (instructorId: Option<string>, crashed: bool, calls: seq<Call>)
    ensures calls == InstructorCalls(listed)
    ensures CreateInstructor in calls <==> !HasListed(listed)
    ensures crashed <==> !HasListed(listed) && created == Some(None)
    ensures !crashed ==> instructorId == Instructor(listed, created)
    ensures HasListed(listed) ==> instructorId == Some(listed.value[0])
    ensures !HasListed(listed) && created.None? ==> instructorId.None?
  {
    calls := [ListUsers];
    instructorId := None;
    crashed := false;
    if listed.Some? && |listed.value| > 0 {
      instructorId := Some(listed.value[0]);
    } else {
      calls := calls + [CreateInstructor];
      if created.Some? {
        if created.value.None? {
          crashed := true;
        } else {
          instructorId := created.value;
        }
      }
    }
  }

  /** The loop over the inserted courses: three lessons and three questions
      per course, each batch counted only when its insert succeeds. */
  method SeedCourses(cs: seq<InsertedCourse>, lessonsOk: seq<Lesson> -> bool, quizzesOk: seq<QuizSeed> -> bool)
    returns (totalLessons: nat, totalQuizzes: nat, calls: seq<Call>)
    ensures calls == CourseCalls(cs)
    ensures totalLessons == LessonsAdded(cs, lessonsOk) && totalLessons <= 3 * |cs|
    ensures totalQuizzes == QuizzesAdded(cs, quizzesOk) && totalQuizzes <= 3 * |cs|
  {
    totalLessons, totalQuizzes, calls := 0, 0, [];
    for i := 0 to |cs|
      invariant calls == CourseCalls(cs[..i])
      invariant totalLessons == LessonsAdded(cs[..i], lessonsOk)
      invariant totalQuizzes == QuizzesAdded(cs[..i], quizzesOk)
    {
      AddedStep(cs, i, lessonsOk, quizzesOk);
      var lessons := LessonsFor(cs[i]);
      var quizzes := QuizzesFor(cs[i]);
      calls := calls + [InsertLessons(lessons)];
      if lessonsOk(lessons) {
        totalLessons := totalLessons + |lessons|;
      }
      calls := calls + [InsertQuizzes(quizzes)];
      if quizzesOk(quizzes) {
        totalQuizzes := totalQuizzes + |quizzes|;
      }
    }
    assert cs[..|cs|] == cs;
  }

  /** The handler. A course insert error is a 400 and stops the seeding; a
      thrown exception is a 500. */
  method SeedDemoData(
    listed: Option<seq<string>>,
    created: Option<Option<string>>,
    insertCourses: seq<DemoCourse> -> Fetch<seq<InsertedCourse>>,
    lessonsOk: seq<Lesson> -> bool,
    quizzesOk: seq<QuizSeed> -> bool)
    returns (reply: Reply<Seeded>, calls: seq<Call>)
    ensures !HasListed(listed) && created == Some(None) ==>
              reply == Fail(500, Some(NullUserMessage)) && calls == InstructorCalls(listed)
    ensures !(!HasListed(listed) && created == Some(None)) ==>
              var demo := DemoCourses(Instructor(listed, created));
              && (insertCourses(demo).FetchError? ==>
                    && reply == Fail(400, Some(CourseErrorPrefix + JsText(insertCourses(demo).message)))
                    && calls == InstructorCalls(listed) + [InsertCourses(demo)])
              && (insertCourses(demo).Fetched? ==>
                    var cs := RowsOrEmpty(insertCourses(demo).data);
                    && calls == InstructorCalls(listed) + [InsertCourses(demo)] + CourseCalls(cs)
                    && reply == Ok(200, Seeded(SeededMessage, |cs|, LessonsAdded(cs, lessonsOk), QuizzesAdded(cs, quizzesOk))))
  {
    var instructorId, crashed;
    instructorId, crashed, calls := PickInstructor(listed, created);
    if crashed {
      reply := Fail(500, Some(NullUserMessage));
      return;
    }
    var demo := DemoCourses(instructorId);
    calls := calls + [InsertCourses(demo)];
    match insertCourses(demo)
    case FetchError(message) =>
      reply := Fail(400, Some(CourseErrorPrefix + JsText(message)));
    case Fetched(data) =>
      var cs := RowsOrEmpty(data);
      var totalLessons, totalQuizzes, more := SeedCourses(cs, lessonsOk, quizzesOk);
      calls := calls + more;
      reply := Ok(200, Seeded(SeededMessage, |cs|, totalLessons, totalQuizzes));
  }
}
