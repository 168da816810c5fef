/** The quiz routes: listing a course's questions with their `options`
    normalised to a list, and scoring a submission against the stored
    correct answers. Table reads are inputs; `JSON.parse` of a stored options
    string is the oracle `decode` (`None` when it would throw). */
module Quiz {
  import opened Js
  import AuthGate

  // ---------------------------------------------------------------------
  // GET /quiz/:courseId

  /** The `options` column as stored: encoded text, an actual list, or
      anything else (`null`, a number, an object). */
  datatype OptionsField = Encoded(text: string) | List(items: seq<string>) | Other

  /** A row of the quizzes table. */
  datatype QuizRow = QuizRow(
    id: int,
    courseId: string,
    question: string,
    options: OptionsField,
    correctIndex: int)

  /** The options of one row as a list: decoded text, a list as it is,
      otherwise the empty list. `None` when decoding throws. */
  function NormaliseOptions(o: OptionsField, decode: string -> Option<seq<string>>): (r: Option<OptionsField>)
    ensures o.Encoded? ==> (r.Some? <==> decode(o.text).Some?)
    ensures o.Encoded? && r.Some? ==> r.value == List(decode(o.text).value)
    ensures o.List? ==> r == Some(o)
    ensures o.Other? ==> r == Some(List([]))
  {
    match o
    case Encoded(text) =>
      (match decode(text)
       case None => None
       case Some(items) => Some(List(items)))
    case List(_) => Some(o)
    case Other => Some(List([]))
  }

  /** `(data || []).map(q => ({ ...q, options: … }))`: `None` when any row's
      options fail to decode (the handler then throws). */
  function FormatRows(rows: seq<QuizRow>, decode: string -> Option<seq<string>>): (r: Option<seq<QuizRow>>)
    ensures r.Some? <==> forall i :: 0 <= i < |rows| ==> NormaliseOptions(rows[i].options, decode).Some?
    ensures r.Some? ==> |r.value| == |rows|
    ensures r.Some? ==> forall i :: 0 <= i < |rows| ==>
              r.value[i] == rows[i].(options := NormaliseOptions(rows[i].options, decode).value)
    ensures r.Some? ==> forall i :: 0 <= i < |rows| ==> r.value[i].options.List?
  {
    if rows == [] then Some([])
    else
      match NormaliseOptions(rows[0].options, decode)
      case None => None
      case Some(o) =>
        match FormatRows(rows[1..], decode)
        case None => None
        case Some(rest) => Some([rows[0].(options := o)] + rest)
  }

  /** Formatting an already formatted listing changes nothing. */
  lemma FormatRowsIdempotent(rows: seq<QuizRow>, decode: string -> Option<seq<string>>)
    requires FormatRows(rows, decode).Some?
    ensures FormatRows(FormatRows(rows, decode).value, decode) == FormatRows(rows, decode)
  {
    var once := FormatRows(rows, decode).value;
    assert forall i :: 0 <= i < |once| ==> NormaliseOptions(once[i].options, decode) == Some(once[i].options);
    var twice := FormatRows(once, decode).value;
    assert forall i :: 0 <= i < |once| ==> twice[i] == once[i];
  }

  /** The reply of `GET /quiz/:courseId`; `None` when the handler throws. */
  function ListQuestions(fetch: Fetch<seq<QuizRow>>, decode: string -> Option<seq<string>>): (r: Option<Reply<seq<QuizRow>>>)
    ensures fetch.FetchError? ==> r == Some(Fail(500, fetch.message))
    ensures fetch.Fetched? && fetch.data.None? ==> r == Some(Ok(200, []))
    ensures fetch.Fetched? && fetch.data.Some? ==>
              (r.Some? <==> FormatRows(fetch.data.value, decode).Some?)
    ensures fetch.Fetched? && FormatRows(RowsOrEmpty(fetch.data), decode).Some? ==>
              r == Some(Ok(200, FormatRows(RowsOrEmpty(fetch.data), decode).value))
    ensures r.Some? && r.value.Ok? ==>
              r.value.status == 200 && forall i :: 0 <= i < |r.value.body| ==> r.value.body[i].options.List?
  {
    match fetch
    case FetchError(message) => Some(Fail(500, message))
    case Fetched(data) =>
      match FormatRows(RowsOrEmpty(data), decode)
      case None => None
      case Some(rows) => Some(Ok(200, rows))
  }

  // ---------------------------------------------------------------------
  // POST /quiz/submit

  /** One submitted answer: `{ id, selected_index }`, either of which may be
      missing (`None`) or any JSON scalar. */
  datatype Answer = Answer(id: Option<Scalar>, selected: Option<Scalar>)

  /** `{ courseId, answers }`; `answers` is `None` when it is not an array. */
  datatype Submission = Submission(courseId: Option<Scalar>, answers: Option<seq<Answer>>)

  /** The columns `id, correct_index` of a stored question. */
  datatype StoredQuestion = StoredQuestion(id: int, correctIndex: int)

  /** The JSON reply of a scored submission. */
  datatype Scored = Scored(score: nat, total: nat, correct: nat, courseId: Scalar)

  /** The map key a stored question id is looked up under (a number). */
  function Key(id: int): Option<Scalar>
  {
    Some(Num(id as real))
  }

  /** `new Map(answers.map(a => [a.id, a.selected_index]))`: the entries are
      set in order, so a later entry for the same id overwrites an earlier one. */
  function IndexById(answers: seq<Answer>): map<Option<Scalar>, Option<Scalar>>
  {
    if answers == [] then map[]
    else
      var last := answers[|answers| - 1];
      IndexById(answers[..|answers| - 1])[last.id := last.selected]
  }

  /** The ids the map holds are exactly the submitted ids. */
  lemma {:induction false} IndexByIdKeys(answers: seq<Answer>, key: Option<Scalar>)
    ensures key in IndexById(answers) <==> exists j :: 0 <= j < |answers| && answers[j].id == key
  {
    if answers != [] {
      var init := answers[..|answers| - 1];
      IndexByIdKeys(init, key);
      if key in IndexById(init) {
        var j :| 0 <= j < |init| && init[j].id == key;
        assert answers[j].id == key;
      }
      if exists j :: 0 <= j < |answers| && answers[j].id == key {
        var j :| 0 <= j < |answers| && answers[j].id == key;
        if j < |init| { assert init[j].id == key; }
      }
    }
  }

  /** When an id is submitted several times, the map holds the selection of
      the last of them. */
  lemma {:induction false} IndexByIdLastWins(answers: seq<Answer>, j: nat)
    requires j < |answers|
    requires forall l :: j < l < |answers| ==> answers[l].id != answers[j].id
    ensures answers[j].id in IndexById(answers)
    ensures IndexById(answers)[answers[j].id] == answers[j].selected
  {
    if j < |answers| - 1 {
      var init := answers[..|answers| - 1];
      assert forall l :: j < l < |init| ==> init[l].id != init[j].id by {
        forall l | j < l < |init| ensures init[l].id != init[j].id {
          assert init[l] == answers[l];
        }
      }
      IndexByIdLastWins(init, j);
    }
  }

  /** `indexById.get(id)`: `undefined` (`None`) for an id never submitted. */
  function Lookup(index: map<Option<Scalar>, Option<Scalar>>, key: Option<Scalar>): Option<Scalar>
  {
    if key in index then index[key] else None
  }

  /** `indexById.get(q.id) === q.correct_index`: only a number equal to the
      stored index matches (no string, no missing selection). */
  predicate Answered(q: StoredQuestion, index: map<Option<Scalar>, Option<Scalar>>)
  {
    Lookup(index, Key(q.id)) == Some(Num(q.correctIndex as real))
  }

  /** The number of stored questions answered correctly. */
  function CorrectCount(questions: seq<StoredQuestion>, index: map<Option<Scalar>, Option<Scalar>>): (c: nat)
    ensures c <= |questions|
  {
    if questions == [] then 0
    else CorrectCount(questions[..|questions| - 1], index) +
         (if Answered(questions[|questions| - 1], index) then 1 else 0)
  }

  /** Every question counts exactly when every question is answered correctly. */
  lemma {:induction false} AllCorrect(questions: seq<StoredQuestion>, index: map<Option<Scalar>, Option<Scalar>>)
    ensures CorrectCount(questions, index) == |questions| <==>
              forall i :: 0 <= i < |questions| ==> Answered(questions[i], index)
  {
    if questions != [] {
      var init := questions[..|questions| - 1];
      AllCorrect(init, index);
      assert forall i :: 0 <= i < |init| ==> init[i] == questions[i];
    }
  }

  /** No question counts exactly when none is answered correctly. */
  lemma {:induction false} NoneCorrect(questions: seq<StoredQuestion>, index: map<Option<Scalar>, Option<Scalar>>)
    ensures CorrectCount(questions, index) == 0 <==>
              forall i :: 0 <= i < |questions| ==> !Answered(questions[i], index)
  {
    if questions != [] {
      var init := questions[..|questions| - 1];
      NoneCorrect(init, index);
      assert forall i :: 0 <= i < |init| ==> init[i] == questions[i];
    }
  }

  /** A question whose id was never submitted is never counted, and an answer
      naming an id that no question has never counts: adding such an answer
      leaves the count as it was. */
  lemma {:induction false} UnknownAnswerIgnored(questions: seq<StoredQuestion>, answers: seq<Answer>, extra: Answer)
    requires forall i :: 0 <= i < |questions| ==> extra.id != Key(questions[i].id)
    ensures CorrectCount(questions, IndexById(answers + [extra])) == CorrectCount(questions, IndexById(answers))
  {
    var before, after := IndexById(answers), IndexById(answers + [extra]);
    assert (answers + [extra])[..|answers|] == answers;
    assert after == before[extra.id := extra.selected];
    SameAnswers(questions, before, after);
  }

  lemma {:induction false} SameAnswers(questions: seq<StoredQuestion>, m1: map<Option<Scalar>, Option<Scalar>>, m2: map<Option<Scalar>, Option<Scalar>>)
    requires forall i :: 0 <= i < |questions| ==> Lookup(m1, Key(questions[i].id)) == Lookup(m2, Key(questions[i].id))
    ensures CorrectCount(questions, m1) == CorrectCount(questions, m2)
  {
    if questions != [] {
      var init := questions[..|questions| - 1];
      assert forall i :: 0 <= i < |init| ==> init[i] == questions[i];
      SameAnswers(init, m1, m2);
    }
  }

  /** A question none of whose ids was submitted does not count. */
  lemma UnansweredNotCounted(q: StoredQuestion, answers: seq<Answer>)
    requires forall j :: 0 <= j < |answers| ==> answers[j].id != Key(q.id)
    ensures !Answered(q, IndexById(answers))
  {
    IndexByIdKeys(answers, Key(q.id));
  }

  /** The loop of the handler: one pass over the stored questions. */
  method CountCorrect(questions: seq<StoredQuestion>, answers: seq<Answer>) returns (correct: nat)
    ensures correct == CorrectCount(questions, IndexById(answers))
    ensures correct <= |questions|
  {
    var indexById := IndexById(answers);
    correct := 0;
    for i := 0 to |questions|
      invariant correct == CorrectCount(questions[..i], indexById)
    {
      assert questions[..i + 1][..i] == questions[..i];
      if Lookup(indexById, Key(questions[i].id)) == Some(Num(questions[i].correctIndex as real)) {
        correct := correct + 1;
      }
    }
    assert questions[..|questions|] == questions;
  }

  /** `Math.round((correct / total) * 100)` in exact arithmetic, halves
      rounded up; 0 when there are no questions. */
  function RoundedPercent(correct: nat, total: nat): (score: nat)
    ensures total == 0 ==> score == 0
    ensures total > 0 ==> 2 * total * score <= 200 * correct + total < 2 * total * score + 2 * total
  {
    if total == 0 then 0 else (200 * correct + total) / (2 * total)
  }

  lemma MulMonotone(a: nat, b: nat, c: nat)
    requires b <= c
    ensures a * b <= a * c
  {
    assert a * c - a * b == a * (c - b);
  }

  /** Two scores that both round `100 * correct / total` are equal. */
  lemma RoundingUnique(correct: nat, total: nat, s1: nat, s2: nat)
    requires total > 0
    requires 2 * total * s1 <= 200 * correct + total < 2 * total * s1 + 2 * total
    requires 2 * total * s2 <= 200 * correct + total < 2 * total * s2 + 2 * total
    ensures s1 == s2
  {
    if s1 != s2 {
      var lo, hi := if s1 < s2 then s1 else s2, if s1 < s2 then s2 else s1;
      MulMonotone(2 * total, lo + 1, hi);
    }
  }

  /** The score is a percentage: all correct gives 100, none correct gives 0. */
  lemma ScoreBounds(correct: nat, total: nat)
    requires correct <= total
    ensures RoundedPercent(correct, total) <= 100
    ensures total > 0 && correct == total ==> RoundedPercent(correct, total) == 100
    ensures correct == 0 ==> RoundedPercent(correct, total) == 0
  {
    if total > 0 {
      var s := RoundedPercent(correct, total);
      if s > 100 {
        MulMonotone(2 * total, 101, s);
        assert false;
      }
      if correct == total {
        assert 2 * total * 100 == 200 * correct;
        RoundingUnique(correct, total, s, 100);
      }
      if correct == 0 {
        assert 2 * total * 0 == 0;
        RoundingUnique(correct, total, s, 0);
      }
    }
  }

  /** `POST /quiz/submit` once `requireAuth` has let the request through. */
  method Submit(body: Submission, fetch: Fetch<seq<StoredQuestion>>) returns (reply: Reply<Scored>)
    ensures !ScalarTruthy(body.courseId) || body.answers.None? ==> reply == Fail(400, Some("Invalid payload"))
    ensures ScalarTruthy(body.courseId) && body.answers.Some? && fetch.FetchError? ==>
              reply == Fail(500, fetch.message)
    ensures ScalarTruthy(body.courseId) && body.answers.Some? && fetch.Fetched? ==>
              var questions := RowsOrEmpty(fetch.data);
              && reply.Ok? && reply.status == 200
              && reply.body.courseId == body.courseId.value
              && reply.body.total == |questions|
              && reply.body.correct == CorrectCount(questions, IndexById(body.answers.value))
              && reply.body.score == RoundedPercent(reply.body.correct, reply.body.total)
              && reply.body.correct <= reply.body.total
              && reply.body.score <= 100
  {
    if !ScalarTruthy(body.courseId) || body.answers.None? {
      return Fail(400, Some("Invalid payload"));
    }
    match fetch {
      case FetchError(message) =>
        reply := Fail(500, message);
      case Fetched(data) =>
        var questions := RowsOrEmpty(data);
        var correct := CountCorrect(questions, body.answers.value);
        ScoreBounds(correct, |questions|);
        var score := RoundedPercent(correct, |questions|);
        reply := Ok(200, Scored(score, |questions|, correct, body.courseId.value));
    }
  }

  /** `POST /quiz/submit` behind `requireAuth`. */
  method SubmitRoute(auth: AuthGate.Gate, body: Submission, fetch: Fetch<seq<StoredQuestion>>) returns (reply: Reply<Scored>)
    ensures auth.Deny? ==> reply == Fail(auth.status, Some(auth.message))
    ensures auth.Pass? && (!ScalarTruthy(body.courseId) || body.answers.None?) ==>
              reply == Fail(400, Some("Invalid payload"))
    ensures auth.Pass? && ScalarTruthy(body.courseId) && body.answers.Some? && fetch.FetchError? ==>
              reply == Fail(500, fetch.message)
    ensures auth.Pass? && ScalarTruthy(body.courseId) && body.answers.Some? && fetch.Fetched? ==>
              var questions := RowsOrEmpty(fetch.data);
              && reply.Ok? && reply.status == 200
              && reply.body.courseId == body.courseId.value
              && reply.body.total == |questions|
              && reply.body.correct == CorrectCount(questions, IndexById(body.answers.value))
              && reply.body.score == RoundedPercent(reply.body.correct, reply.body.total)
              && reply.body.score <= 100
  {
    if auth.Deny? {
      return Fail(auth.status, Some(auth.message));
    }
    reply := Submit(body, fetch);
  }

  /** The worked example: two questions, the first answered correctly. */
  lemma HalfCorrect()
    ensures var answers := [Answer(Some(Num(1.0)), Some(Num(0.0))), Answer(Some(Num(2.0)), Some(Num(1.0)))];
            var questions := [StoredQuestion(1, 0), StoredQuestion(2, 2)];
            CorrectCount(questions, IndexById(answers)) == 1 &&
            RoundedPercent(1, 2) == 50
  {
    var answers := [Answer(Some(Num(1.0)), Some(Num(0.0))), Answer(Some(Num(2.0)), Some(Num(1.0)))];
    var questions := [StoredQuestion(1, 0), StoredQuestion(2, 2)];
    var index := IndexById(answers);
    assert answers[..1] == [answers[0]];
    assert Lookup(index, Key(1)) == Some(Num(0.0));
    assert Lookup(index, Key(2)) == Some(Num(1.0));
    assert questions[..1] == [questions[0]];
  }
}
