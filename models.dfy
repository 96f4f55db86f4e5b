/** The six tables of the survey application, their field defaults, the
    `__str__` renderings, and what a delete does to the rows that refer to
    the deleted one (CASCADE or SET_NULL). */
module Models {
  import opened Wrappers
  import opened Strings
  import opened Times

  type SurveyId = nat
  type RespondentId = nat
  type QuestionId = nat
  type AnswerId = nat
  /** A Form's primary key is a random UUID rather than a sequential id. */
  type FormId = nat
  type FormAnswerId = nat

  datatype Survey = Survey(title: string, startDate: DateTime, endDate: DateTime)

  datatype Respondent = Respondent(firstName: string, lastName: string, age: nat)

  /** The allowed question types, stored as the small integers 1, 2 and 3. */
  datatype QuestionType = Text | Choice | Checkbox

  datatype Question = Question(survey: SurveyId, qtype: QuestionType, text: string)

  /** An answer option; its `question` column is nullable. */
  datatype Answer = Answer(question: Option<QuestionId>, text: string)

  datatype Form = Form(
    respondent: Option<RespondentId>,
    survey: SurveyId,
    submitted: bool,
    submittedDate: Option<DateTime>)

  /** One question's answer within a form: `choice` is used by CHOICE
      questions, `choices` (a many-to-many link) by CHECKBOX questions. */
  datatype FormAnswer = FormAnswer(
    form: FormId,
    question: QuestionId,
    text: string,
    choice: Option<AnswerId>,
    choices: set<AnswerId>)

  datatype Error =
    | ValidationError(message: string)
    | KeyError(key: string)
    | IntegrityError(message: string)
    | NotFound
    | FieldError(message: string)
    | AlreadyExists(status: int, detail: string)

  // ---------------------------------------------------------------------
  // Question types

  function TypeCode(t: QuestionType): (c: int)
    ensures 1 <= c <= 3
    ensures TypeFromCode(c) == Some(t)
  {
    match t
    case Text => 1
    case Choice => 2
    case Checkbox => 3
  }

  /** The stored integer's meaning, if it is one of the declared choices. */
  function TypeFromCode(c: int): (r: Option<QuestionType>)
    ensures r.Some? <==> 1 <= c <= 3
  {
    if c == 1 then Some(Text)
    else if c == 2 then Some(Choice)
    else if c == 3 then Some(Checkbox)
    else None
  }

  /** A question created without a type is a TEXT question. */
  const DefaultQuestionType: QuestionType := Text

  /** `get_type_display()`: the label paired with the type in its choices. */
  function TypeDisplay(t: QuestionType): (r: string)
    ensures 4 <= |r| <= 8
  {
    match t
    case Text => "Text"
    case Choice => "Choice"
    case Checkbox => "Checkbox"
  }

  /** No two types share a label, so the label identifies the type. */
  lemma TypeDisplayInjective(t: QuestionType, u: QuestionType)
    ensures TypeDisplay(t) == TypeDisplay(u) ==> t == u
  {
    if t != u {
      assert TypeDisplay(t)[0] != TypeDisplay(u)[0] || |TypeDisplay(t)| != |TypeDisplay(u)|;
    }
  }

  // ---------------------------------------------------------------------
  // Defaults of a new Form

  /** A Form as inserted: not submitted and without a submission date. */
  function NewForm(survey: SurveyId, respondent: Option<RespondentId>): (f: Form)
    ensures !f.submitted && f.submittedDate == None
    ensures f.survey == survey && f.respondent == respondent
  {
    Form(respondent, survey, false, None)
  }

  // ---------------------------------------------------------------------
  // String renderings

  /** `Survey.__str__`: the title cut to 15 characters, a comma and the
      start date. */
  function SurveyStr(s: Survey): (r: string)
    requires ValidDateTime(s.startDate)
    ensures Take(s.title, 15) + ", " <= r
    ensures |r| == |Take(s.title, 15)| + 12 && |r| <= 27
    ensures r[|r| - 10..] == DateString(DateOf(s.startDate))
  {
    Take(s.title, 15) + ", " + DateString(DateOf(s.startDate))
  }

  /** `Respondent.__str__`: first and last name, a comma and the age. */
  function RespondentStr(p: Respondent): (r: string)
    ensures p.firstName + " " + p.lastName + ", " <= r
    ensures var tail := r[|p.firstName| + |p.lastName| + 3..];
      |tail| >= 1 && AllDigits(tail) && ParseNat(tail) == p.age
    ensures var tail := r[|p.firstName| + |p.lastName| + 3..];
      |tail| > 1 ==> tail[0] != '0'
  {
    ParseNatToString(p.age);
    var r := p.firstName + " " + p.lastName + ", " + NatToString(p.age);
    assert r[|p.firstName| + |p.lastName| + 3..] == NatToString(p.age);
    r
  }

  /** `Question.__str__`: the type's label and the text cut to 15
      characters. */
  function QuestionStr(q: Question): (r: string)
    ensures TypeDisplay(q.qtype) + ": " <= r
    ensures r[|TypeDisplay(q.qtype)| + 2..] == Take(q.text, 15)
    ensures |r| <= 25
  {
    TypeDisplay(q.qtype) + ": " + Take(q.text, 15)
  }

  /** `Answer.__str__`: the first 15 characters of the option's text. */
  function AnswerStr(a: Answer): (r: string)
    ensures |r| <= 15 && r <= a.text
    ensures |a.text| <= 15 ==> r == a.text
    ensures 15 < |a.text| ==> |r| == 15
  {
    Take(a.text, 15)
  }

  /** `Form.__str__`: the respondent's first name, or "----" when the form
      has no respondent, then " : " and the survey's rendering.
      `respondent` and `survey` are the rows the form's columns refer to. */
  function FormStr(respondent: Option<Respondent>, survey: Survey): (r: string)
    requires ValidDateTime(survey.startDate)
    ensures respondent.None? ==> "---- : " <= r && |r| == 7 + |SurveyStr(survey)|
    ensures respondent.Some? ==>
      respondent.value.firstName + " : " <= r && |r| == |respondent.value.firstName| + 3 + |SurveyStr(survey)|
    ensures |SurveyStr(survey)| <= |r| && r[|r| - |SurveyStr(survey)|..] == SurveyStr(survey)
  {
    var tail := SurveyStr(survey);
    if respondent.Some? then
      ThreeParts(respondent.value.firstName, " : ", tail);
      respondent.value.firstName + " : " + tail
    else
      ThreeParts("----", " : ", tail);
      assert "----" + " : " == "---- : ";
      "----" + " : " + tail
  }

  /** Where the parts of `a + b + c` sit. */
  lemma ThreeParts(a: string, b: string, c: string)
    ensures var r := a + b + c;
      a + b <= r && |r| == |a| + |b| + |c| && r[|r| - |c|..] == c
  {
    var r := a + b + c;
    assert r[|r| - |c|..] == c;
  }

  /** `FormAnswer.__str__` renders the question it answers. */
  function FormAnswerStr(question: Question): (r: string)
    ensures TypeDisplay(question.qtype) + ": " <= r && |r| <= 25
    ensures r[|TypeDisplay(question.qtype)| + 2..] == Take(question.text, 15)
  {
    QuestionStr(question)
  }

  // ---------------------------------------------------------------------
  // The database and its foreign keys

  datatype Db = Db(
    surveys: map<SurveyId, Survey>,
    respondents: map<RespondentId, Respondent>,
    questions: map<QuestionId, Question>,
    answers: map<AnswerId, Answer>,
    forms: map<FormId, Form>,
    formAnswers: map<FormAnswerId, FormAnswer>)

  const EmptyDb: Db := Db(map[], map[], map[], map[], map[], map[])

  predicate AnswerRefOk(db: Db, a: Answer) {
    a.question.Some? ==> a.question.value in db.questions
  }

  predicate FormRefOk(db: Db, f: Form) {
    f.survey in db.surveys && (f.respondent.Some? ==> f.respondent.value in db.respondents)
  }

  /** The rows a form answer refers to through its CASCADE columns are
      all present. */
  predicate CascadeTargetsIn(db: Db, x: FormAnswer) {
    x.form in db.forms && x.question in db.questions && (x.choice.Some? ==> x.choice.value in db.answers)
  }

  /** ... and so are the options of its `choices` links. */
  predicate FormAnswerRefOk(db: Db, x: FormAnswer) {
    CascadeTargetsIn(db, x) && x.choices <= db.answers.Keys
  }

  /** Every foreign key refers to an existing row. */
  predicate Consistent(db: Db) {
    && (forall q :: q in db.questions ==> db.questions[q].survey in db.surveys)
    && (forall a :: a in db.answers ==> AnswerRefOk(db, db.answers[a]))
    && (forall f :: f in db.forms ==> FormRefOk(db, db.forms[f]))
    && (forall x :: x in db.formAnswers ==> FormAnswerRefOk(db, db.formAnswers[x]))
  }

  // ---------------------------------------------------------------------
  // Deletion

  /** The questions of a survey (its `questions` related set). */
  function QuestionsOf(db: Db, s: SurveyId): set<QuestionId> {
    set q | q in db.questions && db.questions[q].survey == s
  }

  /** The forms of a survey (its `forms` related set). */
  function FormsOf(db: Db, s: SurveyId): set<FormId> {
    set f | f in db.forms && db.forms[f].survey == s
  }

  predicate OptionOf(a: Answer, qs: set<QuestionId>) {
    a.question.Some? && a.question.value in qs
  }

  /** The answer options that belong to one of the questions `qs`. */
  function OptionsOf(db: Db, qs: set<QuestionId>): set<AnswerId> {
    set a | a in db.answers && OptionOf(db.answers[a], qs)
  }

  /** A form answer is kept when its form, its question and its single
      `choice` are all kept. */
  predicate Survives(x: FormAnswer, qs: set<QuestionId>, os: set<AnswerId>, fs: set<FormId>) {
    x.form !in fs && x.question !in qs && (x.choice.Some? ==> x.choice.value !in os)
  }

  /** Removes the given surveys, questions, options and forms; a form answer
      that refers to a removed row through a CASCADE column goes with it,
      and removed options are dropped from the `choices` of the rest. */
  function Cascade(db: Db, ss: set<SurveyId>, qs: set<QuestionId>, os: set<AnswerId>, fs: set<FormId>): (r: Db)
    ensures r.surveys == db.surveys - ss && r.respondents == db.respondents
    ensures r.questions == db.questions - qs && r.answers == db.answers - os && r.forms == db.forms - fs
    ensures forall x :: x in r.formAnswers <==> x in db.formAnswers && Survives(db.formAnswers[x], qs, os, fs)
    ensures forall x :: x in r.formAnswers ==>
      r.formAnswers[x] == db.formAnswers[x].(choices := db.formAnswers[x].choices - os)
  {
    Db(
      db.surveys - ss,
      db.respondents,
      db.questions - qs,
      db.answers - os,
      db.forms - fs,
      map x | x in db.formAnswers && Survives(db.formAnswers[x], qs, os, fs) ::
        db.formAnswers[x].(choices := db.formAnswers[x].choices - os))
  }

  /** The removed sets take with them every row that refers to them
      through a CASCADE column. */
  predicate Closed(db: Db, ss: set<SurveyId>, qs: set<QuestionId>, os: set<AnswerId>, fs: set<FormId>) {
    && (forall q :: q in db.questions && db.questions[q].survey in ss ==> q in qs)
    && (forall a :: a in db.answers && OptionOf(db.answers[a], qs) ==> a in os)
    && (forall f :: f in db.forms && db.forms[f].survey in ss ==> f in fs)
  }

  /** A cascade over a closed set of rows leaves no dangling reference. */
  lemma CascadeConsistent(db: Db, ss: set<SurveyId>, qs: set<QuestionId>, os: set<AnswerId>, fs: set<FormId>)
    requires Consistent(db) && Closed(db, ss, qs, os, fs)
    ensures Consistent(Cascade(db, ss, qs, os, fs))
  {
    var r := Cascade(db, ss, qs, os, fs);
    forall x | x in r.formAnswers
      ensures FormAnswerRefOk(r, r.formAnswers[x])
    {
      assert FormAnswerRefOk(db, db.formAnswers[x]);
    }
  }

  /** Deleting a survey deletes its questions and forms (CASCADE), and with
      them the questions' options and every answer given in those forms or
      to those questions. */
  function DeleteSurvey(db: Db, s: SurveyId): (r: Db)
    requires Consistent(db)
    ensures Consistent(r)
    ensures r.surveys == db.surveys - {s} && r.respondents == db.respondents
    ensures forall q :: q in r.questions <==> q in db.questions && db.questions[q].survey != s
    ensures forall f :: f in r.forms <==> f in db.forms && db.forms[f].survey != s
    ensures forall a :: a in r.answers <==>
      a in db.answers && !(OptionOf(db.answers[a], db.questions.Keys) && db.questions[db.answers[a].question.value].survey == s)
    ensures forall x :: x in r.formAnswers ==>
      x in db.formAnswers && db.forms[db.formAnswers[x].form].survey != s
      && db.questions[db.formAnswers[x].question].survey != s
    ensures forall x :: x in db.formAnswers && CascadeTargetsIn(r, db.formAnswers[x]) ==> x in r.formAnswers
    ensures forall q :: q in r.questions ==> r.questions[q] == db.questions[q]
    ensures forall a :: a in r.answers ==> r.answers[a] == db.answers[a]
    ensures forall f :: f in r.forms ==> r.forms[f] == db.forms[f]
    ensures forall x :: x in r.formAnswers ==>
      r.formAnswers[x] == db.formAnswers[x].(choices := db.formAnswers[x].choices * r.answers.Keys)
  {
    var qs := QuestionsOf(db, s);
    var os := OptionsOf(db, qs);
    var fs := FormsOf(db, s);
    assert Closed(db, {s}, qs, os, fs);
    CascadeConsistent(db, {s}, qs, os, fs);
    Cascade(db, {s}, qs, os, fs)
  }

  /** Deleting a question deletes its options and every answer given to it
      or choosing one of its options as `choice`. */
  function DeleteQuestion(db: Db, q: QuestionId): (r: Db)
    requires Consistent(db)
    ensures Consistent(r)
    ensures r.surveys == db.surveys && r.respondents == db.respondents && r.forms == db.forms
    ensures r.questions == db.questions - {q}
    ensures forall a :: a in r.answers <==> a in db.answers && db.answers[a].question != Some(q)
    ensures forall x :: x in r.formAnswers <==>
      x in db.formAnswers && db.formAnswers[x].question != q
      && !(db.formAnswers[x].choice.Some? && db.answers[db.formAnswers[x].choice.value].question == Some(q))
    ensures forall a :: a in r.answers ==> r.answers[a] == db.answers[a]
    ensures forall x :: x in r.formAnswers ==>
      r.formAnswers[x] == db.formAnswers[x].(choices := db.formAnswers[x].choices * r.answers.Keys)
  {
    var os := OptionsOf(db, {q});
    CascadeConsistent(db, {}, {q}, os, {});
    Cascade(db, {}, {q}, os, {})
  }

  /** Deleting an answer option deletes the form answers whose single
      `choice` it is; form answers that list it among their `choices` stay
      and only lose that link. */
  function DeleteAnswer(db: Db, a: AnswerId): (r: Db)
    requires Consistent(db)
    ensures Consistent(r)
    ensures r.surveys == db.surveys && r.respondents == db.respondents
    ensures r.questions == db.questions && r.forms == db.forms
    ensures r.answers == db.answers - {a}
    ensures forall x :: x in r.formAnswers <==> x in db.formAnswers && db.formAnswers[x].choice != Some(a)
    ensures forall x :: x in r.formAnswers ==>
      a !in r.formAnswers[x].choices
      && r.formAnswers[x].choices == db.formAnswers[x].choices - {a}
      && r.formAnswers[x].(choices := db.formAnswers[x].choices) == db.formAnswers[x]
  {
    CascadeConsistent(db, {}, {}, {a}, {});
    Cascade(db, {}, {}, {a}, {})
  }

  /** Deleting a form deletes the answers given in it. */
  function DeleteForm(db: Db, f: FormId): (r: Db)
    requires Consistent(db)
    ensures Consistent(r)
    ensures r.surveys == db.surveys && r.respondents == db.respondents
    ensures r.questions == db.questions && r.answers == db.answers
    ensures r.forms == db.forms - {f}
    ensures forall x :: x in r.formAnswers <==> x in db.formAnswers && db.formAnswers[x].form != f
    ensures forall x :: x in r.formAnswers ==> r.formAnswers[x] == db.formAnswers[x]
  {
    assert Closed(db, {}, {}, {}, {f});
    CascadeConsistent(db, {}, {}, {}, {f});
    var r := Cascade(db, {}, {}, {}, {f});
    assert r.surveys == db.surveys && r.questions == db.questions && r.answers == db.answers;
    forall x | x in r.formAnswers
      ensures r.formAnswers[x] == db.formAnswers[x]
    {
      assert db.formAnswers[x].choices - {} == db.formAnswers[x].choices;
    }
    r
  }

  /** Deleting a form answer removes only that row (and its `choices`
      links). */
  function DeleteFormAnswer(db: Db, x: FormAnswerId): (r: Db)
    requires Consistent(db)
    ensures Consistent(r)
    ensures r.(formAnswers := db.formAnswers) == db
    ensures x !in r.formAnswers && r.formAnswers.Keys == db.formAnswers.Keys - {x}
    ensures forall y :: y in r.formAnswers ==> r.formAnswers[y] == db.formAnswers[y]
  {
    db.(formAnswers := db.formAnswers - {x})
  }

  /** Deleting a respondent keeps every form; the forms that referred to it
      have their `respondent` set to null (SET_NULL). */
  function DeleteRespondent(db: Db, p: RespondentId): (r: Db)
    requires Consistent(db)
    ensures Consistent(r)
    ensures r.respondents == db.respondents - {p}
    ensures r.(respondents := db.respondents, forms := db.forms) == db
    ensures r.forms.Keys == db.forms.Keys
    ensures forall f :: f in r.forms ==> r.forms[f].respondent != Some(p)
    ensures forall f :: f in db.forms ==> r.forms[f].(respondent := db.forms[f].respondent) == db.forms[f]
    ensures forall f :: f in db.forms && db.forms[f].respondent == Some(p) ==> r.forms[f].respondent == None
    ensures forall f :: f in db.forms && db.forms[f].respondent != Some(p) ==> r.forms[f] == db.forms[f]
  {
    db.(respondents := db.respondents - {p},
        forms := map f | f in db.forms ::
          if db.forms[f].respondent == Some(p) then db.forms[f].(respondent := None) else db.forms[f])
  }

  /** The `respondent` column is a plain foreign key: one respondent may be
      the respondent of several forms at once, while each form names at most
      one respondent. */
  lemma RespondentMayOwnManyForms(s: Survey, p: Respondent)
    ensures exists db: Db ::
      (Consistent(db) && 0 in db.forms && 1 in db.forms && db.forms[0].respondent == db.forms[1].respondent == Some(0))
  {
    var db := Db(map[0 := s], map[0 := p], map[], map[], map[0 := NewForm(0, Some(0)), 1 := NewForm(0, Some(0))], map[]);
    assert Consistent(db);
  }
}
