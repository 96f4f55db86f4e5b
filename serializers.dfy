/** The write-side rules of the API's serializers: a survey's start date
    cannot be changed, a question's survey comes from the URL, and a
    question is created together with its options or not at all. */
module Serializers {
  import opened Wrappers
  import opened Strings
  import opened Times
  import opened Models
  import opened Store

  const StartDateMessage: string := "changing `start_date` is not allowed"
  const RequiredMessage: string := "This field is required."
  const BlankMessage: string := "This field may not be blank."

  /** DRF's `max_length` message for a limit of `n` characters. */
  function TooLongMessage(n: nat): string {
    "Ensure this field has no more than " + NatToString(n) + " characters."
  }

  /** DRF's `does_not_exist` message for a primary key that names no row. */
  function InvalidPkMessage(pk: int): string {
    "Invalid pk \"" + IntToString(pk) + "\" - object does not exist."
  }

  /** DRF's `invalid_choice` message for a value outside the choices. */
  function InvalidChoiceMessage(input: int): string {
    "\"" + IntToString(input) + "\" is not a valid choice."
  }

  const IncorrectTypeMessage: string := "Incorrect type. Expected pk value, received Question."
  const MinValueMessage: string := "Ensure this value is greater than or equal to 0."
  const MaxValueMessage: string := "Ensure this value is less than or equal to 32767."

  // ---------------------------------------------------------------------
  // Character fields

  /** `CharField(max_length=n)`: present text must be non-blank and at most
      `n` characters long. */
  function CheckText(t: string, maxLength: nat): (r: Result<string, Error>)
    ensures r.Success? <==> 0 < |t| <= maxLength
    ensures r.Success? ==> r.value == t
    ensures r.Failure? ==> r.error.ValidationError?
    ensures |t| == 0 ==> r == Failure(ValidationError(BlankMessage))
    ensures maxLength < |t| ==> r == Failure(ValidationError(TooLongMessage(maxLength)))
  {
    if |t| == 0 then Failure(ValidationError(BlankMessage))
    else if |t| > maxLength then Failure(ValidationError(TooLongMessage(maxLength)))
    else Success(t)
  }

  // ---------------------------------------------------------------------
  // Surveys

  /** The validated fields of a survey payload; an absent field is `None`. */
  datatype SurveyAttrs = SurveyAttrs(title: Option<string>, startDate: Option<DateTime>, endDate: Option<DateTime>)

  /** `SurveySerializer.validate`. `updating` says whether the serializer
      was given an existing survey (`self.instance is not None`). */
  function ValidateSurvey(updating: bool, attrs: SurveyAttrs): (r: Result<SurveyAttrs, Error>)
    ensures r.Failure? <==> updating && attrs.startDate.Some?
    ensures r.Failure? ==> r.error == ValidationError(StartDateMessage)
    ensures r.Success? ==> r.value == attrs
  {
    if updating && attrs.startDate.Some? then Failure(ValidationError(StartDateMessage))
    else Success(attrs)
  }

  /** `is_valid()` of a survey payload: every field is required unless the
      update is partial, the title is a `CharField(max_length=128)`, then
      `validate` runs. */
  function SurveyIsValid(updating: bool, partial: bool, attrs: SurveyAttrs): (r: Result<SurveyAttrs, Error>)
    ensures r.Success? ==> r.value == attrs
    ensures r.Success? <==>
      && (!partial ==> attrs.title.Some? && attrs.startDate.Some? && attrs.endDate.Some?)
      && (attrs.title.Some? ==> 0 < |attrs.title.value| <= 128)
      && !(updating && attrs.startDate.Some?)
    ensures r.Failure? ==> r.error.ValidationError?
  {
    if !partial && (attrs.title.None? || attrs.startDate.None? || attrs.endDate.None?) then
      Failure(ValidationError(RequiredMessage))
    else if attrs.title.Some? && CheckText(attrs.title.value, 128).Failure? then
      Failure(CheckText(attrs.title.value, 128).error)
    else
      ValidateSurvey(updating, attrs)
  }

  /** A full (non-partial) update of a survey is always refused: it must
      carry every field, `start_date` included. */
  lemma FullUpdateAlwaysRejected(attrs: SurveyAttrs)
    ensures SurveyIsValid(true, false, attrs).Failure?
  {
  }

  /** `ModelSerializer.update`: the fields present in `attrs` are written,
      the others keep their value. */
  function ApplySurveyUpdate(s: Survey, attrs: SurveyAttrs): (r: Survey)
    ensures attrs.title.None? ==> r.title == s.title
    ensures attrs.title.Some? ==> r.title == attrs.title.value
    ensures attrs.startDate.None? ==> r.startDate == s.startDate
    ensures attrs.startDate.Some? ==> r.startDate == attrs.startDate.value
    ensures attrs.endDate.None? ==> r.endDate == s.endDate
    ensures attrs.endDate.Some? ==> r.endDate == attrs.endDate.value
  {
    Survey(
      if attrs.title.Some? then attrs.title.value else s.title,
      if attrs.startDate.Some? then attrs.startDate.value else s.startDate,
      if attrs.endDate.Some? then attrs.endDate.value else s.endDate)
  }

  /** An update that passes validation never moves the start date. */
  lemma UpdateKeepsStartDate(s: Survey, attrs: SurveyAttrs, partial: bool)
    requires SurveyIsValid(true, partial, attrs).Success?
    ensures ApplySurveyUpdate(s, SurveyIsValid(true, partial, attrs).value).startDate == s.startDate
  {
  }

  /** Updating survey `pk` through the serializer (PUT when `partial` is
      false, PATCH when it is true). */
  method UpdateSurvey(store: Store, pk: SurveyId, attrs: SurveyAttrs, partial: bool)
    returns (r: Result<Survey, Error>)
    requires store.Valid()
    modifies store
    ensures store.Valid() && store.nextPk == old(store.nextPk)
    ensures pk !in old(store.surveys) ==> r == Failure(NotFound)
    ensures r.Failure? ==> store.State() == old(store.State())
    ensures r.Success? <==> pk in old(store.surveys) && SurveyIsValid(true, partial, attrs).Success?
    ensures r.Success? ==> r.value == ApplySurveyUpdate(old(store.surveys[pk]), attrs)
    ensures r.Success? ==> r.value.startDate == old(store.surveys[pk]).startDate
    ensures r.Success? ==> store.State() == old(store.State()).(surveys := old(store.surveys)[pk := r.value])
  {
    if pk !in store.surveys {
      return Failure(NotFound);
    }
    var v := SurveyIsValid(true, partial, attrs);
    if v.Failure? {
      return Failure(v.error);
    }
    UpdateKeepsStartDate(store.surveys[pk], attrs, partial);
    var s := ApplySurveyUpdate(store.surveys[pk], v.value);
    store.SaveSurvey(pk, s);
    r := Success(s);
  }

  // ---------------------------------------------------------------------
  // Questions and their nested options

  /** A client's option payload; `question` is a primary key or null. */
  datatype AnswerPayload = AnswerPayload(question: Option<int>, text: Option<string>)

  /** A client's question payload; `answers` is the nested option list. */
  datatype QuestionPayload = QuestionPayload(
    survey: Option<int>,
    qtype: Option<int>,
    text: Option<string>,
    answers: Option<seq<AnswerPayload>>)

  datatype AnswerData = AnswerData(question: Option<QuestionId>, text: string)

  /** Validated question data; `answers` is absent when the payload had no
      `answers` key (the field is not required). */
  datatype QuestionData = QuestionData(
    survey: SurveyId,
    qtype: QuestionType,
    text: string,
    answers: Option<seq<AnswerData>>)

  /** `to_internal_value`'s first step: a copy of the payload whose
      `survey` is the URL's `pk`, whatever the client sent. */
  function WithUrlSurvey(p: QuestionPayload, pk: SurveyId): (r: QuestionPayload)
    ensures r.survey == Some(pk)
    ensures r.(survey := p.survey) == p
  {
    p.(survey := Some(pk))
  }

  /** The nested option serializer's fields: `question` must name an
      existing question if given, `text` is a required
      `CharField(max_length=128)`. */
  function ValidateAnswer(db: Db, p: AnswerPayload): (r: Result<AnswerData, Error>)
    ensures r.Success? <==>
      (p.question.Some? ==> p.question.value >= 0 && p.question.value in db.questions)
      && p.text.Some? && 0 < |p.text.value| <= 128
    ensures r.Success? ==> Some(r.value.text) == p.text
    ensures p.question.Some? && !(p.question.value >= 0 && p.question.value in db.questions) ==>
      r == Failure(ValidationError(InvalidPkMessage(p.question.value)))
  {
    if p.question.Some? && !(p.question.value >= 0 && p.question.value in db.questions) then
      Failure(ValidationError(InvalidPkMessage(p.question.value)))
    else if p.text.None? then Failure(ValidationError(RequiredMessage))
    else if CheckText(p.text.value, 128).Failure? then Failure(CheckText(p.text.value, 128).error)
    else Success(AnswerData(if p.question.Some? then Some(p.question.value as nat) else None, p.text.value))
  }

  /** The nested list: valid when every item is. */
  function ValidateAnswers(db: Db, ps: seq<AnswerPayload>): (r: Result<seq<AnswerData>, Error>)
    ensures r.Success? <==> forall i :: 0 <= i < |ps| ==> ValidateAnswer(db, ps[i]).Success?
    ensures r.Success? ==> |r.value| == |ps|
    ensures r.Success? ==> forall i :: 0 <= i < |ps| ==> r.value[i] == ValidateAnswer(db, ps[i]).value
  {
    if ps == [] then Success([])
    else if ValidateAnswer(db, ps[0]).Failure? then Failure(ValidateAnswer(db, ps[0]).error)
    else
      var rest := ValidateAnswers(db, ps[1..]);
      if rest.Failure? then Failure(rest.error)
      else Success([ValidateAnswer(db, ps[0]).value] + rest.value)
  }

  /** The type stored for a payload's `type`: its code's meaning, or TEXT
      when the key is absent. */
  function PayloadType(code: Option<int>): (t: Option<QuestionType>)
    ensures code.None? ==> t == Some(DefaultQuestionType)
    ensures code.Some? ==> t == TypeFromCode(code.value)
  {
    if code.None? then Some(DefaultQuestionType) else TypeFromCode(code.value)
  }

  /** The question serializer's fields: `survey` must name an existing
      survey, `type` must be one of the declared codes and defaults to TEXT,
      `text` is a required `CharField(max_length=512)`, `answers` is
      optional. */
  function ValidateQuestion(db: Db, p: QuestionPayload): (r: Result<QuestionData, Error>)
    ensures r.Success? <==>
      && p.survey.Some? && p.survey.value >= 0 && p.survey.value in db.surveys
      && PayloadType(p.qtype).Some?
      && p.text.Some? && 0 < |p.text.value| <= 512
      && (p.answers.Some? ==> ValidateAnswers(db, p.answers.value).Success?)
    ensures r.Success? ==> p.survey == Some(r.value.survey) && r.value.survey in db.surveys
    ensures r.Success? ==> p.text == Some(r.value.text) && 0 < |r.value.text| <= 512
    ensures r.Success? ==> PayloadType(p.qtype) == Some(r.value.qtype)
    ensures PayloadType(p.qtype).None? ==> r.Failure?
    ensures r.Success? ==> (r.value.answers.Some? <==> p.answers.Some?)
    ensures r.Success? && p.answers.Some? ==> ValidateAnswers(db, p.answers.value) == Success(r.value.answers.value)
    ensures p.survey.Some? && !(p.survey.value >= 0 && p.survey.value in db.surveys) ==>
      r == Failure(ValidationError(InvalidPkMessage(p.survey.value)))
    ensures p.survey.Some? && p.survey.value >= 0 && p.survey.value in db.surveys && PayloadType(p.qtype).None? ==>
      r == Failure(ValidationError(InvalidChoiceMessage(p.qtype.value)))
  {
    if p.survey.None? then Failure(ValidationError(RequiredMessage))
    else if !(p.survey.value >= 0 && p.survey.value in db.surveys) then Failure(ValidationError(InvalidPkMessage(p.survey.value)))
    else if PayloadType(p.qtype).None? then Failure(ValidationError(InvalidChoiceMessage(p.qtype.value)))
    else if p.text.None? then Failure(ValidationError(RequiredMessage))
    else if CheckText(p.text.value, 512).Failure? then Failure(CheckText(p.text.value, 512).error)
    else if p.answers.None? then
      Success(QuestionData(p.survey.value as nat, PayloadType(p.qtype).value, p.text.value, None))
    else if ValidateAnswers(db, p.answers.value).Failure? then
      Failure(ValidateAnswers(db, p.answers.value).error)
    else
      Success(QuestionData(p.survey.value as nat, PayloadType(p.qtype).value, p.text.value,
                           Some(ValidateAnswers(db, p.answers.value).value)))
  }

  /** `QuestionSerializer.to_internal_value` for the survey with URL key
      `pk`. */
  function QuestionToInternalValue(db: Db, pk: SurveyId, p: QuestionPayload): (r: Result<QuestionData, Error>)
    ensures r.Success? ==> r.value.survey == pk
    ensures r == ValidateQuestion(db, p.(survey := Some(pk)))
  {
    ValidateQuestion(db, WithUrlSurvey(p, pk))
  }

  /** What the client sends as `survey` makes no difference. */
  lemma PayloadSurveyIgnored(db: Db, pk: SurveyId, p: QuestionPayload, sent: Option<int>)
    ensures QuestionToInternalValue(db, pk, p) == QuestionToInternalValue(db, pk, p.(survey := sent))
  {
  }

  /** The option rows created for question `q` from `items`, with primary
      keys `first`, `first + 1`, ...: one row per item, every one bound to
      `q` whatever the item said. */
  function NewAnswerRows(q: QuestionId, first: nat, items: seq<AnswerData>): (rows: map<AnswerId, Answer>)
    decreases |items|
  {
    if items == [] then map[]
    else
      var n := |items| - 1;
      NewAnswerRows(q, first, items[..n])[first + n := Answer(Some(q), items[n].text)]
  }

  /** The rows are keyed exactly `first` .. `first + |items| - 1`, one per
      item, and every one is bound to `q`. */
  lemma {:induction false} NewAnswerRowsShape(q: QuestionId, first: nat, items: seq<AnswerData>)
    ensures forall a :: a in NewAnswerRows(q, first, items) <==> first <= a < first + |items|
    ensures forall a :: a in NewAnswerRows(q, first, items) ==> NewAnswerRows(q, first, items)[a].question == Some(q)
    ensures |NewAnswerRows(q, first, items)| == |items|
    decreases |items|
  {
    if items != [] {
      var n := |items| - 1;
      NewAnswerRowsShape(q, first, items[..n]);
      assert first + n !in NewAnswerRows(q, first, items[..n]);
    }
  }

  /** Row `first + i` holds the text of item `i`. */
  lemma {:induction false} NewAnswerRowAt(q: QuestionId, first: nat, items: seq<AnswerData>, i: nat)
    requires i < |items|
    ensures first + i in NewAnswerRows(q, first, items)
    ensures NewAnswerRows(q, first, items)[first + i] == Answer(Some(q), items[i].text)
    decreases |items|
  {
    var n := |items| - 1;
    if i < n {
      NewAnswerRowAt(q, first, items[..n], i);
    }
  }

  /** The second `is_valid()` in `create`, on one validated option, as
      the code runs it. The data fed back in are the validated values, so
      an option that named a question now carries a Question object under
      `question`; the primary-key field cannot read an object as a key and
      refuses it with a type error. */
  function RevalidateOptionAsWritten(a: AnswerData): (r: Result<AnswerData, Error>)
    ensures r.Success? <==> a.question.None? && 0 < |a.text| <= 128
    ensures a.question.Some? ==> r == Failure(ValidationError(IncorrectTypeMessage))
    ensures r.Success? ==> r.value == a
  {
    if a.question.Some? then Failure(ValidationError(IncorrectTypeMessage))
    else if CheckText(a.text, 128).Failure? then Failure(CheckText(a.text, 128).error)
    else Success(a)
  }

  /** The same check as evidently intended: `create` binds every option to
      the new question whatever it named, so only the text is checked. */
  function RevalidateOption(a: AnswerData): (r: Result<AnswerData, Error>)
    ensures r.Success? <==> 0 < |a.text| <= 128
    ensures r.Success? ==> r.value == a
  {
    if CheckText(a.text, 128).Failure? then Failure(CheckText(a.text, 128).error)
    else Success(a)
  }

  predicate AllRevalidate(items: seq<AnswerData>) {
    forall i :: 0 <= i < |items| ==> RevalidateOption(items[i]).Success?
  }

  /** As written, a question payload that passes `to_internal_value` but
      names a question in one of its options is still refused by `create`,
      which then rolls the whole transaction back. */
  lemma AsWrittenRejectsNamedOption(db: Db, pk: SurveyId, p: QuestionPayload, i: nat)
    requires QuestionToInternalValue(db, pk, p).Success?
    requires p.answers.Some? && i < |p.answers.value| && p.answers.value[i].question.Some?
    ensures QuestionToInternalValue(db, pk, p).value.answers.Some?
    ensures var items := QuestionToInternalValue(db, pk, p).value.answers.value;
      i < |items| && RevalidateOptionAsWritten(items[i]).Failure?
  {
    var q := WithUrlSurvey(p, pk);
    assert q.answers == p.answers;
    var items := ValidateAnswers(db, p.answers.value).value;
    assert items[i] == ValidateAnswer(db, p.answers.value[i]).value;
  }

  /** With the intended check, every option that passed the first
      validation passes the second one. */
  lemma {:induction false} ValidatedOptionsRevalidate(db: Db, ps: seq<AnswerPayload>)
    requires ValidateAnswers(db, ps).Success?
    ensures AllRevalidate(ValidateAnswers(db, ps).value)
  {
    var items := ValidateAnswers(db, ps).value;
    forall i | 0 <= i < |items|
      ensures RevalidateOption(items[i]).Success?
    {
      assert items[i] == ValidateAnswer(db, ps[i]).value;
    }
  }

  /** The position of the first option the second validation refuses, or
      `|items|` when it refuses none; `raise_exception=True` reports that
      option's error. */
  function FirstInvalidOption(items: seq<AnswerData>): (i: nat)
    ensures i <= |items|
    ensures forall j :: 0 <= j < i ==> RevalidateOption(items[j]).Success?
    ensures i < |items| ==> RevalidateOption(items[i]).Failure?
    ensures i == |items| <==> AllRevalidate(items)
  {
    if items == [] then 0
    else if RevalidateOption(items[0]).Failure? then 0
    else 1 + FirstInvalidOption(items[1..])
  }

  /** `is_valid()` of the nested option list handed to `create`, with the
      intended per-option check `RevalidateOption`: it walks the items
      until one is refused. */
  method FindInvalidOption(items: seq<AnswerData>) returns (i: nat)
    ensures i == FirstInvalidOption(items)
  {
    i := 0;
    assert items[0..] == items;
    while i < |items| && RevalidateOption(items[i]).Success?
      invariant i <= |items|
      invariant FirstInvalidOption(items) == i + FirstInvalidOption(items[i..])
    {
      assert items[i..][1..] == items[i + 1..];
      i := i + 1;
    }
    if i == |items| {
      assert items[i..] == [];
    }
  }

  /** `answers_serializer.save()`: one option row per item, each bound to
      question `q`, under consecutive fresh keys. */
  method SaveAnswers(store: Store, q: QuestionId, first: nat, items: seq<AnswerData>)
    requires store.Valid() && q in store.questions && store.nextPk == first
    modifies store
    ensures store.Valid() && store.nextPk == first + |items|
    ensures store.answers == old(store.answers) + NewAnswerRows(q, first, items)
    ensures store.surveys == old(store.surveys) && store.respondents == old(store.respondents)
    ensures store.questions == old(store.questions) && store.forms == old(store.forms)
    ensures store.formAnswers == old(store.formAnswers)
  {
    ghost var before := store.State();
    var i := 0;
    while i < |items|
      invariant 0 <= i <= |items|
      invariant store.Valid() && store.nextPk == first + i && q in store.questions
      invariant store.surveys == before.surveys && store.respondents == before.respondents
      invariant store.questions == before.questions && store.forms == before.forms
      invariant store.formAnswers == before.formAnswers
      invariant store.answers == before.answers + NewAnswerRows(q, first, items[..i])
    {
      SaveAnswer(store, q, first, items, i, before.answers);
      i := i + 1;
    }
    assert items[..i] == items;
  }

  /** One step of `SaveAnswers`: the row for item `i`. */
  method SaveAnswer(store: Store, q: QuestionId, first: nat, items: seq<AnswerData>, i: nat,
                    ghost base: map<AnswerId, Answer>)
    requires i < |items| && store.Valid() && q in store.questions && store.nextPk == first + i
    requires store.answers == base + NewAnswerRows(q, first, items[..i])
    modifies store
    ensures store.Valid() && store.nextPk == first + i + 1
    ensures store.answers == base + NewAnswerRows(q, first, items[..i + 1])
    ensures store.surveys == old(store.surveys) && store.respondents == old(store.respondents)
    ensures store.questions == old(store.questions) && store.forms == old(store.forms)
    ensures store.formAnswers == old(store.formAnswers)
  {
    var a := store.CreateAnswer(Answer(Some(q), items[i].text));
    RowsStep(base, q, first, items, i);
  }

  lemma RowsStep(base: map<AnswerId, Answer>, q: QuestionId, first: nat, items: seq<AnswerData>, i: nat)
    requires i < |items|
    ensures (base + NewAnswerRows(q, first, items[..i]))[first + i := Answer(Some(q), items[i].text)]
      == base + NewAnswerRows(q, first, items[..i + 1])
  {
    assert items[..i + 1][..i] == items[..i];
    UnionUpdate(base, NewAnswerRows(q, first, items[..i]), first + i, Answer(Some(q), items[i].text));
  }

  /** Updating a union at one key is updating its right-hand side there. */
  lemma UnionUpdate<K, V>(base: map<K, V>, rows: map<K, V>, k: K, v: V)
    ensures (base + rows)[k := v] == base + rows[k := v]
  {
  }

  /** `QuestionSerializer.create`, one transaction: take `answers` out of
      the validated data (a missing key fails before anything is written),
      insert the question, validate the options (bound to the new question)
      and insert one option row per item. A failed validation rolls the
      whole transaction back. */
  method CreateQuestion(store: Store, data: QuestionData) returns (r: Result<QuestionId, Error>)
    requires store.Valid() && data.survey in store.surveys
    modifies store
    ensures store.Valid()
    ensures data.answers.None? ==> r == Failure(KeyError("answers"))
    ensures r.Failure? ==> store.State() == old(store.State())
    ensures r.Success? <==> data.answers.Some? && AllRevalidate(data.answers.value)
    ensures data.answers.Some? && !AllRevalidate(data.answers.value) ==>
      r == Failure(RevalidateOption(data.answers.value[FirstInvalidOption(data.answers.value)]).error)
    ensures r.Success? ==> r.value !in old(store.questions) && r.value == old(store.nextPk)
    ensures r.Success? ==> store.questions == old(store.questions)[r.value := Question(data.survey, data.qtype, data.text)]
    ensures r.Success? ==> store.answers == old(store.answers) + NewAnswerRows(r.value, r.value + 1, data.answers.value)
    ensures store.surveys == old(store.surveys) && store.respondents == old(store.respondents)
    ensures store.forms == old(store.forms) && store.formAnswers == old(store.formAnswers)
  {
    if data.answers.None? {
      return Failure(KeyError("answers"));
    }
    var items := data.answers.value;
    var before := store.State();
    var q := store.CreateQuestion(Question(data.survey, data.qtype, data.text));
    var bad := FindInvalidOption(items);
    if bad < |items| {
      store.Load(before);
      return Failure(RevalidateOption(items[bad]).error);
    }
    SaveAnswers(store, q, q + 1, items);
    r := Success(q);
  }

  /** The new option rows overwrite no existing option: creating a
      question with `n` options adds exactly `n` option rows. */
  lemma NewRowsAddCount(old_: map<AnswerId, Answer>, q: QuestionId, items: seq<AnswerData>)
    requires forall k :: k in old_ ==> k < q + 1
    ensures old_.Keys !! NewAnswerRows(q, q + 1, items).Keys
    ensures |old_ + NewAnswerRows(q, q + 1, items)| == |old_| + |items|
  {
    NewAnswerRowsShape(q, q + 1, items);
    DisjointUnionSize(old_, NewAnswerRows(q, q + 1, items));
  }

  /** A union of maps with disjoint keys has the sum of their sizes. */
  lemma DisjointUnionSize<K, V>(m: map<K, V>, n: map<K, V>)
    requires m.Keys !! n.Keys
    ensures |m + n| == |m| + |n|
  {
    assert (m + n).Keys == m.Keys + n.Keys;
  }

  /** A POST to a survey's question list: `to_internal_value` with the
      URL's `pk`, then `create`. The question always lands in survey `pk`. */
  method PostQuestion(store: Store, pk: SurveyId, p: QuestionPayload) returns (r: Result<QuestionId, Error>)
    requires store.Valid()
    modifies store
    ensures store.Valid()
    ensures r.Failure? ==> store.State() == old(store.State())
    ensures store.surveys == old(store.surveys) && store.respondents == old(store.respondents)
    ensures store.forms == old(store.forms) && store.formAnswers == old(store.formAnswers)
    ensures r.Success? <==> QuestionToInternalValue(old(store.State()), pk, p).Success? && p.answers.Some?
    ensures r.Success? ==> r.value in store.questions && store.questions[r.value].survey == pk
    ensures r.Success? ==> pk in old(store.surveys) && r.value !in old(store.questions)
    ensures r.Success? ==>
      var v := QuestionToInternalValue(old(store.State()), pk, p).value;
      && store.questions == old(store.questions)[r.value := Question(pk, v.qtype, v.text)]
      && store.answers == old(store.answers) + NewAnswerRows(r.value, r.value + 1, v.answers.value)
  {
    var v := QuestionToInternalValue(store.State(), pk, p);
    if v.Failure? {
      return Failure(v.error);
    }
    if p.answers.Some? {
      ValidatedOptionsRevalidate(store.State(), p.answers.value);
    }
    r := CreateQuestion(store, v.value);
  }

  // ---------------------------------------------------------------------
  // Respondents

  /** A client's respondent payload; an absent field is `None`. */
  datatype RespondentPayload = RespondentPayload(firstName: Option<string>, lastName: Option<string>, age: Option<int>)

  /** The largest value of a `PositiveSmallIntegerField`. */
  const MaxSmallInt: int := 32767

  /** `RespondentSerializer`'s fields: both names are required
      `CharField(max_length=128)`s and `age` is a required
      `PositiveSmallIntegerField`. */
  function ValidateRespondent(p: RespondentPayload): (r: Result<Respondent, Error>)
    ensures r.Success? <==>
      && p.firstName.Some? && 0 < |p.firstName.value| <= 128
      && p.lastName.Some? && 0 < |p.lastName.value| <= 128
      && p.age.Some? && 0 <= p.age.value <= MaxSmallInt
    ensures r.Success? ==> Some(r.value.firstName) == p.firstName && Some(r.value.lastName) == p.lastName
    ensures r.Success? ==> Some(r.value.age as int) == p.age
    ensures r.Failure? ==> r.error.ValidationError?
  {
    if p.firstName.None? || p.lastName.None? || p.age.None? then Failure(ValidationError(RequiredMessage))
    else if CheckText(p.firstName.value, 128).Failure? then Failure(CheckText(p.firstName.value, 128).error)
    else if CheckText(p.lastName.value, 128).Failure? then Failure(CheckText(p.lastName.value, 128).error)
    else if p.age.value < 0 then Failure(ValidationError(MinValueMessage))
    else if p.age.value > MaxSmallInt then Failure(ValidationError(MaxValueMessage))
    else Success(Respondent(p.firstName.value, p.lastName.value, p.age.value as nat))
  }
}
