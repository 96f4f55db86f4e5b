/** The survey application's database as one mutable object: six tables
    keyed by primary key, with the ORM's inserts and its cascading deletes. */
module Store {
  import opened Wrappers
  import opened Models

  /** Every integer primary key was handed out before `next`. */
  predicate PksBelow(db: Db, next: nat) {
    && (forall k :: k in db.surveys ==> k < next)
    && (forall k :: k in db.respondents ==> k < next)
    && (forall k :: k in db.questions ==> k < next)
    && (forall k :: k in db.answers ==> k < next)
    && (forall k :: k in db.formAnswers ==> k < next)
  }

  class Store {
    var surveys: map<SurveyId, Survey>
    var respondents: map<RespondentId, Respondent>
    var questions: map<QuestionId, Question>
    var answers: map<AnswerId, Answer>
    var forms: map<FormId, Form>
    var formAnswers: map<FormAnswerId, FormAnswer>
    /** The auto-increment counter for the integer primary keys. */
    var nextPk: nat

    function State(): Db
      reads this
    {
      Db(surveys, respondents, questions, answers, forms, formAnswers)
    }

    ghost predicate Valid()
      reads this
    {
      Consistent(State()) && PksBelow(State(), nextPk)
    }

    constructor ()
      ensures Valid() && State() == EmptyDb
    {
      surveys, respondents, questions, answers, forms, formAnswers := map[], map[], map[], map[], map[], map[];
      nextPk := 0;
    }

    /** Replaces every table at once; a rolled-back transaction restores the
        tables it started from. */
    method Load(db: Db)
      requires Valid() && Consistent(db) && PksBelow(db, nextPk)
      modifies this
      ensures Valid() && State() == db && nextPk == old(nextPk)
    {
      surveys, respondents, questions, answers, forms, formAnswers :=
        db.surveys, db.respondents, db.questions, db.answers, db.forms, db.formAnswers;
    }

    method CreateSurvey(s: Survey) returns (pk: SurveyId)
      requires Valid()
      modifies this
      ensures Valid() && pk !in old(surveys) && nextPk > pk
      ensures State() == old(State()).(surveys := old(surveys)[pk := s])
    {
      pk := nextPk;
      surveys := surveys[pk := s];
      nextPk := nextPk + 1;
    }

    method CreateRespondent(p: Respondent) returns (pk: RespondentId)
      requires Valid()
      modifies this
      ensures Valid() && pk !in old(respondents) && nextPk > pk
      ensures State() == old(State()).(respondents := old(respondents)[pk := p])
    {
      pk := nextPk;
      respondents := respondents[pk := p];
      nextPk := nextPk + 1;
    }

    /** Inserts a question; its `survey` must be an existing survey. */
    method CreateQuestion(q: Question) returns (pk: QuestionId)
      requires Valid() && q.survey in surveys
      modifies this
      ensures Valid() && pk == old(nextPk) && nextPk == pk + 1
      ensures State() == old(State()).(questions := old(questions)[pk := q])
      ensures questions == old(questions)[pk := q]
      ensures surveys == old(surveys) && respondents == old(respondents) && answers == old(answers)
      ensures forms == old(forms) && formAnswers == old(formAnswers)
    {
      pk := nextPk;
      questions := questions[pk := q];
      nextPk := nextPk + 1;
    }

    /** Inserts an answer option; a non-null `question` must exist. */
    method CreateAnswer(a: Answer) returns (pk: AnswerId)
      requires Valid() && AnswerRefOk(State(), a)
      modifies this
      ensures Valid() && pk == old(nextPk) && nextPk == pk + 1
      ensures State() == old(State()).(answers := old(answers)[pk := a])
      ensures answers == old(answers)[pk := a]
      ensures surveys == old(surveys) && respondents == old(respondents) && questions == old(questions)
      ensures forms == old(forms) && formAnswers == old(formAnswers)
    {
      pk := nextPk;
      answers := answers[pk := a];
      nextPk := nextPk + 1;
    }

    /** Inserts a form under the freshly drawn UUID `token`, with the
        column defaults: not submitted, no submission date. A token that is
        already a primary key violates the key's uniqueness. */
    method CreateForm(token: FormId, survey: SurveyId, respondent: Option<RespondentId>)
      returns (r: Result<FormId, Error>)
      requires Valid() && FormRefOk(State(), NewForm(survey, respondent))
      modifies this
      ensures Valid() && nextPk == old(nextPk)
      ensures r.Failure? <==> token in old(forms)
      ensures r.Failure? ==> State() == old(State()) && r.error.IntegrityError?
      ensures r.Success? ==> r.value == token
      ensures r.Success? ==> State() == old(State()).(forms := old(forms)[token := Form(respondent, survey, false, None)])
    {
      if token in forms {
        return Failure(IntegrityError("duplicate key value violates unique constraint"));
      }
      forms := forms[token := NewForm(survey, respondent)];
      r := Success(token);
    }

    method CreateFormAnswer(x: FormAnswer) returns (pk: FormAnswerId)
      requires Valid() && FormAnswerRefOk(State(), x)
      modifies this
      ensures Valid() && pk !in old(formAnswers) && nextPk > pk
      ensures State() == old(State()).(formAnswers := old(formAnswers)[pk := x])
    {
      pk := nextPk;
      formAnswers := formAnswers[pk := x];
      nextPk := nextPk + 1;
    }

    /** Saves new field values for an existing survey. */
    method SaveSurvey(pk: SurveyId, s: Survey)
      requires Valid() && pk in surveys
      modifies this
      ensures Valid() && nextPk == old(nextPk)
      ensures State() == old(State()).(surveys := old(surveys)[pk := s])
    {
      surveys := surveys[pk := s];
    }

    method DeleteSurvey(pk: SurveyId) returns (found: bool)
      requires Valid()
      modifies this
      ensures Valid() && nextPk == old(nextPk)
      ensures found == (pk in old(surveys))
      ensures State() == if found then Models.DeleteSurvey(old(State()), pk) else old(State())
    {
      found := pk in surveys;
      if found {
        Load(Models.DeleteSurvey(State(), pk));
      }
    }

    method DeleteQuestion(pk: QuestionId) returns (found: bool)
      requires Valid()
      modifies this
      ensures Valid() && nextPk == old(nextPk)
      ensures found == (pk in old(questions))
      ensures State() == if found then Models.DeleteQuestion(old(State()), pk) else old(State())
    {
      found := pk in questions;
      if found {
        Load(Models.DeleteQuestion(State(), pk));
      }
    }

    method DeleteAnswer(pk: AnswerId) returns (found: bool)
      requires Valid()
      modifies this
      ensures Valid() && nextPk == old(nextPk)
      ensures found == (pk in old(answers))
      ensures State() == if found then Models.DeleteAnswer(old(State()), pk) else old(State())
    {
      found := pk in answers;
      if found {
        Load(Models.DeleteAnswer(State(), pk));
      }
    }

    method DeleteForm(pk: FormId) returns (found: bool)
      requires Valid()
      modifies this
      ensures Valid() && nextPk == old(nextPk)
      ensures found == (pk in old(forms))
      ensures State() == if found then Models.DeleteForm(old(State()), pk) else old(State())
    {
      found := pk in forms;
      if found {
        Load(Models.DeleteForm(State(), pk));
      }
    }

    method DeleteFormAnswer(pk: FormAnswerId) returns (found: bool)
      requires Valid()
      modifies this
      ensures Valid() && nextPk == old(nextPk)
      ensures found == (pk in old(formAnswers))
      ensures State() == if found then Models.DeleteFormAnswer(old(State()), pk) else old(State())
    {
      found := pk in formAnswers;
      if found {
        Load(Models.DeleteFormAnswer(State(), pk));
      }
    }

    method DeleteRespondent(pk: RespondentId) returns (found: bool)
      requires Valid()
      modifies this
      ensures Valid() && nextPk == old(nextPk)
      ensures found == (pk in old(respondents))
      ensures State() == if found then Models.DeleteRespondent(old(State()), pk) else old(State())
    {
      found := pk in respondents;
      if found {
        Load(Models.DeleteRespondent(State(), pk));
      }
    }
  }
}
