/** The view-level rules: a create that refuses when the object already
    exists, the lookups of a form's respondent and of a form's survey, and
    the switch to a list serializer for a list body. */
module Views {
  import opened Wrappers
  import opened Models
  import opened Store
  import opened Serializers

  // ---------------------------------------------------------------------
  // get_object_or_404

  /** The outcome of `get_object_or_404`: the one matching row, a 404
      (no row, or a key the field cannot parse), or an exception it does
      not turn into a 404. */
  datatype Lookup<K, T> = Found(key: K, value: T) | Http404 | Raised(error: Error)

  /** The form key in a `<slug:pk>` URL: `None` when the slug is not a
      UUID, which the query rejects and `get_object_or_404` reports as a
      404. */
  type FormSlug = Option<FormId>

  /** The name under which a Respondent's query reaches its forms: the
      `related_name` of `Form.respondent`. */
  const RespondentFormsQueryName: string := "forms"

  /** The keyword `FormRespondent.get_object` filters on, which is no
      field of Respondent. */
  const WrittenFormsKeyword: string := "form"

  /** Django's message for a lookup keyword that names none of them; the
      choices are listed in sorted order. */
  function UnknownKeywordMessage(keyword: string): string {
    "Cannot resolve keyword '" + keyword + "' into field. Choices are: age, first_name, forms, id, last_name"
  }

  /** `get_object_or_404(Respondent, <keyword>__pk=slug)`: the respondent
      whose forms include form `slug`. The keyword is either the relation's
      query name or the `form` the view writes, which names no field of
      Respondent and so fails inside the query with a FieldError, not one
      of the exceptions turned into a 404. */
  function RespondentByForm(db: Db, keyword: string, slug: FormSlug): (r: Lookup<RespondentId, Respondent>)
    requires keyword == RespondentFormsQueryName || keyword == WrittenFormsKeyword
    ensures keyword != RespondentFormsQueryName ==> r == Raised(FieldError(UnknownKeywordMessage(keyword)))
    ensures keyword == RespondentFormsQueryName ==> !r.Raised?
    ensures r.Found? ==>
      && slug.Some? && slug.value in db.forms
      && db.forms[slug.value].respondent == Some(r.key)
      && r.key in db.respondents && r.value == db.respondents[r.key]
  {
    if keyword != RespondentFormsQueryName then Raised(FieldError(UnknownKeywordMessage(keyword)))
    else if slug.None? || slug.value !in db.forms then Http404
    else
      var owner := db.forms[slug.value].respondent;
      if owner.Some? && owner.value in db.respondents then Found(owner.value, db.respondents[owner.value])
      else Http404
  }

  /** `FormRespondent.get_object` as written: it filters on `form__pk`. */
  function FormRespondentLookupAsWritten(db: Db, slug: FormSlug): (r: Lookup<RespondentId, Respondent>)
    ensures r.Raised? && r.error.FieldError?
  {
    RespondentByForm(db, WrittenFormsKeyword, slug)
  }

  /** `FormRespondent.get_object` with the query name its relation
      declares (`forms__pk`). */
  function FormRespondentLookup(db: Db, slug: FormSlug): (r: Lookup<RespondentId, Respondent>)
    ensures !r.Raised?
  {
    RespondentByForm(db, RespondentFormsQueryName, slug)
  }

  /** As written, the lookup never answers: every request to the form's
      respondent endpoint ends in a FieldError, whatever the store holds. */
  lemma AsWrittenLookupAlwaysFails(db: Db, slug: FormSlug)
    ensures FormRespondentLookupAsWritten(db, slug) ==
      Raised(FieldError("Cannot resolve keyword '" + "form" + "' into field. Choices are: age, first_name, forms, id, last_name"))
  {
  }

  /** The corrected lookup finds the respondent linked to the form exactly
      when the form exists and has one, and 404s otherwise. */
  lemma FormRespondentLookupSpec(db: Db, slug: FormSlug)
    requires Consistent(db)
    ensures FormRespondentLookup(db, slug).Found? <==>
      slug.Some? && slug.value in db.forms && db.forms[slug.value].respondent.Some?
    ensures FormRespondentLookup(db, slug).Found? ==>
      FormRespondentLookup(db, slug).key == db.forms[slug.value].respondent.value
    ensures !FormRespondentLookup(db, slug).Found? ==> FormRespondentLookup(db, slug) == Http404
  {
    if slug.Some? && slug.value in db.forms && db.forms[slug.value].respondent.Some? {
      assert FormRefOk(db, db.forms[slug.value]);
    }
  }

  /** `FormSurveyRetrieveView.get_object`:
      `get_object_or_404(Survey, forms__pk=slug)`, the survey that owns the
      form. */
  function FormSurveyLookup(db: Db, slug: FormSlug): (r: Lookup<SurveyId, Survey>)
    ensures !r.Raised?
    ensures r.Found? ==>
      && slug.Some? && slug.value in db.forms && db.forms[slug.value].survey == r.key
      && r.key in db.surveys && r.value == db.surveys[r.key]
  {
    if slug.None? || slug.value !in db.forms then Http404
    else
      var owner := db.forms[slug.value].survey;
      if owner in db.surveys then Found(owner, db.surveys[owner]) else Http404
  }

  /** In a consistent store every existing form leads to its survey, and
      only a missing form (or a slug that is not a UUID) gives a 404. */
  lemma FormSurveyLookupSpec(db: Db, slug: FormSlug)
    requires Consistent(db)
    ensures FormSurveyLookup(db, slug).Found? <==> slug.Some? && slug.value in db.forms
    ensures FormSurveyLookup(db, slug).Http404? <==> slug.None? || slug.value !in db.forms
  {
    if slug.Some? && slug.value in db.forms {
      assert FormRefOk(db, db.forms[slug.value]);
    }
  }

  // ---------------------------------------------------------------------
  // Create only if absent

  const AlreadyExistsStatus: int := 400
  const AlreadyExistsDetail: string := "object already exists"

  /** What `CreateRetrieveUpdateDestroyAPIView.create` does after its
      `get_object()`: refuse with 400 when an object was found, go on to the
      ordinary create on a 404, and let any other exception through. */
  datatype CreateStep = Refuse(status: int, detail: string) | Proceed | Propagate(error: Error)

  function CreateGate<K, T>(lookup: Lookup<K, T>): (step: CreateStep)
    ensures step.Refuse? <==> lookup.Found?
    ensures step.Refuse? ==> step == Refuse(AlreadyExistsStatus, AlreadyExistsDetail)
    ensures step.Proceed? <==> lookup.Http404?
    ensures step.Propagate? <==> lookup.Raised?
    ensures step.Propagate? ==> step.error == lookup.error
  {
    match lookup
    case Found(_, _) => Refuse(AlreadyExistsStatus, AlreadyExistsDetail)
    case Http404 => Proceed
    case Raised(e) => Propagate(e)
  }

  /** As written, a POST to a form's respondent endpoint never creates
      anything: the gate always propagates the lookup's FieldError. */
  lemma AsWrittenCreateNeverProceeds(db: Db, slug: FormSlug)
    ensures CreateGate(FormRespondentLookupAsWritten(db, slug)).Propagate?
  {
  }

  /** A POST to `forms/<slug>/respondent/`, with the corrected lookup: when
      the form already has a respondent the store is left alone and the
      answer is 400 "object already exists"; otherwise the payload goes
      through `RespondentSerializer` and a new respondent is inserted. The
      serializer's fields do not include a form, so the new respondent is
      not linked to the form. */
  method FormRespondentCreate(store: Store, slug: FormSlug, p: RespondentPayload) returns (r: Result<RespondentId, Error>)
    requires store.Valid()
    modifies store
    ensures store.Valid()
    ensures FormRespondentLookup(old(store.State()), slug).Found? ==>
      r == Failure(AlreadyExists(AlreadyExistsStatus, AlreadyExistsDetail))
    ensures r.Failure? ==> store.State() == old(store.State()) && store.nextPk == old(store.nextPk)
    ensures r.Success? <==> FormRespondentLookup(old(store.State()), slug).Http404? && ValidateRespondent(p).Success?
    ensures r.Success? ==> r.value !in old(store.respondents)
    ensures r.Success? ==> store.State() == old(store.State()).(respondents := old(store.respondents)[r.value := ValidateRespondent(p).value])
  {
    var step := CreateGate(FormRespondentLookup(store.State(), slug));
    match step
    case Refuse(status, detail) =>
      r := Failure(AlreadyExists(status, detail));
    case Propagate(e) =>
      r := Failure(e);
    case Proceed =>
      var v := ValidateRespondent(p);
      if v.Failure? {
        r := Failure(v.error);
      } else {
        var pk := store.CreateRespondent(v.value);
        r := Success(pk);
      }
  }

  // ---------------------------------------------------------------------
  // get_serializer

  /** A parsed request body. */
  datatype Json =
    | JNull
    | JBool(b: bool)
    | JNumber(n: int)
    | JString(s: string)
    | JList(items: seq<Json>)
    | JObject(fields: map<string, Json>)

  /** A keyword argument handed to the serializer's constructor. */
  datatype Kwarg = Flag(on: bool) | Body(data: Json)

  /** The keyword arguments after `get_serializer`'s adjustment: `many` is
      set to true when the body is a list; otherwise nothing changes. */
  function SerializerKwargs(data: Json, kwargs: map<string, Kwarg>): (r: map<string, Kwarg>)
    ensures data.JList? ==> "many" in r && r["many"] == Flag(true)
    ensures forall k :: k in kwargs && k != "many" ==> k in r && r[k] == kwargs[k]
    ensures forall k :: k in r && k != "many" ==> k in kwargs
    ensures !data.JList? ==> r == kwargs
  {
    if data.JList? then kwargs["many" := Flag(true)] else kwargs
  }

  /** Called without a `many` argument, as the generic create view calls
      it, the serializer is a list serializer exactly when the
      body is a list. */
  lemma ManyExactlyForLists(data: Json, kwargs: map<string, Kwarg>)
    requires "many" !in kwargs
    ensures ("many" in SerializerKwargs(data, kwargs) && SerializerKwargs(data, kwargs)["many"] == Flag(true)) <==> data.JList?
    ensures SerializerKwargs(data, kwargs) - {"many"} == kwargs
  {
  }

  /** The keyword-argument dict that `get_serializer` receives and updates
      in place. */
  class Kwargs {
    var entries: map<string, Kwarg>

    constructor (entries: map<string, Kwarg>)
      ensures this.entries == entries
    {
      this.entries := entries;
    }

    /** `FormAnswerListCreateView.get_serializer`: sets `many` for a list
        body, then builds the serializer; `many` tells whether the result is
        a list serializer. */
    method GetSerializer(data: Json) returns (many: bool)
      modifies this
      ensures entries == SerializerKwargs(data, old(entries))
      ensures many <==> "many" in entries && entries["many"] == Flag(true)
      ensures data.JList? ==> many
    {
      if data.JList? {
        entries := entries["many" := Flag(true)];
      }
      many := "many" in entries && entries["many"] == Flag(true);
    }
  }
}
