# Survey store — a Dafny model

This project models the core of a Django REST Framework survey backend.
Administrators define surveys made of typed questions (free text, single
choice, multiple choice) with answer options. Respondents start a survey by
creating a form and answer its questions in form answers. The model covers:

- **the entities and their tables** (`models.py`): Survey, Respondent,
  Question, Answer (an answer option), Form and FormAnswer. This includes
  their column defaults, the question-type choices, the `__str__`
  renderings and what every deletion takes with it. The tables are held by
  one `Store.Store` object. It has a map per table, insert methods and
  delete methods. Each delete's postcondition is the pure `Models.Delete…`
  function that states exactly which rows survive;
- **the active-survey filter** (`filters.py`): `start_date < now < end_date`,
  with `now` passed in;
- **the write-side serializer rules** (`serializers.py`):
  - a survey's `start_date` cannot be changed on update;
  - a question's survey is the one in the URL, whatever the payload says;
  - a question is created together with its options in one transaction,
    and every option is bound to the new question;
  - the respondent serializer's field checks;
- **the view rules** (`views.py`):
  - a create that refuses when the object already exists;
  - the lookups of a form's respondent and of a form's survey;
  - `get_serializer` switching to a list serializer for a list body.

Modules: `Wrappers` (Option, Result), `Strings` (slicing, decimal
rendering), `Times` (date-times, their order, ISO dates), `Models`, `Store`,
`Filters`, `Serializers`, `Views`.

Three behaviours of the code worth knowing:

- `Form.respondent` is a plain foreign key, so a respondent may own many
  forms.
- With the corrected `forms__pk` lookup, creating a respondent through a
  form's endpoint would insert a respondent without linking it to the
  form; as written, that endpoint never creates one.
- The respondent lookup by form is broken as written (see Findings).

## Model

| member | source | states |
|---|---|---|
| Models.TypeCode | project/apps/surveys/models.py:28-35 | every question type is stored as 1, 2 or 3, and decoding the stored code gives the type back |
| Models.TypeFromCode | project/apps/surveys/models.py:28-45 | a stored integer is a valid type exactly when it is 1, 2 or 3 |
| Models.TypeDisplay | project/apps/surveys/models.py:31-35 | the display label of each type ("Text", "Choice", "Checkbox") is 4 to 8 characters long |
| Models.TypeDisplayInjective | project/apps/surveys/models.py:31-35 | no two question types share a display label |
| Models.NewForm | project/apps/surveys/models.py:70-94 | a new form is not submitted, has no submission date and keeps the survey and respondent it was given |
| Models.SurveyStr | project/apps/surveys/models.py:13-14 | the rendering starts with the title cut to 15 characters and ", ", ends with the 10-character ISO start date, and is at most 27 characters long |
| Models.RespondentStr | project/apps/surveys/models.py:23-24 | the rendering starts with "first last, " and the rest is the decimal age without leading zeros, which parses back to the age |
| Models.QuestionStr | project/apps/surveys/models.py:50-51 | the rendering is the type's label, ": " and the text cut to 15 characters, at most 25 characters in all |
| Models.AnswerStr | project/apps/surveys/models.py:66-67 | the rendering is a prefix of the option's text: the whole text when it is 15 characters or shorter, exactly 15 characters otherwise |
| Models.FormStr | project/apps/surveys/models.py:97-99 | the rendering is "---- : " when the form has no respondent, or the respondent's first name and " : ", followed directly by the survey's rendering and nothing else |
| Models.FormAnswerStr | project/apps/surveys/models.py:132-133 | a form answer renders as its question does: the question type's label, ": " and the question text cut to 15 characters |
| Models.Consistent | project/apps/surveys/models.py:37-130 | every foreign key of every row refers to an existing row: question to survey, option to question, form to survey and respondent, form answer to form, question, `choice` and `choices` |
| Models.Cascade | project/apps/surveys/models.py:103-130 | removing sets of rows keeps the other rows unchanged, drops each form answer whose form, question or `choice` was removed, and removes the removed options from the `choices` of the rest |
| Models.CascadeConsistent | project/apps/surveys/models.py:103-124 | a cascade over a set of rows closed under the CASCADE columns leaves every foreign key pointing at an existing row |
| Models.DeleteSurvey | project/apps/surveys/models.py:37-41 | deleting a survey removes exactly its questions and forms and their questions' options and keeps every other row unchanged; it keeps no form answer that refers to them and every form answer whose targets survive, whose `choices` lose exactly the removed options; the store stays consistent |
| Models.DeleteQuestion | project/apps/surveys/models.py:55-61 | deleting a question removes exactly its options and the form answers given to it or choosing one of its options as `choice`; the other options stay unchanged and the surviving form answers lose only the removed options from their `choices`; the store stays consistent |
| Models.DeleteAnswer | project/apps/surveys/models.py:118-130 | deleting an option removes exactly the form answers whose `choice` it is; the others stay, and their only change is that the option leaves their `choices` |
| Models.DeleteForm | project/apps/surveys/models.py:103-107 | deleting a form removes exactly the form answers given in it and changes nothing else |
| Models.DeleteFormAnswer | project/apps/surveys/models.py:126-130 | deleting a form answer removes that row alone, with its `choices` links |
| Models.DeleteRespondent | project/apps/surveys/models.py:76-82 | deleting a respondent keeps every form; those that referred to it get a null respondent, nothing else changes, and the store stays consistent |
| Models.RespondentMayOwnManyForms | project/apps/surveys/models.py:76-82 | a consistent store can have two forms with the same respondent |
| Store.Store.CreateQuestion | project/apps/surveys/models.py:37-41 | inserting a question whose survey exists adds it under a fresh key and changes no other table |
| Store.Store.CreateAnswer | project/apps/surveys/models.py:55-61 | inserting an option whose question is null or exists adds it under a fresh key and changes no other table |
| Store.Store.CreateForm | project/apps/surveys/models.py:71-94 | a form is inserted under the drawn UUID with the column defaults; a UUID that is already a key fails with an integrity error and changes nothing |
| Store.Store.DeleteSurvey | project/apps/surveys/models.py:37-41 | the store afterwards is `Models.DeleteSurvey` of the store before when the survey existed, and unchanged otherwise |
| Store.Store.DeleteQuestion | project/apps/surveys/models.py:55-61 | the store afterwards is `Models.DeleteQuestion` of the store before when the question existed, and unchanged otherwise |
| Store.Store.DeleteAnswer | project/apps/surveys/models.py:118-130 | the store afterwards is `Models.DeleteAnswer` of the store before when the option existed, and unchanged otherwise |
| Store.Store.DeleteForm | project/apps/surveys/models.py:103-107 | the store afterwards is `Models.DeleteForm` of the store before when the form existed, and unchanged otherwise |
| Store.Store.DeleteFormAnswer | project/apps/surveys/models.py:102-133 | the store afterwards is `Models.DeleteFormAnswer` of the store before when the form answer existed, and unchanged otherwise |
| Store.Store.DeleteRespondent | project/apps/surveys/models.py:76-82 | the store afterwards is `Models.DeleteRespondent` of the store before when the respondent existed, and unchanged otherwise |
| Store.Store.CreateSurvey | project/apps/surveys/models.py:6-14 | inserting a survey adds it under a fresh key and changes nothing else |
| Store.Store.CreateRespondent | project/apps/surveys/models.py:17-24 | inserting a respondent adds it under a fresh key and changes nothing else |
| Store.Store.CreateFormAnswer | project/apps/surveys/models.py:102-130 | inserting a form answer whose form, question and options exist adds it under a fresh key and changes nothing else |
| Store.Store.SaveSurvey | project/apps/surveys/api/v1/serializers.py:15-18 | saving a survey's new field values replaces that row and changes nothing else |
| Times.Before | project/apps/surveys/filters.py:14-15 | the `<` of two timestamps, compared by year, month, day and time of day; its order properties are `Times.BeforeIsStrictTotalOrder` |
| Times.BeforeIsStrictTotalOrder | project/apps/surveys/filters.py:14-15 | the comparison the filter uses is irreflexive, transitive and total |
| Times.DateString | project/apps/surveys/models.py:14 | a date renders as ten characters: four-digit year, '-', two-digit month, '-', two-digit day |
| Times.DateStringRoundTrip | project/apps/surveys/models.py:14 | the year, month and day parse back out of the rendered date |
| Strings.Take | project/apps/surveys/models.py:66-67 | a slice `[:n]` is a prefix of at most `n` characters, the whole string when it is short enough and exactly `n` characters otherwise |
| Strings.NatToString | project/apps/surveys/models.py:23-24 | `str(n)` of a non-negative integer is a non-empty string of decimal digits without a leading zero |
| Strings.ParseNatToString | project/apps/surveys/models.py:23-24 | the decimal rendering of a number parses back to the number |
| Filters.IsActive | project/apps/surveys/filters.py:14-15 | a survey is active at `now` when `start_date < now` and `end_date > now`, both strict; only a survey whose start is before its end can be active |
| Filters.ActiveSurveys | project/apps/surveys/filters.py:11-16 | the filtered list is no longer than its input and holds only surveys active at `now` |
| Filters.ActiveSurveysMembership | project/apps/surveys/filters.py:12-16 | a survey is listed if and only if it is in the input and `start_date < now < end_date` |
| Filters.ActiveSurveysIsSubsequence | project/apps/surveys/filters.py:11-16 | the result is a subsequence of the input: surveys are kept unchanged and in order |
| Filters.ActiveSurveysAppend | project/apps/surveys/filters.py:11-16 | filtering two lists one after the other with the same `now` gives the filtered concatenation |
| Filters.BoundariesExcluded | project/apps/surveys/filters.py:14-15 | a survey that starts at `now` or ends at `now` is not active |
| Filters.EmptyWindowNeverListed | project/apps/surveys/filters.py:14-15 | a survey whose start is not before its end is never listed, at any `now` |
| Serializers.CheckText | project/apps/surveys/models.py:7 | a present text passes a `CharField(max_length=n)` exactly when it is non-blank and at most `n` characters, and passes unchanged; a blank text fails with "This field may not be blank." and a longer one with DRF's "Ensure this field has no more than n characters." |
| Serializers.ValidateSurvey | project/apps/surveys/api/v1/serializers.py:20-23 | validation fails with "changing `start_date` is not allowed" exactly when an existing survey is updated with `start_date`, and otherwise returns the attrs unchanged |
| Serializers.SurveyIsValid | project/apps/surveys/api/v1/serializers.py:15-23 | a payload validates exactly when it has every field on a full write, its title (if given) is 1 to 128 characters, and it carries no `start_date` when updating; a valid payload is returned unchanged |
| Serializers.FullUpdateAlwaysRejected | project/apps/surveys/api/v1/serializers.py:20-22 | a full (PUT) update of a survey never validates, because it must carry `start_date` |
| Serializers.ApplySurveyUpdate | project/apps/surveys/api/v1/serializers.py:15-18 | each field given in the attrs is written and each absent field keeps its old value |
| Serializers.UpdateKeepsStartDate | project/apps/surveys/api/v1/serializers.py:20-23 | an update that validates never moves a survey's start date |
| Serializers.UpdateSurvey | project/apps/surveys/api/v1/serializers.py:15-23 | an update succeeds exactly when the survey exists and the payload validates; it then writes the old row with the given fields replaced (`ApplySurveyUpdate`), which keeps the start date, and touches no other row; a failure changes nothing |
| Serializers.WithUrlSurvey | project/apps/surveys/api/v1/serializers.py:46-48 | the copy's `survey` is the URL key and every other field is the payload's own |
| Serializers.ValidateAnswer | project/apps/surveys/api/v1/serializers.py:26-32 | an option payload validates exactly when its `question`, if given, is an existing question and its text is present, non-blank and at most 128 characters; an unknown question key fails with DRF's 'Invalid pk "k" - object does not exist.' |
| Serializers.ValidateAnswers | project/apps/surveys/api/v1/serializers.py:40 | a nested option list validates exactly when every item does, item by item and in order |
| Serializers.PayloadType | project/apps/surveys/models.py:42-45 | an absent `type` means TEXT, and a given one is read through the declared codes |
| Serializers.ValidateQuestion | project/apps/surveys/api/v1/serializers.py:39-44 | a question payload validates exactly when it names an existing survey, has a valid or absent type, a text of 1 to 512 characters, and either no `answers` or a nested list that validates; the result carries those values; an unknown survey key fails with DRF's 'Invalid pk "k" - object does not exist.' and an undeclared type code with '"c" is not a valid choice.' |
| Serializers.QuestionToInternalValue | project/apps/surveys/api/v1/serializers.py:46-49 | the validated question's survey is always the URL key |
| Serializers.PayloadSurveyIgnored | project/apps/surveys/api/v1/serializers.py:46-49 | whatever `survey` the client sent, the validation result is the same |
| Serializers.NewAnswerRowsShape | project/apps/surveys/api/v1/serializers.py:53-61 | the new option rows have exactly the consecutive fresh keys, one per item, and each is bound to the new question |
| Serializers.NewAnswerRowAt | project/apps/surveys/api/v1/serializers.py:34-36 | the row made for item `i` holds that item's text and the new question, whatever question the item named |
| Serializers.RevalidateOptionAsWritten | project/apps/surveys/api/v1/serializers.py:53-60 | the second validation as the code runs it: an option that named a question is refused with "Incorrect type. Expected pk value, received Question.", and one without passes exactly when its text is 1 to 128 characters |
| Serializers.AsWrittenRejectsNamedOption | project/apps/surveys/api/v1/serializers.py:46-60 | as written, a payload that passes `to_internal_value` but names a question in one of its options is refused by `create`'s second validation |
| Serializers.RevalidateOption | project/apps/surveys/api/v1/serializers.py:34-36 | the second validation as evidently intended: an option passes exactly when its text is 1 to 128 characters, whatever question it named |
| Serializers.ValidatedOptionsRevalidate | project/apps/surveys/api/v1/serializers.py:53-60 | with the intended check, every option list that passed the first validation passes the second |
| Serializers.FirstInvalidOption | project/apps/surveys/api/v1/serializers.py:60 | the position of the first option the second validation refuses: every option before it passes, the one at it fails, and it is the list's length exactly when every option passes |
| Serializers.FindInvalidOption | project/apps/surveys/api/v1/serializers.py:60 | the loop over the nested options stops at exactly `FirstInvalidOption` |
| Serializers.SaveAnswers | project/apps/surveys/api/v1/serializers.py:61 | saving adds exactly the rows `NewAnswerRows` describes and changes no other table |
| Serializers.SaveAnswer | project/apps/surveys/api/v1/serializers.py:34-36 | saving one option adds the next row and keeps the invariant that the rows so far are `NewAnswerRows` of the items so far |
| Serializers.CreateQuestion | project/apps/surveys/api/v1/serializers.py:51-62 | a missing `answers` key fails before anything is written; the create succeeds exactly when every option passes the intended second validation, and then adds the question and exactly the rows `NewAnswerRows` describes, one per item, all bound to it; a refused option list fails with the error of the first refused option; any failure leaves the store as it was |
| Serializers.NewRowsAddCount | project/apps/surveys/api/v1/serializers.py:53-61 | the new options overwrite no existing one, so creating a question with `n` options adds exactly `n` option rows |
| Serializers.PostQuestion | project/apps/surveys/api/v1/serializers.py:46-62 | a POST succeeds exactly when `to_internal_value` with the URL's key accepts the payload and the payload has `answers`; it then adds the validated question in the URL's survey and exactly its option rows, and surveys, respondents, forms and form answers are left as they were; a failure changes nothing |
| Serializers.ValidateRespondent | project/apps/surveys/api/v1/serializers.py:74-77 | a respondent payload validates exactly when both names are present, non-blank and at most 128 characters and the age is present and in 0..32767; the row keeps those values |
| Views.RespondentByForm | project/apps/surveys/api/v1/views.py:176-179 | with the keyword `form` the view writes, which is no field of Respondent, the query raises a FieldError with Django's message listing the valid names; with the relation's query name `forms` it never raises, and a found respondent is the one linked to the given form |
| Views.FormRespondentLookupAsWritten | project/apps/surveys/api/v1/views.py:179 | the lookup as written (`form__pk`) always raises a FieldError |
| Views.AsWrittenLookupAlwaysFails | project/apps/surveys/api/v1/views.py:179 | the lookup as written fails with "Cannot resolve keyword 'form' into field. Choices are: age, first_name, forms, id, last_name" for every store and every form key |
| Views.FormRespondentLookup | project/apps/surveys/api/v1/views.py:176-179 | the corrected lookup never raises anything but a 404 |
| Views.FormRespondentLookupSpec | project/apps/surveys/api/v1/views.py:176-179 | in a consistent store the corrected lookup finds exactly when the form exists and has a respondent, returns that respondent, and gives a 404 otherwise |
| Views.FormSurveyLookup | project/apps/surveys/api/v1/views.py:187-190 | a found survey is the one that owns the given form, and nothing but a 404 is raised |
| Views.FormSurveyLookupSpec | project/apps/surveys/api/v1/views.py:187-190 | in a consistent store the lookup finds exactly when the form exists, and 404s exactly when it does not or the slug is not a UUID |
| Views.CreateGate | project/apps/surveys/api/v1/views.py:45-53 | an existing object gives 400 "object already exists", a 404 lets the create proceed, and any other exception propagates unchanged |
| Views.AsWrittenCreateNeverProceeds | project/apps/surveys/api/v1/views.py:171-179 | as written, a POST to a form's respondent endpoint never reaches the create |
| Views.FormRespondentCreate | project/apps/surveys/api/v1/views.py:45-53 | with the corrected `forms__pk` lookup: when the form already has a respondent the answer is 400 "object already exists" and the store is unchanged; otherwise exactly one respondent, not linked to the form, is inserted when the payload validates; any failure changes nothing |
| Views.SerializerKwargs | project/apps/surveys/api/v1/views.py:214-217 | a list body sets `many` to true, every other argument is kept, and any other body leaves the arguments unchanged |
| Views.ManyExactlyForLists | project/apps/surveys/api/v1/views.py:215-216 | called without `many`, the serializer gets `many=True` exactly when the body is a list, and nothing else is added |
| Views.Kwargs.GetSerializer | project/apps/surveys/api/v1/views.py:214-217 | the dict is updated in place to `SerializerKwargs` of its old value, and the result is a list serializer whenever the body is a list |

## Left out

- `FormAnswerCreateSerializer`, `FormCreateSerizlier` and `SubmitFormSerializer` (imported at project/apps/surveys/api/v1/views.py:29-39) are not part of this model: their source is not in the repository files modelled, so answer-payload validation, starting a survey and submitting a form are not modelled.
- The permission classes and `URLRelatedFilter` are not part of this model. Who may call a view is not modelled, nor is the list-by-URL filtering of the question, form-question and form-answer lists.
- `uuid.uuid4` is a parameter: `Store.Store.CreateForm` takes the drawn UUID as `token`. A UUID is an abstract key (`nat`).
- `timezone.now()` is a parameter (`now`) of the filter.
- Database transactions and concurrency: `@transaction.atomic` is modelled as sequential all-or-nothing. A rolled-back question create restores every table, but the keys drawn during it are not reused.
- Django keeps one auto-increment sequence per table. The model draws every integer key from one shared counter; only the keys' freshness matters to the properties.
- HTTP status codes other than the 400 of the create gate, response bodies, pagination, and the generic list/retrieve/update views are framework plumbing and are not modelled.
- Serializers.CheckText: does not strip surrounding whitespace as `CharField` does by default, so a text of spaces counts as non-blank here; the same holds for every character-field check built on it or on the same length test: Serializers.SurveyIsValid, Serializers.ValidateAnswer, Serializers.ValidateQuestion, Serializers.ValidateRespondent, Serializers.RevalidateOption and Serializers.RevalidateOptionAsWritten.
- Serializers.SurveyIsValid: reports one error, not DRF's per-field error dictionary, and does not check that the dates parse or are timezone-aware; Serializers.ValidateAnswer, Serializers.ValidateQuestion and Serializers.ValidateRespondent likewise report the first failing field's message only, and Serializers.ValidateAnswers and Serializers.CreateQuestion report the first failing option's message where `ListSerializer` collects every item's errors.
- Serializers.CreateQuestion: follows the intended second validation (`RevalidateOption`); the code as written refuses any option that named a question (see Findings), which the model states in `RevalidateOptionAsWritten` but does not run inside the method.
- Serializers.PostQuestion: runs `CreateQuestion` with the intended second validation, so a POST whose options name a question succeeds here; the code as written refuses such a POST (see Findings and `Serializers.AsWrittenRejectsNamedOption`).
- Views.FormRespondentCreate: runs the corrected `forms__pk` lookup (`FormRespondentLookup`), so it can refuse or insert; the code as written raises a FieldError on every request and never inserts a respondent (see Findings and `Views.AsWrittenCreateNeverProceeds`).
- Serializers.QuestionToInternalValue: `QuestionRUDView` (project/apps/surveys/api/v1/views.py:115-121) uses the same serializer for PUT and PATCH on `questions/<pk>/`, where the URL key is the question's own key, so an edit of question `k` sets its survey to `k` (or fails with "Invalid pk" when no survey `k` exists). Question updates are not modelled.
- Views.RespondentByForm: only the two keywords the program's lookups use are modelled, `form` (as written) and `forms` (the relation's query name); other lookup paths through Respondent, such as `pk` or `forms__survey`, resolve differently in Django and are outside the model.
- Views.FormSurveyLookup: a slug that is not a UUID is modelled as `None` (a 404); the query's parsing of the slug is not modelled.
- The `__str__` renderings of dates assume years 1..9999, Django's own range; a time zone conversion before `.date()` is not modelled.
- The admin registration and the URL configuration are not part of this model.

## Findings

| source | as written | input that shows it | evidently intended | confidence | as-written member | corrected member |
|---|---|---|---|---|---|---|
| project/apps/surveys/api/v1/views.py:179 | `get_object_or_404(Respondent, form__pk=form_pk)`; the reverse relation from Respondent to Form is declared with `related_name='forms'` (project/apps/surveys/models.py:81), so its query name is `forms` and `form` is not a field of Respondent: the query raises a FieldError, which `get_object_or_404` does not turn into a 404 | any request to `forms/<uuid>/respondent/`, e.g. a POST for a form that has no respondent: the gate propagates the FieldError and no respondent is ever created, retrieved, updated or deleted | `forms__pk=form_pk`, as `FormSurveyRetrieveView` uses at project/apps/surveys/api/v1/views.py:190 | high; not executed | Views.FormRespondentLookupAsWritten (with Views.AsWrittenLookupAlwaysFails and Views.AsWrittenCreateNeverProceeds) | Views.FormRespondentLookup (with Views.FormRespondentLookupSpec, used by Views.FormRespondentCreate) |
| project/apps/surveys/api/v1/serializers.py:53-60 | `create` feeds the already-validated `answers` back into `_AnswerCreateSerializer(data=answers, many=True)`; an option that named a question now holds a Question object under `question`, which the primary-key field refuses ("Incorrect type. Expected pk value, received Question."), and `raise_exception=True` rolls the transaction back | POST `surveys/1/questions/` with `{"text": "Colour?", "answers": [{"question": 5, "text": "red"}]}` where survey 1 and question 5 exist: `to_internal_value` accepts it, `create` refuses it and nothing is stored | the option is created and bound to the new question, as `_AnswerCreateSerializer.create` (serializers.py:34-36) does whatever question the option named | medium; not executed | Serializers.RevalidateOptionAsWritten (with Serializers.AsWrittenRejectsNamedOption) | Serializers.RevalidateOption (with Serializers.ValidatedOptionsRevalidate and Serializers.NewAnswerRowAt, used by Serializers.CreateQuestion and Serializers.PostQuestion) |
