/**
  The survey registry: building the interactive form a survey is posted as,
  appending the posted survey to the user's collection in the store, and
  tallying a form submission onto the first survey with the submitted form id.
  The messaging client is not part of this model: the random form id, the
  message id the client returns and the submitter's email address it resolves
  are parameters.
 */
module Circuit {
  import opened Wrappers
  import opened Store
  import opened Surveys

  /** What the store holds: a user's survey collection under 'settings' and
      the OAuth token under 'token'. */
  datatype Doc = SurveyList(surveys: seq<Survey>) | AuthToken(accessToken: string)

  datatype FormOption = FormOption(notification: string, text: string, value: string)

  datatype Control = Label(text: string) | Button(name: string, options: seq<FormOption>)

  datatype Form = Form(id: string, controls: seq<Control>)

  /** What a submission came to, standing for the line the handler logs;
      `Aborted` is the handler failing because the submitter's address could
      not be resolved. */
  datatype Outcome = UnknownForm | Aborted | UnknownChoice | Recorded(choice: int)

  const Notification := "Form submitted successfully"

  // ---------------------------------------------------------------------------
  // Form construction

  /** The value that selects answer `k` on the form. */
  function ChoiceValue(k: int): string
    requires 1 <= k <= 5
  {
    match k
    case 1 => "1"
    case 2 => "2"
    case 3 => "3"
    case 4 => "4"
    case 5 => "5"
  }

  /** The answer a submitted value selects, or 0 for a value that is none of
      '1'..'5'; the inverse of `ChoiceValue`. */
  function ChoiceIndex(v: string): (k: int)
    ensures 0 <= k <= 5
    ensures k != 0 ==> ChoiceValue(k) == v
    ensures k == 0 <==> forall j :: 1 <= j <= 5 ==> ChoiceValue(j) != v
  {
    if v == "1" then 1
    else if v == "2" then 2
    else if v == "3" then 3
    else if v == "4" then 4
    else if v == "5" then 5
    else 0
  }

  /** The button option for answer `k`: its label, its own index as value. */
  function OptionFor(s: Survey, k: int): FormOption
    requires 1 <= k <= 5
  {
    FormOption(Notification, Answer(s, k), ChoiceValue(k))
  }

  /** How many of answers 2 to `n` are truthy. */
  function PresentUpTo(s: Survey, n: int): nat
    requires 1 <= n <= 5
  {
    if n == 1 then 0 else PresentUpTo(s, n - 1) + if Truthy(Answer(s, n)) then 1 else 0
  }

  /** How many of answers 2 to 5 are truthy. */
  function PresentCount(s: Survey): nat {
    PresentUpTo(s, 5)
  }

  /** The options `postSurvey` pushes for answers 1 to `n`: the one for
      answer 1, then one for each truthy answer among 2 to `n`. */
  function Options(s: Survey, n: int): seq<FormOption>
    requires 1 <= n <= 5
  {
    if n == 1 then [OptionFor(s, 1)]
    else Options(s, n - 1) + if Truthy(Answer(s, n)) then [OptionFor(s, n)] else []
  }

  lemma ChoiceRoundTrip(k: int)
    requires 1 <= k <= 5
    ensures ChoiceIndex(ChoiceValue(k)) == k
  {
  }

  /** One option per truthy answer, besides the one for answer 1, which is first. */
  lemma {:induction false} OptionsLength(s: Survey, n: int)
    requires 1 <= n <= 5
    ensures |Options(s, n)| == 1 + PresentUpTo(s, n)
    ensures Options(s, n)[0] == OptionFor(s, 1)
  {
    if n > 1 {
      OptionsLength(s, n - 1);
    }
  }

  /** Every option is the one for the answer whose index it carries as value. */
  lemma {:induction false} OptionsValues(s: Survey, n: int)
    requires 1 <= n <= 5
    ensures forall o :: o in Options(s, n) ==>
              1 <= ChoiceIndex(o.value) <= n && o == OptionFor(s, ChoiceIndex(o.value))
  {
    if n > 1 {
      OptionsValues(s, n - 1);
      ChoiceRoundTrip(n);
    } else {
      ChoiceRoundTrip(1);
    }
  }

  /** The values of the options strictly increase. */
  lemma {:induction false} OptionsIncreasing(s: Survey, n: int)
    requires 1 <= n <= 5
    ensures forall i, j :: 0 <= i < j < |Options(s, n)| ==>
              ChoiceIndex(Options(s, n)[i].value) < ChoiceIndex(Options(s, n)[j].value)
  {
    if n > 1 {
      OptionsIncreasing(s, n - 1);
      OptionsValues(s, n - 1);
      ChoiceRoundTrip(n);
      var prev := Options(s, n - 1);
      assert forall i :: 0 <= i < |prev| ==> prev[i] in prev;
    }
  }

  /** Answer `k` among 2 to `n` has an option exactly when it is truthy. */
  lemma {:induction false} OptionsMembership(s: Survey, n: int)
    requires 1 <= n <= 5
    ensures forall k :: 2 <= k <= n ==> (OptionFor(s, k) in Options(s, n) <==> Truthy(Answer(s, k)))
  {
    if n > 1 {
      OptionsMembership(s, n - 1);
      OptionsValues(s, n - 1);
      ChoiceRoundTrip(n);
      assert OptionFor(s, n) !in Options(s, n - 1);
    }
  }

  /** The button options of a survey's form: answer 1 first, always; then one
      option per truthy answer among 2 to 5 and none for the others, each
      being the option of the answer whose index it carries as its value, in
      strictly increasing order of that index. */
  predicate IsAnswerOptions(opts: seq<FormOption>, s: Survey) {
    && |opts| == 1 + PresentCount(s)
    && opts[0] == OptionFor(s, 1)
    && (forall o :: o in opts ==> 1 <= ChoiceIndex(o.value) <= 5 && o == OptionFor(s, ChoiceIndex(o.value)))
    && (forall i, j :: 0 <= i < j < |opts| ==> ChoiceIndex(opts[i].value) < ChoiceIndex(opts[j].value))
    && (forall k :: 2 <= k <= 5 ==> (OptionFor(s, k) in opts <==> Truthy(Answer(s, k))))
  }

  /** The options pushed for all five answers have the shape of a survey form's. */
  lemma AnswerOptionsShape(s: Survey)
    ensures IsAnswerOptions(Options(s, 5), s)
  {
    OptionsLength(s, 5);
    OptionsValues(s, 5);
    OptionsIncreasing(s, 5);
    OptionsMembership(s, 5);
  }

  /** The form posted for a survey: it carries the form id, a label with the
      question and the 'answers' button group. */
  predicate IsSurveyForm(form: Form, s: Survey, formId: string) {
    && form.id == formId
    && |form.controls| == 2
    && form.controls[0] == Label(s.question)
    && form.controls[1].Button?
    && form.controls[1].name == "answers"
    && IsAnswerOptions(form.controls[1].options, s)
  }

  /** Builds the form as `postSurvey` does: the option for answer 1, then one
      push per truthy answer among 2 to 5. */
  method BuildForm(s: Survey, formId: string) returns (form: Form)
    ensures IsSurveyForm(form, s, formId)
    ensures forall o :: o in form.controls[1].options ==> o.notification == Notification
  {
    var options := [OptionFor(s, 1)];
    if Truthy(s.answer2) {
      options := options + [OptionFor(s, 2)];
    }
    assert options == Options(s, 2);
    if Truthy(s.answer3) {
      options := options + [OptionFor(s, 3)];
    }
    assert options == Options(s, 3);
    if Truthy(s.answer4) {
      options := options + [OptionFor(s, 4)];
    }
    assert options == Options(s, 4);
    if Truthy(s.answer5) {
      options := options + [OptionFor(s, 5)];
    }
    assert options == Options(s, 5);
    AnswerOptionsShape(s);
    form := Form(formId, [Label(s.question), Button("answers", options)]);
  }

  // ---------------------------------------------------------------------------
  // Posting a survey

  /** The settings document can be pushed onto: a survey list, or nothing yet. */
  predicate HoldsList(l: Lookup<Doc>) {
    !l.Found? || l.value.SurveyList?
  }

  /** `getSettings(userId) || []`: the stored collection, or the empty one when
      the user or the key is absent. */
  function SurveysIn(l: Lookup<Doc>): (r: seq<Survey>)
    requires HoldsList(l)
    ensures !l.Found? ==> r == []
    ensures l.Found? ==> l.value == SurveyList(r)
  {
    if l.Found? then l.value.surveys else []
  }

  /** `postSurvey`: builds the form and posts it; `item` is the id of the
      posted message, or None when the user has no client or the post is
      rejected, in which case nothing is stamped or saved. Otherwise it stamps
      the form id and the message id onto the survey, appends it to the
      user's collection and saves the collection. */
  method PostSurvey(store: Table<Doc>, userId: string, survey: Survey, formId: string, item: Option<string>)
      returns (form: Form)
    requires store.Valid()
    requires HoldsList(store.GetSettings(userId))
    modifies store
    ensures store.Valid()
    ensures IsSurveyForm(form, survey, formId)
    ensures HoldsList(store.GetSettings(userId))
    ensures item.None? ==>
      store.data == old(store.data) && store.users == old(store.users) && store.saves == old(store.saves)
    ensures item.Some? ==>
      && store.GetSettings(userId)
         == Found(SurveyList(SurveysIn(old(store.GetSettings(userId)))
                             + [survey.(formId := Some(formId), itemId := Some(item.value))]))
      && store.data == Put(old(store.data), Settings, userId, SurveyList(SurveysIn(store.GetSettings(userId))))
      && store.users == (if userId in old(store.data) then old(store.users) else old(store.users) + [userId])
      && store.saves == old(store.saves) + 1
  {
    form := BuildForm(survey, formId);
    if item.None? {
      return;
    }
    var posted := survey.(formId := Some(formId), itemId := Some(item.value));
    var surveys := SurveysIn(store.GetSettings(userId));
    surveys := surveys + [posted];
    store.SaveSettings(userId, SurveyList(surveys));
  }

  /** Posting adds exactly one survey: every earlier survey stays where and as
      it was, and the new last one carries the given form and message ids. */
  lemma PostAppends(before: seq<Survey>, survey: Survey, formId: string, itemId: string)
    ensures var after := before + [survey.(formId := Some(formId), itemId := Some(itemId))];
      && |after| == |before| + 1
      && after[..|before|] == before
      && after[|before|].formId == Some(formId)
      && after[|before|].itemId == Some(itemId)
      && after[|before|].question == survey.question
      && TotalVotes(after) == TotalVotes(before) + Votes(survey)
  {
    var after := before + [survey.(formId := Some(formId), itemId := Some(itemId))];
    TotalVotesAppend(before, after[|before|]);
  }

  lemma {:induction false} TotalVotesAppend(surveys: seq<Survey>, s: Survey)
    ensures TotalVotes(surveys + [s]) == TotalVotes(surveys) + Votes(s)
  {
    if surveys != [] {
      TotalVotesAppend(surveys[1..], s);
      assert (surveys + [s])[1..] == surveys[1..] + [s];
    }
  }

  // ---------------------------------------------------------------------------
  // Tallying a submission

  /** `surveys.find(s => s.formId === id)`, as a position: the first survey
      whose form id is `formId`, or None when there is none. */
  function FindFirst(surveys: seq<Survey>, formId: string): (r: Option<nat>)
    ensures r.None? <==> forall i :: 0 <= i < |surveys| ==> surveys[i].formId != Some(formId)
    ensures r.Some? ==> r.value < |surveys| && surveys[r.value].formId == Some(formId)
    ensures r.Some? ==> forall j :: 0 <= j < r.value ==> surveys[j].formId != Some(formId)
  {
    if surveys == [] then None
    else if surveys[0].formId == Some(formId) then Some(0)
    else match FindFirst(surveys[1..], formId)
      case None => None
      case Some(i) => Some(i + 1)
  }

  /** The survey with `email` appended to the respondents of the answer the
      submitted value selects; unchanged for a value that selects none. */
  function Tally(s: Survey, choice: string, email: string): (r: Survey)
    ensures forall k :: 1 <= k <= 5 ==>
              UserIds(r, k) == if k == ChoiceIndex(choice) then UserIds(s, k) + [email] else UserIds(s, k)
    ensures forall k :: 1 <= k <= 5 ==> Answer(r, k) == Answer(s, k)
    ensures r.convId == s.convId && r.question == s.question
    ensures r.formId == s.formId && r.itemId == s.itemId
    ensures Votes(r) == Votes(s) + if ChoiceIndex(choice) == 0 then 0 else 1
  {
    match ChoiceIndex(choice)
    case 1 => s.(answer1UserIds := s.answer1UserIds + [email])
    case 2 => s.(answer2UserIds := s.answer2UserIds + [email])
    case 3 => s.(answer3UserIds := s.answer3UserIds + [email])
    case 4 => s.(answer4UserIds := s.answer4UserIds + [email])
    case 5 => s.(answer5UserIds := s.answer5UserIds + [email])
    case _ => s
  }

  /** A value that selects no answer leaves the survey exactly as it was. */
  lemma TallyUnknownChoice(s: Survey, choice: string, email: string)
    requires ChoiceIndex(choice) == 0
    ensures Tally(s, choice, email) == s
  {
  }

  /** The collection after a submission: None when no survey has the form id
      (nothing is saved), else the collection with the submission tallied
      onto the first survey that has it. */
  function Record(surveys: seq<Survey>, formId: string, choice: string, email: string)
      : (r: Option<seq<Survey>>)
    ensures r.None? <==> forall i :: 0 <= i < |surveys| ==> surveys[i].formId != Some(formId)
    ensures r.Some? ==> |r.value| == |surveys|
  {
    match FindFirst(surveys, formId)
    case None => None
    case Some(i) => Some(surveys[i := Tally(surveys[i], choice, email)])
  }

  /** When several surveys share the form id, a submission tallies onto the
      first of them; every other survey of the collection stays unchanged. */
  lemma RecordFirstOnly(surveys: seq<Survey>, formId: string, choice: string, email: string, i: nat)
    requires i < |surveys| && surveys[i].formId == Some(formId)
    requires forall j :: 0 <= j < i ==> surveys[j].formId != Some(formId)
    ensures Record(surveys, formId, choice, email).Some?
    ensures var after := Record(surveys, formId, choice, email).value;
      && after[i] == Tally(surveys[i], choice, email)
      && forall j :: 0 <= j < |surveys| && j != i ==> after[j] == surveys[j]
  {
  }

  /** A submission adds exactly one respondent to the whole collection when
      its value selects an answer, and none otherwise. */
  lemma RecordVotes(surveys: seq<Survey>, formId: string, choice: string, email: string)
    requires Record(surveys, formId, choice, email).Some?
    ensures TotalVotes(Record(surveys, formId, choice, email).value)
         == TotalVotes(surveys) + if ChoiceIndex(choice) == 0 then 0 else 1
  {
    var i := FindFirst(surveys, formId).value;
    TotalVotesUpdate(surveys, i, Tally(surveys[i], choice, email));
  }

  /** A submission naming a form id no survey has leaves the collection alone. */
  lemma RecordUnknownForm(surveys: seq<Survey>, formId: string, choice: string, email: string)
    requires forall i :: 0 <= i < |surveys| ==> surveys[i].formId != Some(formId)
    ensures Record(surveys, formId, choice, email) == None
  {
  }

  /** A survey just posted with a form id no earlier survey has is the one a
      submission for that form id tallies onto. */
  lemma {:induction false} FindPosted(before: seq<Survey>, posted: Survey, formId: string)
    requires posted.formId == Some(formId)
    requires forall i :: 0 <= i < |before| ==> before[i].formId != Some(formId)
    ensures FindFirst(before + [posted], formId) == Some(|before|)
  {
    if before != [] {
      FindPosted(before[1..], posted, formId);
      assert (before + [posted])[1..] == before[1..] + [posted];
    }
  }

  /** `handleFormSubmission`: finds the first survey of the user's collection
      whose form id is the event's. With none it stops without saving. With
      one, it resolves the submitter's address (`email`, None when that
      lookup fails, which aborts the handler without saving), appends it to
      the respondents of the answer the submitted value selects, if any, and
      saves the collection. */
  method HandleFormSubmission(store: Table<Doc>, userId: string, eventFormId: string,
                              choice: string, email: Option<string>)
      returns (outcome: Outcome)
    requires store.Valid()
    requires store.GetSettings(userId).Found? && store.GetSettings(userId).value.SurveyList?
    modifies store
    ensures store.Valid()
    ensures store.users == old(store.users)
    ensures var surveys := old(store.GetSettings(userId)).value.surveys;
      if FindFirst(surveys, eventFormId).None? then
        outcome == UnknownForm && store.data == old(store.data) && store.saves == old(store.saves)
      else if email.None? then
        outcome == Aborted && store.data == old(store.data) && store.saves == old(store.saves)
      else
        var after := Record(surveys, eventFormId, choice, email.value).value;
        && outcome == (if ChoiceIndex(choice) == 0 then UnknownChoice else Recorded(ChoiceIndex(choice)))
        && store.data == Put(old(store.data), Settings, userId, SurveyList(after))
        && store.GetSettings(userId) == Found(SurveyList(after))
        && store.saves == old(store.saves) + 1
    ensures outcome.UnknownChoice? ==> store.data == old(store.data)
  {
    var surveys := store.GetSettings(userId).value.surveys;
    var found := FindFirst(surveys, eventFormId);
    if found.None? {
      outcome := UnknownForm;
      return;
    }
    if email.None? {
      outcome := Aborted;
      return;
    }
    var address := email.value;
    var i := found.value;
    var survey := surveys[i];
    if choice == "1" {
      survey := survey.(answer1UserIds := survey.answer1UserIds + [address]);
      outcome := Recorded(1);
    } else if choice == "2" {
      survey := survey.(answer2UserIds := survey.answer2UserIds + [address]);
      outcome := Recorded(2);
    } else if choice == "3" {
      survey := survey.(answer3UserIds := survey.answer3UserIds + [address]);
      outcome := Recorded(3);
    } else if choice == "4" {
      survey := survey.(answer4UserIds := survey.answer4UserIds + [address]);
      outcome := Recorded(4);
    } else if choice == "5" {
      survey := survey.(answer5UserIds := survey.answer5UserIds + [address]);
      outcome := Recorded(5);
    } else {
      outcome := UnknownChoice;
      assert surveys[i := survey] == surveys;
      PutStored(store.data, Settings, userId, SurveyList(surveys));
    }
    surveys := surveys[i := survey];
    store.SaveSettings(userId, SurveyList(surveys));
  }

  /** A posted survey and four submissions to it: answer 1 from one
      respondent, answer 2 from another, one for an unknown form, and one
      whose submitter cannot be resolved. */
  method SurveyScenario() {
    var store := new Table<Doc>();
    assert store.GetSettings("u") == NoUser;
    var lunch := NewSurvey("conv", "Lunch?", "Pizza", "Salad", "", "", "");
    var form := PostSurvey(store, "u", lunch, "f1", Some("item1"));
    assert form.controls[1].options == [OptionFor(lunch, 1), OptionFor(lunch, 2)];
    var posted := lunch.(formId := Some("f1"), itemId := Some("item1"));
    assert [] + [posted] == [posted];
    assert store.GetSettings("u") == Found(SurveyList([posted]));

    var outcome := HandleFormSubmission(store, "u", "f1", "1", Some("a@x.com"));
    assert outcome == Recorded(1);
    var once := posted.(answer1UserIds := ["a@x.com"]);
    assert FindFirst([posted], "f1") == Some(0);
    assert Tally(posted, "1", "a@x.com") == once;
    assert [posted][0 := once] == [once];
    assert store.GetSettings("u") == Found(SurveyList([once]));

    outcome := HandleFormSubmission(store, "u", "f1", "2", Some("b@x.com"));
    assert outcome == Recorded(2);
    var twice := once.(answer2UserIds := ["b@x.com"]);
    assert FindFirst([once], "f1") == Some(0);
    assert Tally(once, "2", "b@x.com") == twice;
    assert [once][0 := twice] == [twice];
    assert store.GetSettings("u") == Found(SurveyList([twice]));

    assert twice.formId != Some("zzz");
    outcome := HandleFormSubmission(store, "u", "zzz", "1", Some("c@x.com"));
    assert outcome == UnknownForm;
    assert store.GetSettings("u") == Found(SurveyList([twice]));

    var saved := store.saves;
    outcome := HandleFormSubmission(store, "u", "f1", "1", None);
    assert outcome == Aborted;
    assert store.GetSettings("u") == Found(SurveyList([twice])) && store.saves == saved;
  }
}
