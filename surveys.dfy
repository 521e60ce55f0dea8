/**
  The survey record: the question posted into a conversation, its five answer
  labels, one list of respondents per answer, and the form and message ids
  stamped onto it once it has been posted.
 */
module Surveys {
  import opened Wrappers

  datatype Survey = Survey(
    convId: string,
    question: string,
    answer1: string, answer2: string, answer3: string, answer4: string, answer5: string,
    answer1UserIds: seq<string>, answer2UserIds: seq<string>, answer3UserIds: seq<string>,
    answer4UserIds: seq<string>, answer5UserIds: seq<string>,
    formId: Option<string>,
    itemId: Option<string>)

  /** A string field is truthy exactly when it is not empty; an answer field
      the posted page left out is the empty string here. */
  predicate Truthy(a: string) {
    a != ""
  }

  /** The label of answer `k`. */
  function Answer(s: Survey, k: int): string
    requires 1 <= k <= 5
  {
    match k
    case 1 => s.answer1
    case 2 => s.answer2
    case 3 => s.answer3
    case 4 => s.answer4
    case 5 => s.answer5
  }

  /** The respondents recorded for answer `k`. */
  function UserIds(s: Survey, k: int): seq<string>
    requires 1 <= k <= 5
  {
    match k
    case 1 => s.answer1UserIds
    case 2 => s.answer2UserIds
    case 3 => s.answer3UserIds
    case 4 => s.answer4UserIds
    case 5 => s.answer5UserIds
  }

  /** The number of responses recorded on a survey, over all five answers. */
  function Votes(s: Survey): nat {
    |s.answer1UserIds| + |s.answer2UserIds| + |s.answer3UserIds|
      + |s.answer4UserIds| + |s.answer5UserIds|
  }

  /** The number of responses recorded over a whole collection of surveys. */
  function TotalVotes(surveys: seq<Survey>): nat {
    if surveys == [] then 0 else Votes(surveys[0]) + TotalVotes(surveys[1..])
  }

  /** Replacing one survey of a collection changes the collection's total by
      exactly the change in that survey's own count. */
  lemma {:induction false} TotalVotesUpdate(surveys: seq<Survey>, i: nat, s: Survey)
    requires i < |surveys|
    ensures TotalVotes(surveys[i := s]) + Votes(surveys[i]) == TotalVotes(surveys) + Votes(s)
  {
    if i > 0 {
      TotalVotesUpdate(surveys[1..], i - 1, s);
      assert surveys[i := s][1..] == surveys[1..][i - 1 := s];
    }
  }

  /** The record the posting page builds from the submitted form: the
      conversation, the question, the five answers as given, and no
      respondents yet; no form or message id has been assigned. */
  function NewSurvey(convId: string, question: string,
                     a1: string, a2: string, a3: string, a4: string, a5: string): (s: Survey)
    ensures s.convId == convId && s.question == question
    ensures Answer(s, 1) == a1 && Answer(s, 2) == a2 && Answer(s, 3) == a3
         && Answer(s, 4) == a4 && Answer(s, 5) == a5
    ensures forall k :: 1 <= k <= 5 ==> UserIds(s, k) == []
    ensures Votes(s) == 0
    ensures s.formId == None && s.itemId == None
  {
    Survey(convId, question, a1, a2, a3, a4, a5, [], [], [], [], [], None, None)
  }
}
