/**
 * Level 5 (frontend/src/pages/level5.jsx): ten access records, each marked
 * "Authorized" or "Unauthorized" by the player. The analysis is right when the
 * records marked "Unauthorized" are exactly those at indices 3, 5 and 7.
 */
module Level5 {
  import opened Common

  const Authorized := "Authorized"
  const Unauthorized := "Unauthorized"

  /** The number of records in the dataset. */
  const DatasetLength := 10

  /** `expectedUnauthorizedIndices`. */
  const ExpectedUnauthorizedIndices: seq<int> := [3, 5, 7]

  const SuccessMessage := "Correct! You've successfully identified the unauthorized access attempts."
  const FailureMessage := "Your security analysis is incorrect. Review the access logs and try again."

  /** `Array(dataset.length).fill("Authorized")`. */
  function AllAuthorized(): (r: seq<string>)
    ensures |r| == DatasetLength && forall i :: 0 <= i < |r| ==> r[i] == Authorized
  {
    seq(DatasetLength, _ => Authorized)
  }

  /** The indices from `from` on whose answer is "Unauthorized", ascending. */
  function UnauthorizedFrom(answers: seq<string>, from: nat): (r: seq<int>)
    ensures StrictlyIncreasing(r)
    ensures forall x :: x in r <==> from <= x < |answers| && answers[x] == Unauthorized
    decreases |answers| - from
  {
    if from >= |answers| then []
    else
      var rest := UnauthorizedFrom(answers, from + 1);
      if answers[from] == Unauthorized then
        assert forall k :: 0 <= k < |rest| ==> rest[k] in rest;
        [from] + rest
      else rest
  }

  /** `userUnauthorizedIndices`: the map to index-or-minus-one, then the filter. */
  function UserUnauthorizedIndices(answers: seq<string>): seq<int> {
    UnauthorizedFrom(answers, 0)
  }

  /** The test of `checkAnswers`: every expected index was marked, and as many indices as expected. */
  predicate CheckPasses(answers: seq<string>) {
    var marked := UserUnauthorizedIndices(answers);
    (forall k :: 0 <= k < |ExpectedUnauthorizedIndices| ==> ExpectedUnauthorizedIndices[k] in marked)
    && |marked| == |ExpectedUnauthorizedIndices|
  }

  /** The indices the player marked "Unauthorized". */
  function MarkedSet(answers: seq<string>): set<int> {
    set i | 0 <= i < |answers| && answers[i] == Unauthorized
  }

  /** The check passes exactly when the marked records are those at 3, 5 and 7, no more and no fewer. */
  lemma CheckIsExactSet(answers: seq<string>)
    ensures CheckPasses(answers) <==> MarkedSet(answers) == {3, 5, 7}
  {
    var marked := UserUnauthorizedIndices(answers);
    var expected := ExpectedUnauthorizedIndices;
    if CheckPasses(answers) {
      assert expected[0] in marked && expected[1] in marked && expected[2] in marked;
      var a :| 0 <= a < 3 && marked[a] == 3;
      var b :| 0 <= b < 3 && marked[b] == 5;
      var c :| 0 <= c < 3 && marked[c] == 7;
      forall y | y in marked ensures y in expected {
        var j :| 0 <= j < 3 && marked[j] == y;
        assert j == a || j == b || j == c;
      }
      assert forall y :: y in MarkedSet(answers) <==> y in marked;
    }
    if MarkedSet(answers) == {3, 5, 7} {
      assert forall y :: y in marked <==> y in MarkedSet(answers);
      assert forall y :: y in marked <==> y in expected;
      SortedUnique(marked, expected);
    }
  }

  /** The untouched dataset fails the check: nothing is marked. */
  lemma InitialAnswersFail()
    ensures !CheckPasses(AllAuthorized())
  {
    CheckIsExactSet(AllAuthorized());
    assert 3 !in MarkedSet(AllAuthorized());
  }

  class Page {
    var userAnswers: seq<string>
    var message: string
    var success: bool

    /** One answer per record. */
    ghost predicate Valid()
      reads this
    {
      |userAnswers| == DatasetLength
    }

    constructor ()
      ensures Valid()
      ensures userAnswers == AllAuthorized() && message == "" && !success
    {
      userAnswers := AllAuthorized();
      message := "";
      success := false;
    }

    /** `handleAnswerChange(index, value)`: that answer alone changes. */
    method HandleAnswerChange(index: int, value: string)
      requires Valid() && 0 <= index < DatasetLength
      modifies this
      ensures Valid()
      ensures userAnswers == old(userAnswers)[index := value]
      ensures message == old(message) && success == old(success)
    {
      userAnswers := userAnswers[index := value];
    }

    /**
     * `checkAnswers`: a right analysis sets `success` and the message and calls
     * `onSolve(5)` (the result); a wrong one sets only the message.
     */
    method CheckAnswers() returns (solved: bool)
      requires Valid()
      modifies this
      ensures Valid()
      ensures solved <==> MarkedSet(userAnswers) == {3, 5, 7}
      ensures solved ==> success && message == SuccessMessage
      ensures !solved ==> success == old(success) && message == FailureMessage
      ensures userAnswers == old(userAnswers)
    {
      CheckIsExactSet(userAnswers);
      var correctEntriesSelected := CheckPasses(userAnswers);
      if correctEntriesSelected {
        success := true;
        message := "Correct! You've successfully identified the unauthorized access attempts.";
        solved := true;
      } else {
        message := "Your security analysis is incorrect. Review the access logs and try again.";
        solved := false;
      }
    }

    /**
     * `handleProceed`, the button of the success panel: calls the level's `onSolve`
     * (the result) a second time and changes nothing on the page.
     */
    method HandleProceed() returns (levelSolved: bool)
      requires Valid() && success
      ensures levelSolved
    {
      levelSolved := true;
    }

    /** `resetAnswers`: all records back to "Authorized", message and success cleared. */
    method ResetAnswers()
      modifies this
      ensures Valid()
      ensures userAnswers == AllAuthorized() && message == "" && !success
    {
      userAnswers := AllAuthorized();
      message := "";
      success := false;
    }
  }
}
