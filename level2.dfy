/**
 * Level 2 (frontend/src/pages/level2.jsx): a table of eleven coordinate points
 * with a tick box each, the marker map, and a form asking for the place the
 * pattern points to. The level is solved by naming the city, in either spelling.
 */
module Level2 {
  import opened Text
  import MapComponent

  const Spelling1 := "visakhapatnam"
  const Spelling2 := "vishakhapatnam"

  const MapSolvedMessage := "Great job! You've placed markers on the map. What location does this pattern point to?"
  const CorrectMessage := "Correct! Proceed to the next level."
  const IncorrectError := "Incorrect. Try again. Look at the pattern formed closely."

  /** The test of `handleAnswerSubmit`: lower-cased, then trimmed, it is one of the two spellings. */
  predicate AnswerAccepted(answer: string) {
    var userAnswer := Trim(Lower(answer));
    userAnswer == Spelling1 || userAnswer == Spelling2
  }

  /** The comparison inside `handleAnswerSubmit`: the normalised answer is one of the two spellings. */
  method IsSpelling(userAnswer: string) returns (accepted: bool)
    ensures accepted <==> userAnswer == Spelling1 || userAnswer == Spelling2
  {
    accepted := userAnswer == Spelling1 || userAnswer == Spelling2;
  }

  /** The answer is judged by its trimmed, lower-cased form, whichever of the two steps comes first. */
  lemma AnswerIsTrimmedLowerCase(answer: string)
    ensures AnswerAccepted(answer) <==> Lower(Trim(answer)) in {Spelling1, Spelling2}
  {
    TrimLowerCommute(answer);
  }

  /** Case does not matter: an answer typed in capitals is judged like the same letters in lower case. */
  lemma AnswerIgnoresCase(answer: string)
    ensures AnswerAccepted(Upper(answer)) <==> AnswerAccepted(answer)
    ensures AnswerAccepted(Lower(answer)) <==> AnswerAccepted(answer)
  {
    LowerOfUpper(answer);
    LowerIdempotent(answer);
  }

  /** `!!checkedPoints[id]`: a point that was never ticked reads as unticked. */
  predicate Checked(points: map<int, bool>, id: int) {
    id in points && points[id]
  }

  /** The update of `handleCheckboxChange`: `{...prev, [id]: !prev[id]}`. */
  function Toggle(points: map<int, bool>, id: int): (r: map<int, bool>)
    ensures Checked(r, id) == !Checked(points, id)
    ensures forall k :: k != id ==> Checked(r, k) == Checked(points, k)
    ensures r.Keys == points.Keys + {id}
  {
    points[id := !Checked(points, id)]
  }

  /** Ticking a box twice leaves every box as it was. */
  lemma ToggleTwice(points: map<int, bool>, id: int)
    ensures forall k :: Checked(Toggle(Toggle(points, id), id), k) == Checked(points, k)
  {
  }

  class Page {
    var message: string
    var answerError: string
    var showRiddle: bool
    var checkedPoints: map<int, bool>
    const mapView: MapComponent.MapView

    constructor ()
      ensures message == "" && answerError == "" && !showRiddle && checkedPoints == map[]
      ensures fresh(mapView) && mapView.markers == []
    {
      message := "";
      answerError := "";
      showRiddle := false;
      checkedPoints := map[];
      mapView := new MapComponent.MapView();
    }

    /** `handleSolve`, the map's `onSolve`: a message only; the level is not solved by the map. */
    method HandleSolve()
      modifies this
      ensures message == MapSolvedMessage
      ensures answerError == old(answerError) && showRiddle == old(showRiddle) && checkedPoints == old(checkedPoints)
    {
      message := "Great job! You've placed markers on the map. What location does this pattern point to?";
    }

    /**
     * What the map's `checkSolution` would do through the `onSolve` prop this page
     * passes it: with five markers or more it calls `handleSolve`. No element of the
     * map component calls `checkSolution`, so in the running page this never happens.
     */
    method CheckMap() returns (mapSolved: bool)
      modifies this
      ensures mapSolved <==> |mapView.markers| >= MapComponent.MarkersNeeded
      ensures mapSolved ==> message == MapSolvedMessage
      ensures !mapSolved ==> message == old(message)
      ensures answerError == old(answerError) && showRiddle == old(showRiddle) && checkedPoints == old(checkedPoints)
    {
      mapSolved := mapView.CheckSolution();
      if mapSolved {
        HandleSolve();
      }
    }

    /**
     * `handleAnswerSubmit`: an accepted answer sets the message, clears the error and
     * calls the level's `onSolve` (the result); any other answer only sets the error.
     */
    method HandleAnswerSubmit(answer: string) returns (solved: bool)
      modifies this
      ensures solved <==> AnswerAccepted(answer)
      ensures solved ==> message == CorrectMessage && answerError == ""
      ensures !solved ==> message == old(message) && answerError == IncorrectError
      ensures showRiddle == old(showRiddle) && checkedPoints == old(checkedPoints)
    {
      var userAnswer := Trim(Lower(answer));
      var accepted := IsSpelling(userAnswer);
      if accepted {
        message := CorrectMessage;
        answerError := "";
        solved := true;
      } else {
        answerError := IncorrectError;
        solved := false;
      }
    }

    /** `toggleRiddle`. */
    method ToggleRiddle()
      modifies this
      ensures showRiddle == !old(showRiddle)
      ensures message == old(message) && answerError == old(answerError) && checkedPoints == old(checkedPoints)
    {
      showRiddle := !showRiddle;
    }

    /** `handleCheckboxChange(pointId)`: that box flips, every other box stays. */
    method HandleCheckboxChange(pointId: int)
      modifies this
      ensures checkedPoints == Toggle(old(checkedPoints), pointId)
      ensures message == old(message) && answerError == old(answerError) && showRiddle == old(showRiddle)
    {
      checkedPoints := checkedPoints[pointId := !(pointId in checkedPoints && checkedPoints[pointId])];
    }
  }
}
