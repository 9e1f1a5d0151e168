/**
 * Level 7 (frontend/src/pages/level7.jsx): the player types the code phrase
 * heard in an audio transmission. The phrase is compared after trimming and
 * upper-casing, so case and surrounding white space do not matter, but the
 * white space between the words does.
 */
module Level7 {
  import opened Text

  /** `correctAnswer`. */
  const CorrectAnswer := "FORTRESS UNLOCKED"

  const SuccessMessage := "Correct! Access restored. The fortress has been unlocked."
  const DeniedMessage := "Access denied. The code phrase is incorrect. Try again."

  /** Two sample entries: the phrase in lower case, and the phrase with two spaces between the words. */
  const TypedInLowerCase := "fortress unlocked"
  const TypedWithTwoSpaces := "FORTRESS  UNLOCKED"

  /** The test of `checkAnswer`: `userInput.trim().toUpperCase() === correctAnswer`. */
  predicate PhraseAccepted(userInput: string) {
    Upper(Trim(userInput)) == CorrectAnswer
  }

  /** Case does not matter: the same letters typed in lower case are judged alike. */
  lemma PhraseIgnoresCase(userInput: string)
    ensures PhraseAccepted(Lower(userInput)) <==> PhraseAccepted(userInput)
  {
    TrimLowerCommute(userInput);
    UpperOfLower(Trim(userInput));
  }

  /** Leading white space does not matter. */
  lemma PhraseIgnoresLeadingSpace(userInput: string)
    ensures PhraseAccepted(" " + userInput) <==> PhraseAccepted(userInput)
  {
    assert (" " + userInput)[1..] == userInput;
  }

  /** White space around the phrase does not matter. */
  lemma PhraseIgnoresPadding(before: string, phrase: string, after: string)
    requires forall i :: 0 <= i < |before| ==> IsWhitespace(before[i])
    requires forall i :: 0 <= i < |after| ==> IsWhitespace(after[i])
    requires phrase != [] && !IsWhitespace(phrase[0]) && !IsWhitespace(phrase[|phrase| - 1])
    ensures Trim(before + phrase + after) == phrase
    ensures PhraseAccepted(before + phrase + after) <==> Upper(phrase) == CorrectAnswer
  {
    TrimPadded(before, phrase, after);
  }

  /** The phrase typed in lower case is accepted. */
  lemma LowerCasePhrase()
    ensures PhraseAccepted(TypedInLowerCase)
  {
    TrimOfTrimmed(TypedInLowerCase);
    UpperOfLowerCasePhrase();
  }

  lemma UpperOfLowerCasePhrase()
    ensures Upper(TypedInLowerCase) == CorrectAnswer
  {
  }

  /** With two spaces between the words the phrase is refused. */
  lemma DoubleSpacedPhrase()
    ensures !PhraseAccepted(TypedWithTwoSpaces)
  {
    TrimOfTrimmed(TypedWithTwoSpaces);
  }

  class Page {
    var userInput: string
    var message: string
    var success: bool

    constructor ()
      ensures userInput == "" && message == "" && !success
    {
      userInput := "";
      message := "";
      success := false;
    }

    /** The phrase field's `onChange`. */
    method SetUserInput(text: string)
      modifies this
      ensures userInput == text && message == old(message) && success == old(success)
    {
      userInput := text;
    }

    /**
     * `checkAnswer`, whose button is shown until the level succeeds: the right phrase
     * sets `success` and schedules `onSolve` (the result); any other phrase only
     * sets the denial.
     */
    method CheckAnswer() returns (solveScheduled: bool)
      requires !success
      modifies this
      ensures solveScheduled <==> PhraseAccepted(userInput)
      ensures solveScheduled ==> success && message == SuccessMessage
      ensures !solveScheduled ==> !success && message == DeniedMessage
      ensures userInput == old(userInput)
    {
      if Upper(Trim(userInput)) == "FORTRESS UNLOCKED" {
        success := true;
        message := "Correct! Access restored. The fortress has been unlocked.";
        solveScheduled := true;
      } else {
        message := "Access denied. The code phrase is incorrect. Try again.";
        solveScheduled := false;
      }
    }

    /**
     * The "Proceed to Next Level" button of the panel shown once `success` is set: calls the
     * level's `onSolve` (the result) once more, besides the call made by
     * the timer set by `checkAnswer`, and changes nothing on the page.
     */
    method HandleProceed() returns (levelSolved: bool)
      requires success
      ensures levelSolved
    {
      levelSolved := true;
    }
  }
}
