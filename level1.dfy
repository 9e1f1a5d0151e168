/**
 * Level 1 (frontend/src/pages/level1.jsx): solving the 8-puzzle reveals a binary
 * code; entering its decimal value opens a briefing video; closing the video
 * once it has ended completes the level.
 */
module Level1 {
  import opened Common
  import opened Text
  import PuzzleBoard

  const SecretBinaryCode := "10110101"

  const SolvedMessage := "Great job solving the puzzle!"
  const CorrectMessage := "Correct decimal conversion! Wait for the briefing to continue."
  const IncorrectError := "Incorrect decimal value."

  /** `parseInt(secretBinaryCode, 2)`, as `SecretIs181` shows. */
  const SecretDecimalValue := 181

  /** The secret code, read in base 2, is 181. */
  lemma SecretIs181()
    ensures ParseInt(SecretBinaryCode, 2) == Some(SecretDecimalValue)
  {
    BinaryCodeValue(SecretBinaryCode);
  }

  lemma BinaryCodeValue(ds: string)
    requires ds == SecretBinaryCode
    ensures ParseInt(ds, 2) == Some(181)
  {
    assert ds[0] == '1' && ds[1] == '0' && ds[2] == '1' && ds[3] == '1';
    assert ds[4] == '0' && ds[5] == '1' && ds[6] == '0' && ds[7] == '1';
    DigitsValue(ds);
    ParseIntOfDigits(ds, 2, 181);
  }

  lemma DigitsValue(ds: string)
    requires |ds| == 8 && ds[0] == '1' && ds[1] == '0' && ds[2] == '1' && ds[3] == '1'
    requires ds[4] == '0' && ds[5] == '1' && ds[6] == '0' && ds[7] == '1'
    ensures forall i :: 0 <= i < |ds| ==> IsDigitIn(ds[i], 2)
    ensures NumberValue(ds, 2) == 181
  {
    assert ds[..0] == [];
    NumberValueStep(ds, 1, 2, 0);
    NumberValueStep(ds, 2, 2, 1);
    NumberValueStep(ds, 3, 2, 2);
    NumberValueStep(ds, 4, 2, 5);
    NumberValueStep(ds, 5, 2, 11);
    NumberValueStep(ds, 6, 2, 22);
    NumberValueStep(ds, 7, 2, 45);
    NumberValueStep(ds, 8, 2, 90);
    assert ds[..8] == ds;
  }

  /**
   * The test of `handleDecimalSubmit`: `parseInt(decimalInput) === secretDecimalValue`;
   * a NaN reading equals nothing.
   */
  predicate DecimalAccepted(decimalInput: string) {
    var v := ParseInt(decimalInput, 10);
    v.Some? && v.value == SecretDecimalValue
  }

  /** The value of three decimal digits. */
  lemma ThreeDigitNumber(ds: string)
    requires |ds| == 3 && IsDigitIn(ds[0], 10) && IsDigitIn(ds[1], 10) && IsDigitIn(ds[2], 10)
    ensures forall i :: 0 <= i < |ds| ==> IsDigitIn(ds[i], 10)
    ensures NumberValue(ds, 10) == (DigitValue(ds[0]) * 10 + DigitValue(ds[1])) * 10 + DigitValue(ds[2])
  {
    assert forall i :: 0 <= i < 3 ==> IsDigitIn(ds[i], 10);
    var d0, d1 := DigitValue(ds[0]), DigitValue(ds[1]);
    assert ds[..0] == [];
    NumberValueStep(ds, 1, 10, 0);
    NumberValueStep(ds, 2, 10, d0);
    NumberValueStep(ds, 3, 10, d0 * 10 + d1);
    assert ds[..3] == ds;
  }

  /** A decimal reading: three digits and nothing after them. */
  lemma ThreeDigitValue(ds: string, value: nat)
    requires |ds| == 3 && IsDigitIn(ds[0], 10) && IsDigitIn(ds[1], 10) && IsDigitIn(ds[2], 10)
    requires value == (DigitValue(ds[0]) * 10 + DigitValue(ds[1])) * 10 + DigitValue(ds[2])
    ensures ParseInt(ds, 10) == Some(value)
  {
    ThreeDigitNumber(ds);
    ParseIntOfDigits(ds, 10, value);
  }

  /** "181" is accepted and "180" is not. */
  lemma DecimalExamples()
    ensures DecimalAccepted("181") && !DecimalAccepted("180")
  {
    var good, bad := "181", "180";
    ThreeDigitValue(good, 181);
    ThreeDigitValue(bad, 180);
  }

  class Page {
    var message: string
    var showBinaryCode: bool
    var binaryError: string
    var showModal: bool
    var videoEnded: bool
    var modalClosed: bool
    const board: PuzzleBoard.Board

    /**
     * The modal is only ever opened from the revealed form, and only closed by a
     * button that appears after the video has ended.
     */
    ghost predicate Valid()
      reads this, board
    {
      && board.Valid()
      && (showModal ==> showBinaryCode)
      && (modalClosed ==> showBinaryCode && videoEnded)
    }

    constructor ()
      ensures Valid()
      ensures message == "" && !showBinaryCode && binaryError == ""
      ensures !showModal && !videoEnded && !modalClosed
      ensures fresh(board) && board.tiles == PuzzleBoard.Start && !board.isSolved
    {
      message := "";
      showBinaryCode := false;
      binaryError := "";
      showModal := false;
      videoEnded := false;
      modalClosed := false;
      board := new PuzzleBoard.Board();
    }

    /**
     * A click on a tile of the board; when that move solves the puzzle the board's
     * `onSolve`, which is `handleSolve`, reveals the binary code.
     */
    method ClickTile(index: int)
      requires Valid() && 0 <= index < 9
      modifies this, board
      ensures Valid()
      ensures board.tiles ==
        if old(board.isSolved) then old(board.tiles) else PuzzleBoard.Moved(old(board.tiles), index)
      ensures board.isSolved && !old(board.isSolved) ==>
        showBinaryCode && message == SolvedMessage && board.tiles == PuzzleBoard.Goal
      ensures !(board.isSolved && !old(board.isSolved)) ==>
        showBinaryCode == old(showBinaryCode) && message == old(message)
      ensures binaryError == old(binaryError) && showModal == old(showModal)
      ensures videoEnded == old(videoEnded) && modalClosed == old(modalClosed)
    {
      var solvedNow := board.Click(index);
      if solvedNow {
        HandleSolve();
      }
    }

    /** The board's reset button. */
    method ResetBoard()
      requires Valid()
      modifies board
      ensures Valid()
      ensures board.tiles == PuzzleBoard.Start && !board.isSolved
    {
      board.ResetGame();
    }

    /** `handleSolve`: the board's `onSolve`. */
    method HandleSolve()
      requires board.Valid()
      modifies this
      ensures message == SolvedMessage && showBinaryCode
      ensures binaryError == old(binaryError) && showModal == old(showModal)
      ensures videoEnded == old(videoEnded) && modalClosed == old(modalClosed)
    {
      message := "Great job solving the puzzle!";
      showBinaryCode := true;
    }

    /**
     * `handleDecimalSubmit`, on the form that is rendered once the code is shown:
     * the right value clears the error and opens the modal, a wrong one only sets
     * the error.
     */
    method HandleDecimalSubmit(decimalInput: string) returns (accepted: bool)
      requires Valid() && showBinaryCode
      modifies this
      ensures Valid()
      ensures accepted <==> ParseInt(decimalInput, 10) == Some(SecretDecimalValue)
      ensures accepted ==> message == CorrectMessage && binaryError == "" && showModal
      ensures !accepted ==> binaryError == IncorrectError && message == old(message) && showModal == old(showModal)
      ensures showBinaryCode && videoEnded == old(videoEnded) && modalClosed == old(modalClosed)
    {
      var value := ParseInt(decimalInput, 10);
      accepted := value == Some(SecretDecimalValue);
      if accepted {
        message := "Correct decimal conversion! Wait for the briefing to continue.";
        binaryError := "";
        showModal := true;
      } else {
        binaryError := "Incorrect decimal value.";
      }
    }

    /** `handleVideoEnded`, the video's `onEnded`; the video exists only while the modal is open. */
    method HandleVideoEnded()
      requires Valid() && showModal
      modifies this
      ensures Valid()
      ensures videoEnded
      ensures showModal == old(showModal) && modalClosed == old(modalClosed) && showBinaryCode == old(showBinaryCode)
      ensures message == old(message) && binaryError == old(binaryError)
    {
      videoEnded := true;
    }

    /**
     * `closeModal`, whose buttons are rendered only once the video has ended: closes
     * the modal and calls the level's `onSolve` (the result).
     */
    method CloseModal() returns (levelSolved: bool)
      requires Valid() && showModal && videoEnded
      modifies this
      ensures Valid()
      ensures levelSolved && modalClosed && !showModal
      ensures showBinaryCode && videoEnded
      ensures message == old(message) && binaryError == old(binaryError)
    {
      modalClosed := true;
      showModal := false;
      levelSolved := true;
    }
  }
}
