/**
 * Level 6 (frontend/src/pages/level6.jsx): the player presses command buttons,
 * each at most once; when three have been pressed the sequence is checked
 * against REBOOT, ISOLATE, EXECUTE in that order.
 */
module Level6 {

  const CorrectSequence: seq<string> := ["REBOOT", "ISOLATE", "EXECUTE"]

  /** The commands on offer (shown in a random order, which is not modelled). */
  const AvailableCommands: seq<string> := ["REBOOT", "ISOLATE", "EXECUTE", "SCAN", "FIREWALL", "ANALYZE", "DECRYPT", "PATCH"]

  const GrantedMessage := "ACCESS GRANTED. CONTROL RESTORED."
  const DeniedMessage := "ACCESS DENIED. INCORRECT SEQUENCE."

  /** `sequence.every((cmd, index) => cmd === correctSequence[index])`; past the third place nothing matches. */
  predicate IsCorrect(sequence: seq<string>) {
    forall i :: 0 <= i < |sequence| ==> i < |CorrectSequence| && sequence[i] == CorrectSequence[i]
  }

  /** On three commands, the check is equality with REBOOT, ISOLATE, EXECUTE, element by element. */
  lemma IsCorrectIsEquality(sequence: seq<string>)
    requires |sequence| == |CorrectSequence|
    ensures IsCorrect(sequence) <==> sequence == CorrectSequence
  {
  }

  /** Order matters: the right commands in another order are refused. */
  lemma OrderMatters()
    ensures !IsCorrect(["ISOLATE", "REBOOT", "EXECUTE"])
    ensures !IsCorrect(["REBOOT", "EXECUTE", "ISOLATE"])
  {
    var s1: seq<string> := ["ISOLATE", "REBOOT", "EXECUTE"];
    var s2: seq<string> := ["REBOOT", "EXECUTE", "ISOLATE"];
    assert s1[0] != CorrectSequence[0];
    assert s2[1] != CorrectSequence[1];
  }

  /** No command twice. */
  predicate NoDuplicates(s: seq<string>) {
    forall i, j :: 0 <= i < j < |s| ==> s[i] != s[j]
  }

  class Page {
    var inputSequence: seq<string>
    var message: string
    var success: bool

    ghost predicate Valid()
      reads this
    {
      NoDuplicates(inputSequence)
    }

    constructor ()
      ensures Valid()
      ensures inputSequence == [] && message == "" && !success
    {
      inputSequence := [];
      message := "";
      success := false;
    }

    /**
     * `handleClick(command)`: ignored once solved and for a command already in the
     * sequence; otherwise the command goes at the end, and when that makes three the
     * sequence is checked (`checked`). A right sequence succeeds and schedules
     * `onSolve`; a wrong one schedules `resetSequence`.
     */
    method HandleClick(command: string) returns (accepted: bool, checked: bool, solveScheduled: bool, resetScheduled: bool)
      requires Valid()
      modifies this
      ensures Valid()
      ensures accepted <==> !old(success) && command !in old(inputSequence)
      ensures !accepted ==> inputSequence == old(inputSequence) && message == old(message) && success == old(success)
      ensures accepted ==> inputSequence == old(inputSequence) + [command]
      ensures checked <==> accepted && |inputSequence| == |CorrectSequence|
      ensures solveScheduled <==> checked && inputSequence == CorrectSequence
      ensures resetScheduled <==> checked && inputSequence != CorrectSequence
      ensures solveScheduled ==> success && message == GrantedMessage
      ensures resetScheduled ==> success == old(success) && message == DeniedMessage
      ensures accepted && !checked ==> message == old(message) && success == old(success)
    {
      accepted, checked, solveScheduled, resetScheduled := false, false, false, false;
      if success {
        return;
      }
      if command in inputSequence {
        return;
      }
      accepted := true;
      var newSequence := inputSequence + [command];
      inputSequence := newSequence;
      if |newSequence| == |CorrectSequence| {
        checked := true;
        IsCorrectIsEquality(newSequence);
        var isCorrect := CheckSequence(newSequence);
        solveScheduled := isCorrect;
        resetScheduled := !isCorrect;
      }
    }

    /**
     * `checkSequence(sequence)`: a right sequence sets `success` and the granted
     * message (the report to the backend may fail without effect); a wrong one sets
     * the denied message. The result tells which of `onSolve` or `resetSequence`
     * is scheduled.
     */
    method CheckSequence(sequence: seq<string>) returns (isCorrect: bool)
      modifies this
      ensures isCorrect <==> IsCorrect(sequence)
      ensures isCorrect ==> success && message == GrantedMessage
      ensures !isCorrect ==> success == old(success) && message == DeniedMessage
      ensures inputSequence == old(inputSequence)
    {
      isCorrect := IsCorrect(sequence);
      if isCorrect {
        success := true;
        message := "ACCESS GRANTED. CONTROL RESTORED.";
      } else {
        message := "ACCESS DENIED. INCORRECT SEQUENCE.";
      }
    }

    /** `resetSequence`: the sequence and the message cleared. */
    method ResetSequence()
      modifies this
      ensures Valid()
      ensures inputSequence == [] && message == "" && success == old(success)
    {
      inputSequence := [];
      message := "";
    }
  }
}
