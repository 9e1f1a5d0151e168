/**
 * Level 8 (frontend/src/pages/level8.jsx): three intrusion logs appear one by
 * one, then the player predicts the fourth. The prediction passes on its
 * timestamp and bypass code alone; a passing prediction reveals the fourth log.
 */
module Level8 {
  import opened Text

  datatype LogEntry = LogEntry(timestamp: string, bypass: string, description: string)

  /** `logData`: the three logs shown, then the one to predict. */
  const LogData: seq<LogEntry> := [
    LogEntry("2025-04-17 21:34:52", "SHADOW-7", "Unauthorized access detected in Mumbai grid systems."),
    LogEntry("2025-04-17 21:36:18", "PHANTOM-3", "Firewall breach on power distribution nodes 12-18."),
    LogEntry("2025-04-17 21:38:05", "SHADOW-9", "Critical systems isolated. Blackout sequence initiated."),
    LogEntry("2025-04-17 21:40:32", "PHANTOM-5", "Total grid shutdown averted. Backup systems online.")]

  /** The number of logs shown before the form. */
  const ShownLogs := 3

  const SuccessMessage := "✅ OVERRIDE SUCCESSFUL – Mumbai is safe!"
  const FailureMessage := "❌ OVERRIDE FAILED - Null: 'Nice try, but you'll have to do better than that.'"

  /** The three fields of the prediction form. */
  datatype Field = Timestamp | Bypass | Description

  /** `timestampCorrect`, all three alternatives as written. */
  predicate TimestampCorrect(timestamp: string) {
    Contains(timestamp, "21:40") || Contains(timestamp, "21.40") || Contains(timestamp, "2025-04-17 21:40")
  }

  /** `bypassCorrect`: "PHANTOM" in any case, and a "5" as typed. */
  predicate BypassCorrect(bypass: string) {
    Contains(Upper(bypass), "PHANTOM") && Contains(bypass, "5")
  }

  /** `timestampCorrect && bypassCorrect && descriptionCorrect`, the last being constantly true. */
  predicate PredictionCorrect(timestamp: string, bypass: string, description: string) {
    TimestampCorrect(timestamp) && BypassCorrect(bypass) && true
  }

  /** The full date and time contains "21:40", so the third alternative adds nothing. */
  lemma TimestampThirdAlternativeSubsumed(timestamp: string)
    ensures TimestampCorrect(timestamp) <==> Contains(timestamp, "21:40") || Contains(timestamp, "21.40")
  {
    if Contains(timestamp, "2025-04-17 21:40") {
      FullStampContainsTime("2025-04-17 21:40");
      ContainsTransitive(timestamp, "2025-04-17 21:40", "21:40");
    }
  }

  lemma FullStampContainsTime(stamp: string)
    requires stamp == "2025-04-17 21:40"
    ensures Contains(stamp, "21:40")
  {
    assert stamp[11..16] == "21:40";
    assert OccursAt(stamp, "21:40", 11);
  }

  /** The description never matters. */
  lemma DescriptionIgnored(timestamp: string, bypass: string, description: string, other: string)
    ensures PredictionCorrect(timestamp, bypass, description) == PredictionCorrect(timestamp, bypass, other)
  {
  }

  /** Typing the bypass in lower case changes nothing: "PHANTOM" is matched case-blind, and digits have no case. */
  lemma {:induction false} BypassIgnoresCase(bypass: string)
    ensures BypassCorrect(Lower(bypass)) <==> BypassCorrect(bypass)
  {
    UpperOfLower(bypass);
    var low := Lower(bypass);
    if Contains(bypass, "5") {
      var i :| 0 <= i <= |bypass| - 1 && OccursAt(bypass, "5", i);
      assert bypass[i] == '5';
      assert low[i..i + 1] == "5";
      assert OccursAt(low, "5", i);
    }
    if Contains(low, "5") {
      var i :| 0 <= i <= |low| - 1 && OccursAt(low, "5", i);
      assert low[i] == '5' && LowerChar(bypass[i]) == '5';
      assert bypass[i..i + 1] == "5";
      assert OccursAt(bypass, "5", i);
    }
  }

  /** The log to predict passes its own check. */
  lemma FourthLogPasses()
    ensures PredictionCorrect(LogData[3].timestamp, LogData[3].bypass, LogData[3].description)
  {
    var ts := LogData[3].timestamp;
    assert ts[11..16] == "21:40";
    assert OccursAt(ts, "21:40", 11);
    var bp := LogData[3].bypass;
    var up := Upper(bp);
    assert bp[8..9] == "5";
    assert OccursAt(bp, "5", 8);
    assert up[..7] == "PHANTOM";
    assert OccursAt(up, "PHANTOM", 0);
  }

  /** The second log's bypass, "PHANTOM-3", fails: it has no "5". */
  lemma EarlierBypassFails()
    ensures !BypassCorrect(LogData[1].bypass)
  {
    var bp := LogData[1].bypass;
    forall i | 0 <= i <= |bp| - 1 ensures !OccursAt(bp, "5", i) {
      assert bp[i..i + 1][0] == bp[i] != '5';
    }
  }

  class Page {
    var logs: seq<LogEntry>
    var timestamp: string
    var bypass: string
    var description: string
    var message: string
    var showForm: bool
    var success: bool

    /**
     * Before success the terminal shows a prefix of the first three logs; success
     * shows all four; the form appears only after the three.
     */
    ghost predicate Valid()
      reads this
    {
      && (!success ==> |logs| <= ShownLogs && logs == LogData[..|logs|])
      && (success ==> logs == LogData)
      && (showForm ==> |logs| >= ShownLogs)
    }

    constructor ()
      ensures Valid()
      ensures logs == [] && timestamp == "" && bypass == "" && description == ""
      ensures message == "" && !showForm && !success
    {
      logs := [];
      timestamp := "";
      bypass := "";
      description := "";
      message := "";
      showForm := false;
      success := false;
    }

    /**
     * The typing effect's timer, which runs while fewer than three logs are shown:
     * the next log is appended; after the third, showing the form is scheduled
     * (`formScheduled`).
     */
    method RevealNextLog() returns (formScheduled: bool)
      requires Valid() && |logs| < ShownLogs
      modifies this
      ensures Valid()
      ensures logs == old(logs) + [LogData[|old(logs)|]]
      ensures logs == LogData[..|old(logs)| + 1]
      ensures formScheduled <==> |logs| == ShownLogs
      ensures message == old(message) && showForm == old(showForm) && success == old(success)
    {
      formScheduled := |logs| == 2;
      assert LogData[..|logs| + 1] == LogData[..|logs|] + [LogData[|logs|]];
      logs := logs + [LogData[|logs|]];
    }

    /** The delayed `setShowForm(true)`. */
    method ShowForm()
      requires Valid() && |logs| >= ShownLogs
      modifies this
      ensures Valid()
      ensures showForm && logs == old(logs) && success == old(success) && message == old(message)
    {
      showForm := true;
    }

    /** `handleInputChange`: the named field alone takes the value. */
    method HandleInputChange(field: Field, value: string)
      modifies this
      ensures timestamp == if field == Timestamp then value else old(timestamp)
      ensures bypass == if field == Bypass then value else old(bypass)
      ensures description == if field == Description then value else old(description)
      ensures logs == old(logs) && message == old(message) && showForm == old(showForm) && success == old(success)
    {
      match field
      case Timestamp => timestamp := value;
      case Bypass => bypass := value;
      case Description => description := value;
    }

    /**
     * `checkAnswer`, whose button is in the form shown until success: a right
     * prediction sets `success`, appends the fourth log and schedules `onSolve`
     * (the result); a wrong one only sets the failure message, which a timer clears.
     */
    method CheckAnswer() returns (solveScheduled: bool)
      requires Valid() && showForm && !success
      modifies this
      ensures Valid()
      ensures solveScheduled <==> TimestampCorrect(timestamp) && BypassCorrect(bypass)
      ensures solveScheduled ==> success && message == SuccessMessage && logs == old(logs) + [LogData[3]] && logs == LogData
      ensures !solveScheduled ==> !success && message == FailureMessage && logs == old(logs)
      ensures timestamp == old(timestamp) && bypass == old(bypass) && description == old(description)
      ensures showForm
    {
      var correctLog := LogData[3];
      var timestampCorrect := Contains(timestamp, "21:40") || Contains(timestamp, "21.40") || Contains(timestamp, "2025-04-17 21:40");
      var bypassCorrect := Contains(Upper(bypass), "PHANTOM") && Contains(bypass, "5");
      var descriptionCorrect := true;
      if timestampCorrect && bypassCorrect && descriptionCorrect {
        success := true;
        message := SuccessMessage;
        assert LogData[..3] + [correctLog] == LogData;
        logs := logs + [correctLog];
        solveScheduled := true;
      } else {
        message := FailureMessage;
        solveScheduled := false;
      }
    }

    /** The failure message's timer. */
    method ClearMessage()
      modifies this
      ensures message == ""
      ensures logs == old(logs) && showForm == old(showForm) && success == old(success)
      ensures timestamp == old(timestamp) && bypass == old(bypass) && description == old(description)
    {
      message := "";
    }

    /**
     * The "Complete Mission" button of the panel shown once `success` is set: calls the
     * level's `onSolve` (the result) once more, besides the call made by
     * the timer set by `checkAnswer`, and changes nothing on the page.
     */
    method HandleProceed() returns (levelSolved: bool)
      requires Valid() && success
      ensures levelSolved
    {
      levelSolved := true;
    }
  }
}
