/**
 * Level 3 (frontend/src/pages/level3.jsx): a word-association game played
 * against the backend's word-game service. Each scored guess joins a history
 * kept in descending order of score; a successful guess ends the game.
 */
module Level3 {
  import opened Common
  import opened Text

  /** A row of the history table. */
  datatype Entry = Entry(word: string, score: int)

  /**
   * What `POST /word-game/guess` gave back: a thrown request, an `error` body, or a score.
   * An `ErrorBody`'s text is non-empty: the page tests `response.data.error` for truth, and
   * the backend's only error is "Invalid session ID".
   */
  datatype GuessReply =
    | RequestFailed
    | ErrorBody(error: string)
    | ScoreBody(similarity: int, isSuccessful: bool)

  const StartFailedMessage := "Failed to start game. Please try again."
  const RequestFailedMessage := "Error checking guess. Please try again."
  const VeryCloseMessage := "You're getting very close! Need to reach 95% similarity."

  /**
   * The success message, with the score printed in decimal. Its last four characters are
   * written as the page has them: a party-popper emoji mis-encoded as U+F8FF, "üéâ".
   */
  function FoundMessage(similarity: int): string {
    "You found the keyword with high similarity (" + IntString(similarity) + "%)! \U{F8FF}\U{00FC}\U{00E9}\U{00E2}"
  }

  /** The band of scores that earns the "very close" hint. */
  predicate VeryClose(score: int) {
    85 <= score < 95
  }

  /**
   * What `handleGuess` sends for the text in the field: nothing when it is blank
   * (`!guess.trim()`), otherwise `guess.trim().toLowerCase()`.
   */
  function GuessRequest(guess: string): Option<string> {
    if Trim(guess) == "" then None else Some(Lower(Trim(guess)))
  }

  // ---------------------------------------------------------------------------
  // The history order: `sort((a, b) => b.score - a.score)`, a stable sort

  predicate SortedDesc(s: seq<Entry>) {
    forall i, j :: 0 <= i < j < |s| ==> s[i].score >= s[j].score
  }

  /** Places `e` after every entry scoring at least as much, before the rest. */
  function InsertDesc(s: seq<Entry>, e: Entry): (r: seq<Entry>)
    ensures |r| == |s| + 1
  {
    if s == [] then [e]
    else if s[0].score >= e.score then [s[0]] + InsertDesc(s[1..], e)
    else [e] + s
  }

  /** Inserting adds `e` and loses nothing. */
  lemma {:induction false} InsertDescPermutes(s: seq<Entry>, e: Entry)
    ensures multiset(InsertDesc(s, e)) == multiset(s) + multiset{e}
  {
    if s != [] {
      assert s == [s[0]] + s[1..];
      InsertDescPermutes(s[1..], e);
    }
  }

  /** The position `InsertDesc` gives `e`: how many leading entries score at least as much. */
  function InsertPosition(s: seq<Entry>, e: Entry): (k: nat)
    ensures k <= |s|
  {
    if s == [] || s[0].score < e.score then 0 else 1 + InsertPosition(s[1..], e)
  }

  /** `InsertDesc` keeps the list around `e`: the leading entries scoring at least as much, `e`, then the rest. */
  lemma InsertDescShape(s: seq<Entry>, e: Entry)
    ensures var k := InsertPosition(s, e);
      && InsertDesc(s, e) == s[..k] + [e] + s[k..]
      && (forall i :: 0 <= i < k ==> s[i].score >= e.score)
      && (k < |s| ==> s[k].score < e.score)
  {
    InsertDescSplices(s, e);
    InsertPositionBounds(s, e);
  }

  /** `InsertDesc` splices `e` in at `InsertPosition`. */
  lemma {:induction false} InsertDescSplices(s: seq<Entry>, e: Entry)
    ensures var k := InsertPosition(s, e); InsertDesc(s, e) == s[..k] + [e] + s[k..]
  {
    if s != [] {
      if s[0].score >= e.score {
        var t := s[1..];
        InsertDescSplices(t, e);
        var k' := InsertPosition(t, e);
        assert InsertDesc(s, e) == [s[0]] + (t[..k'] + [e] + t[k'..]);
        assert s[..k' + 1] == [s[0]] + t[..k'];
        assert s[k' + 1..] == t[k'..];
      } else {
        assert s[..0] + [e] + s[0..] == [e] + s;
      }
    }
  }

  /** The entries before `InsertPosition` score at least as much as `e`; the one at it scores less. */
  lemma {:induction false} InsertPositionBounds(s: seq<Entry>, e: Entry)
    ensures var k := InsertPosition(s, e);
      && (forall i :: 0 <= i < k ==> s[i].score >= e.score)
      && (k < |s| ==> s[k].score < e.score)
  {
    if s != [] && s[0].score >= e.score {
      InsertPositionBounds(s[1..], e);
    }
  }

  /**
   * Into a descending history the new entry goes after all entries scoring at least
   * as much (so after earlier ties) and before all entries scoring less; the old
   * entries keep their order, and the result is descending again.
   */
  lemma InsertDescPlacesEntry(s: seq<Entry>, e: Entry)
    requires SortedDesc(s)
    ensures var k := InsertPosition(s, e);
      && InsertDesc(s, e) == s[..k] + [e] + s[k..]
      && (forall i :: 0 <= i < k ==> s[i].score >= e.score)
      && (forall i :: k <= i < |s| ==> s[i].score < e.score)
    ensures SortedDesc(InsertDesc(s, e))
  {
    InsertDescShape(s, e);
    var k := InsertPosition(s, e);
    if k < |s| {
      assert forall i :: k <= i < |s| ==> s[i].score <= s[k].score;
    }
    SplicedIsSorted(s, e, k);
  }

  /** Putting `e` between the entries scoring at least as much and those scoring less keeps the order. */
  lemma SplicedIsSorted(s: seq<Entry>, e: Entry, k: nat)
    requires k <= |s| && SortedDesc(s)
    requires forall i :: 0 <= i < k ==> s[i].score >= e.score
    requires forall i :: k <= i < |s| ==> s[i].score < e.score
    ensures SortedDesc(s[..k] + [e] + s[k..])
  {
    var r := s[..k] + [e] + s[k..];
    assert forall x :: 0 <= x < k ==> r[x] == s[x];
    assert r[k] == e;
    assert forall x :: k < x < |r| ==> r[x] == s[x - 1];
  }

  /** The stable descending sort, as an insertion sort from the front of the list. */
  function SortDesc(s: seq<Entry>): (r: seq<Entry>)
    ensures |r| == |s|
  {
    if s == [] then [] else InsertDesc(SortDesc(s[..|s| - 1]), s[|s| - 1])
  }

  /** The sort is a permutation. */
  lemma {:induction false} SortDescPermutes(s: seq<Entry>)
    ensures multiset(SortDesc(s)) == multiset(s)
  {
    if s != [] {
      assert s == s[..|s| - 1] + [s[|s| - 1]];
      SortDescPermutes(s[..|s| - 1]);
      InsertDescPermutes(SortDesc(s[..|s| - 1]), s[|s| - 1]);
    }
  }

  /** The sort always produces a descending list. */
  lemma {:induction false} SortDescIsSorted(s: seq<Entry>)
    ensures SortedDesc(SortDesc(s))
  {
    if s != [] {
      SortDescIsSorted(s[..|s| - 1]);
      InsertDescPlacesEntry(SortDesc(s[..|s| - 1]), s[|s| - 1]);
    }
  }

  /** Sorting a descending list changes nothing. */
  lemma {:induction false} SortDescOfSorted(s: seq<Entry>)
    requires SortedDesc(s)
    ensures SortDesc(s) == s
  {
    if s != [] {
      var front := s[..|s| - 1];
      SortDescOfSorted(front);
      InsertDescPlacesEntry(front, s[|s| - 1]);
      assert InsertPosition(front, s[|s| - 1]) == |front| by {
        InsertPositionPast(front, s[|s| - 1]);
      }
      assert front[..|front|] + [s[|s| - 1]] + front[|front|..] == s;
    }
  }

  /** An entry scoring no more than any entry of the list is placed at the end. */
  lemma {:induction false} InsertPositionPast(s: seq<Entry>, e: Entry)
    requires forall i :: 0 <= i < |s| ==> s[i].score >= e.score
    ensures InsertPosition(s, e) == |s|
  {
    if s != [] {
      InsertPositionPast(s[1..], e);
    }
  }

  /** Appending to a descending history and sorting is inserting the new entry in its place. */
  lemma AppendThenSort(history: seq<Entry>, e: Entry)
    requires SortedDesc(history)
    ensures SortDesc(history + [e]) == InsertDesc(history, e)
  {
    assert (history + [e])[..|history|] == history;
    SortDescOfSorted(history);
  }

  /** A sorted history stays sorted when a guess is appended and the list re-sorted. */
  lemma SortedAfterGuess(history: seq<Entry>, e: Entry)
    requires SortedDesc(history)
    ensures SortDesc(history + [e]) == InsertDesc(history, e)
    ensures SortedDesc(SortDesc(history + [e]))
  {
    AppendThenSort(history, e);
    InsertDescPlacesEntry(history, e);
  }

  // ---------------------------------------------------------------------------
  // The colour and icon bands of `getColorClass` and `getTemperatureIcon`

  /** How many of the thresholds 35, 50, 65, 80, 95 a score reaches: 0 is cold, 5 very hot. */
  function Heat(score: int): (h: nat)
    ensures h <= 5
  {
    (if score >= 35 then 1 else 0) + (if score >= 50 then 1 else 0) + (if score >= 65 then 1 else 0) +
    (if score >= 80 then 1 else 0) + (if score >= 95 then 1 else 0)
  }

  /** The colour classes from cold to very hot. */
  const ColorByHeat: seq<string> := [
    "bg-gray-900 text-gray-500", "bg-gray-900 text-gray-400", "bg-gray-800 text-gray-300",
    "bg-blue-900 text-blue-300", "bg-green-800 text-green-400", "bg-green-900 text-green-400"]

  /**
   * The temperature icons, named by what they depict. The page's literals are mis-encoded
   * emoji (for example "üî•" for the fire); only which band shows which icon is modelled.
   */
  datatype Icon = Ice | Snowflake | Neutral | HotSprings | Fire

  /** `getColorClass`. */
  function ColorClass(score: int): string {
    if score >= 95 then "bg-green-900 text-green-400"
    else if score >= 80 then "bg-green-800 text-green-400"
    else if score >= 65 then "bg-blue-900 text-blue-300"
    else if score >= 50 then "bg-gray-800 text-gray-300"
    else if score >= 35 then "bg-gray-900 text-gray-400"
    else "bg-gray-900 text-gray-500"
  }

  /** `getTemperatureIcon`; "hot" and "very hot" share the fire. */
  function TemperatureIcon(score: int): Icon {
    if score >= 95 then Fire
    else if score >= 80 then Fire
    else if score >= 65 then HotSprings
    else if score >= 50 then Neutral
    else if score >= 35 then Snowflake
    else Ice
  }

  function IconRank(i: Icon): nat {
    match i
    case Ice => 0
    case Snowflake => 1
    case Neutral => 2
    case HotSprings => 3
    case Fire => 4
  }

  /** The colour depends on the score only through its heat, and each heat has its own colour. */
  lemma ColorFollowsHeat(score: int, other: int)
    ensures ColorClass(score) == ColorByHeat[Heat(score)]
    ensures ColorClass(score) == ColorClass(other) <==> Heat(score) == Heat(other)
  {
  }

  /** A higher score never shows a colder icon or a colder colour. */
  lemma BandsMonotone(lower: int, higher: int)
    requires lower <= higher
    ensures IconRank(TemperatureIcon(lower)) <= IconRank(TemperatureIcon(higher))
    ensures Heat(lower) <= Heat(higher)
  {
  }

  /** A success-worthy score shows the very-hot colour. */
  lemma ThresholdIsVeryHot(score: int)
    ensures ColorClass(score) == ColorByHeat[5] <==> score >= 95
  {
    ColorFollowsHeat(score, 95);
  }

  // ---------------------------------------------------------------------------
  // What a reply does to the page

  /** What the page shows apart from the guess field and the session: score, history, word, game state, message. */
  datatype Display = Display(
    similarity: Option<int>, history: seq<Entry>, targetWord: Option<string>, gameOver: bool, message: string)

  /**
   * The display after the backend's `reply` to the guess `typed`, with the history
   * kept by insertion: the reference the page's handler is checked against.
   */
  function Answered(d: Display, typed: string, reply: GuessReply): Display {
    match reply
    case RequestFailed => d.(message := RequestFailedMessage)
    case ErrorBody(error) => d.(message := error)
    case ScoreBody(score, isSuccessful) =>
      var scored := d.(similarity := Some(score), history := InsertDesc(d.history, Entry(typed, score)));
      if isSuccessful then scored.(gameOver := true, targetWord := Some(typed), message := FoundMessage(score))
      else if VeryClose(score) then scored.(message := VeryCloseMessage)
      else scored
  }

  /** A reply keeps the history hottest first. */
  lemma AnsweredKeepsOrder(d: Display, typed: string, reply: GuessReply)
    requires SortedDesc(d.history)
    ensures SortedDesc(Answered(d, typed, reply).history)
  {
    if reply.ScoreBody? {
      InsertDescPlacesEntry(d.history, Entry(typed, reply.similarity));
    }
  }

  /**
   * A score adds exactly the typed word with its score to the history, after every
   * entry scoring at least as much and before every entry scoring less; the old
   * entries keep their order. Any other reply leaves the history alone.
   */
  lemma AnsweredHistory(d: Display, typed: string, reply: GuessReply)
    requires SortedDesc(d.history)
    ensures var h := Answered(d, typed, reply).history;
      if reply.ScoreBody? then
        var e := Entry(typed, reply.similarity);
        var k := InsertPosition(d.history, e);
        && multiset(h) == multiset(d.history) + multiset{e}
        && h == d.history[..k] + [e] + d.history[k..]
        && (forall i :: 0 <= i < k ==> d.history[i].score >= e.score)
        && (forall i :: k <= i < |d.history| ==> d.history[i].score < e.score)
      else h == d.history
  {
    if reply.ScoreBody? {
      var e := Entry(typed, reply.similarity);
      InsertDescPlacesEntry(d.history, e);
      InsertDescPermutes(d.history, e);
    }
  }

  /**
   * The game ends, with the typed word revealed, exactly on a successful score; a
   * game already over stays over.
   */
  lemma AnsweredEndsGame(d: Display, typed: string, reply: GuessReply)
    ensures var a := Answered(d, typed, reply);
      && (a.gameOver <==> d.gameOver || (reply.ScoreBody? && reply.isSuccessful))
      && (reply.ScoreBody? && reply.isSuccessful ==> a.targetWord == Some(typed) && a.message == FoundMessage(reply.similarity))
      && (!(reply.ScoreBody? && reply.isSuccessful) ==> a.targetWord == d.targetWord)
  {
  }

  /**
   * A failed request or an error reply only changes the message; a score that does
   * not win changes the message only inside the 85..94 band.
   */
  lemma AnsweredMessage(d: Display, typed: string, reply: GuessReply)
    ensures var a := Answered(d, typed, reply);
      && (reply.RequestFailed? ==> a == d.(message := RequestFailedMessage))
      && (reply.ErrorBody? ==> a == d.(message := reply.error))
      && (reply.ScoreBody? && !reply.isSuccessful ==>
            a.message == if VeryClose(reply.similarity) then VeryCloseMessage else d.message)
      && (reply.ScoreBody? ==> a.similarity == Some(reply.similarity))
  {
  }

  // ---------------------------------------------------------------------------
  // The page

  class Page {
    var sessionId: Option<string>
    var guess: string
    var similarity: Option<int>
    var history: seq<Entry>
    var targetWord: Option<string>
    var gameOver: bool
    var message: string

    /** The history is always shown hottest first. */
    ghost predicate Valid()
      reads this
    {
      SortedDesc(history)
    }

    /** What the page shows apart from the guess field and the session. */
    function Shown(): Display
      reads this
    {
      Display(similarity, history, targetWord, gameOver, message)
    }

    constructor ()
      ensures Valid()
      ensures sessionId == None && guess == "" && similarity == None && history == []
      ensures targetWord == None && !gameOver && message == ""
    {
      sessionId := None;
      guess := "";
      similarity := None;
      history := [];
      targetWord := None;
      gameOver := false;
      message := "";
    }

    /** The guess field's `onChange`. */
    method SetGuess(text: string)
      modifies this
      ensures guess == text
      ensures sessionId == old(sessionId) && similarity == old(similarity) && history == old(history)
      ensures targetWord == old(targetWord) && gameOver == old(gameOver) && message == old(message)
    {
      guess := text;
    }

    /**
     * `startNewGame`, given the session id `POST /word-game/start` returned (`None`
     * when the request failed): a new session starts from a clean slate; a failure
     * only sets the message.
     */
    method StartNewGame(started: Option<string>)
      requires Valid()
      modifies this
      ensures Valid()
      ensures started.Some? ==>
        && sessionId == started && history == [] && similarity == None
        && !gameOver && targetWord == None && message == ""
      ensures started.None? ==>
        && message == StartFailedMessage && sessionId == old(sessionId) && history == old(history)
        && similarity == old(similarity) && gameOver == old(gameOver) && targetWord == old(targetWord)
      ensures guess == old(guess)
    {
      if started.Some? {
        sessionId := started;
        history := [];
        similarity := None;
        gameOver := false;
        targetWord := None;
        message := "";
      } else {
        message := "Failed to start game. Please try again.";
      }
    }

    /**
     * `handleGuess`. A blank guess sends nothing and changes nothing. Otherwise the
     * guess goes out trimmed and lower-cased (`request`), the backend's `reply` is
     * applied, and the field is cleared whatever came back. A score joins the history
     * in its place; success ends the game with the guess as typed and schedules the
     * level's `onSolve` (`solveScheduled`).
     */
    method HandleGuess(reply: GuessReply) returns (request: Option<string>, solveScheduled: bool)
      requires Valid()
      modifies this
      ensures Valid()
      ensures request == GuessRequest(old(guess))
      ensures request.None? ==> Shown() == old(Shown()) && guess == old(guess) && !solveScheduled
      ensures request.Some? ==> Shown() == Answered(old(Shown()), old(guess), reply) && guess == ""
      ensures request.Some? ==> solveScheduled == (reply.ScoreBody? && reply.isSuccessful)
      ensures sessionId == old(sessionId)
    {
      request := GuessRequest(guess);
      if request.None? {
        return None, false;
      }
      var typed := guess;
      guess := "";
      solveScheduled := ApplyReply(typed, reply);
    }

    /**
     * The `try` block of `handleGuess` after the request: the reply to the guess
     * `typed` is applied; the guess field is left alone.
     */
    method ApplyReply(typed: string, reply: GuessReply) returns (solveScheduled: bool)
      requires Valid()
      modifies this
      ensures Valid()
      ensures Shown() == Answered(old(Shown()), typed, reply)
      ensures solveScheduled == (reply.ScoreBody? && reply.isSuccessful)
      ensures guess == old(guess) && sessionId == old(sessionId)
    {
      solveScheduled := false;
      match reply {
        case RequestFailed =>
          message := RequestFailedMessage;
        case ErrorBody(error) =>
          message := error;
        case ScoreBody(similarityScore, isSuccessful) =>
          solveScheduled := ApplyScore(typed, similarityScore, isSuccessful);
      }
    }

    /**
     * The scored branch of `handleGuess`: the score is shown, the guess `typed` joins
     * the history in its place, and success ends the game; otherwise a near miss gets
     * the hint.
     */
    method ApplyScore(typed: string, similarityScore: int, isSuccessful: bool) returns (solveScheduled: bool)
      requires Valid()
      modifies this
      ensures Valid()
      ensures Shown() == Answered(old(Shown()), typed, ScoreBody(similarityScore, isSuccessful))
      ensures solveScheduled == isSuccessful
      ensures guess == old(guess) && sessionId == old(sessionId)
    {
      var entry := Entry(typed, similarityScore);
      var newHistory := history + [entry];
      SortedAfterGuess(history, entry);
      newHistory := SortDesc(newHistory);
      similarity := Some(similarityScore);
      history := newHistory;
      solveScheduled := isSuccessful;
      if isSuccessful {
        gameOver := true;
        message := FoundMessage(similarityScore);
        targetWord := Some(typed);
      } else if VeryClose(similarityScore) {
        message := VeryCloseMessage;
      }
    }

    /**
     * The "Proceed to Level 4" button of the panel shown once the game is over: calls the
     * level's `onSolve` (the result) once more, besides the call made by
     * the timer set by `handleGuess` on the winning reply, and changes nothing on the page.
     */
    method HandleProceed() returns (levelSolved: bool)
      requires Valid() && gameOver
      ensures levelSolved
    {
      levelSolved := true;
    }
  }
}
