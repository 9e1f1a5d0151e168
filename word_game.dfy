/**
 * The word-guessing service behind level 3 (backend/services/word_game_services.py):
 * a fixed similarity table centred on the target word, a rule chain that scores
 * any pair of words, and the per-session guess log. Session identifiers, which
 * the source draws from `uuid4`, are parameters; the embeddings the service
 * also computes are never read when a guess is scored and are not modelled.
 */
module WordGameServices {
  import opened Common
  import opened Text

  /** A score of at least this much ends the game. */
  const SimilarityThreshold := 95

  /** Every session plays for this word. */
  const Target := "espionage"

  /** `matrix[w1][w2]`: the predefined similarity of two words, in percent. */
  type Matrix = map<string, map<string, int>>

  /** The predefined similarities of every word with the target word. */
  const BaseRow: map<string, int> := map[
    "espionage" := 100, "spy" := 90, "agent" := 90, "surveillance" := 88,
    "covert" := 85, "intelligence" := 83, "infiltration" := 80, "sabotage" := 78,
    "cipher" := 75, "reconnaissance" := 73, "deception" := 70, "stealth" := 68,
    "undercover" := 65, "smuggling" := 62, "subterfuge" := 60, "blackmail" := 58,
    "wiretap" := 55, "interrogation" := 52, "cryptography" := 50, "saboteur" := 48,
    "disguise" := 45, "hacker" := 40, "exploit" := 42, "firewall" := 30,
    "payload" := 35, "decipher" := 48, "coordinates" := 25, "signal" := 40]

  /** The substrings that make an unknown word relevant to the target, tried in this order. */
  const SpyTerms: seq<(string, int)> := [
    ("spy", 90), ("secret", 75), ("agent", 85), ("intelligen", 80),
    ("cover", 80), ("surveillance", 85), ("reconn", 70), ("infiltrat", 80),
    ("stealth", 65), ("decept", 70), ("crypt", 50), ("secur", 60),
    ("mission", 65), ("shadow", 60), ("covert", 85), ("classified", 75)]

  datatype GuessRecord = GuessRecord(word: string, similarity: int)

  datatype Session = Session(targetWord: string, guesses: seq<GuessRecord>)

  /** The reply of `check_guess`: the error for an unknown session, or the scored guess. */
  datatype GuessResult =
    | InvalidSession
    | Scored(guess: string, similarity: int, isValidWord: bool, isSuccessful: bool)

  // ---------------------------------------------------------------------------
  // The similarity table

  /**
   * The table after the reverse mappings: the target's row as given, and for every
   * other word of that row a row holding its similarity back to the target and 100
   * for itself.
   */
  function ReverseMapped(target: string, row: map<string, int>, done: set<string>): (m: Matrix)
    requires done <= row.Keys
    ensures m.Keys == {target} + done
  {
    map w | w in {target} + done :: if w == target then row else map[target := row[w], w := 100]
  }

  /** The table the service scores guesses with. */
  function ReferenceMatrix(): Matrix {
    ReverseMapped(Target, BaseRow, BaseRow.Keys)
  }

  /**
   * `_create_similarity_matrix`: starting from the target's row, visit every word of
   * that row (in any order) and add the reverse entry and the self-similarity when
   * they are missing.
   */
  method CreateSimilarityMatrix(target: string, row: map<string, int>) returns (matrix: Matrix)
    ensures matrix == ReverseMapped(target, row, row.Keys)
  {
    matrix := map[target := row];
    var todo := row.Keys;
    while todo != {}
      invariant todo <= row.Keys
      invariant matrix == ReverseMapped(target, row, row.Keys - todo)
      decreases todo
    {
      var word := Pick(todo);
      var similarity := row[word];
      if word !in matrix {
        matrix := matrix[word := map[]];
      }
      if target !in matrix[word] {
        matrix := matrix[word := matrix[word][target := similarity]];
      }
      if word !in matrix[word] {
        matrix := matrix[word := matrix[word][word := 100]];
      }
      todo := todo - {word};
    }
  }

  /** Every entry of the table has its mirror image: `m[a][b] == m[b][a]`. */
  lemma ReverseMappedSymmetric(target: string, row: map<string, int>)
    ensures var m := ReverseMapped(target, row, row.Keys);
      forall a, b :: a in m && b in m[a] ==> b in m && a in m[b] && m[b][a] == m[a][b]
  {
  }

  /** When the target's row rates the target 100, every word of the table rates itself 100. */
  lemma ReverseMappedDiagonal(target: string, row: map<string, int>)
    requires target in row && row[target] == 100
    ensures var m := ReverseMapped(target, row, row.Keys);
      forall a :: a in m ==> a in m[a] && m[a][a] == 100
  {
  }

  /** The table's row for the target word is the given row. */
  lemma ReferenceTargetRow()
    ensures Target in ReferenceMatrix() && ReferenceMatrix()[Target] == BaseRow
  {
  }

  lemma TargetIsLower()
    ensures Lower(Target) == Target
  {
  }

  /** No word but the target itself is rated above 90 in the target's row. */
  lemma BaseRowBelowThreshold()
    ensures forall w :: w in BaseRow && w != Target ==> BaseRow[w] <= 90
  {
  }

  // ---------------------------------------------------------------------------
  // Scoring a pair of words

  /** The score of the first spy term that occurs in `word`, if any does. */
  function FirstSpyTerm(terms: seq<(string, int)>, word: string): (r: Option<int>)
    ensures r.None? <==> forall i :: 0 <= i < |terms| ==> !Contains(word, terms[i].0)
    ensures r.Some? ==>
      exists i :: 0 <= i < |terms| && Contains(word, terms[i].0) && r.value == terms[i].1 &&
        (forall j :: 0 <= j < i ==> !Contains(word, terms[j].0))
  {
    if terms == [] then None
    else if Contains(word, terms[0].0) then Some(terms[0].1)
    else
      var r := FirstSpyTerm(terms[1..], word);
      if r.Some? then
        var i :| 0 <= i < |terms[1..]| && Contains(word, terms[1..][i].0) && r.value == terms[1..][i].1 &&
          (forall j :: 0 <= j < i ==> !Contains(word, terms[1..][j].0));
        assert Contains(word, terms[i + 1].0) && r.value == terms[i + 1].1;
        r
      else
        r
  }

  /** No spy term scores more than 90. */
  lemma SpyTermsAtMost90(word: string)
    ensures FirstSpyTerm(SpyTerms, word).Some? ==> FirstSpyTerm(SpyTerms, word).value <= 90
  {
    assert forall i :: 0 <= i < |SpyTerms| ==> SpyTerms[i].1 <= 90;
  }

  /** The length of the longest common prefix of two words. */
  function CommonPrefixLength(a: string, b: string): (k: nat)
    ensures k <= |a| && k <= |b|
    ensures a[..k] == b[..k]
    ensures k < |a| && k < |b| ==> a[k] != b[k]
  {
    if a != [] && b != [] && a[0] == b[0] then 1 + CommonPrefixLength(a[1..], b[1..]) else 0
  }

  /** The rule chain of `_calculate_similarity`: the first rule that applies gives the score. */
  function Similarity(matrix: Matrix, word1: string, word2: string): int {
    var w1 := Lower(word1);
    var w2 := Lower(word2);
    if w1 in matrix && w2 in matrix[w1] then matrix[w1][w2]
    else if w1 == w2 then 100
    else if (w1 == Target || w2 == Target) && FirstSpyTerm(SpyTerms, if w1 == Target then w2 else w1).Some? then
      FirstSpyTerm(SpyTerms, if w1 == Target then w2 else w1).value
    else if Contains(w2, w1) || Contains(w1, w2) then 65
    else if CommonPrefixLength(w1, w2) >= 3 then 40 + 2 * CommonPrefixLength(w1, w2)
    else 20
  }

  /** The guess as `check_guess` reads it: lower-cased, then stripped. */
  function Normalise(guess: string): string {
    Strip(Lower(guess))
  }

  /** The score `check_guess` reports: 100 for the target itself, the rule chain otherwise. */
  function Score(matrix: Matrix, target: string, guess: string): int {
    if guess == target then 100 else Similarity(matrix, target, guess)
  }

  /** A normalised guess has no upper-case letter left. */
  lemma NormaliseIsLower(guess: string)
    ensures Lower(Normalise(guess)) == Normalise(guess)
  {
    StripLowerCommute(guess);
    LowerIdempotent(Strip(guess));
  }

  /**
   * Against "espionage", everything but the word itself scores at most 90, so a
   * guess succeeds exactly when it normalises to "espionage".
   */
  lemma OnlyTheTargetSucceeds(guess: string)
    ensures var g := Normalise(guess);
      Score(ReferenceMatrix(), Target, g) >= SimilarityThreshold <==> g == Target
  {
    var g := Normalise(guess);
    if g != Target {
      NormaliseIsLower(guess);
      TargetRowAtMost90(g);
    }
  }

  /**
   * "espionage" typed after one of the separators 0x1C–0x1F: the page's `trim` keeps
   * the separator and sends it on, the backend's `strip` drops it, and the guess succeeds.
   */
  lemma SeparatorBeforeTargetSucceeds(c: char)
    requires '\U{001C}' <= c <= '\U{001F}'
    ensures Lower(Trim([c] + Target)) == [c] + Target
    ensures Normalise([c] + Target) == Target
    ensures Score(ReferenceMatrix(), Target, Normalise([c] + Target)) >= SimilarityThreshold
  {
    var s := [c] + Target;
    TargetIsLower();
    assert Lower(s) == [LowerChar(c)] + Lower(Target);
    assert s[0] == c && s[|s| - 1] == Target[|Target| - 1] == 'e';
    TrimOfTrimmed(s);
    StripStartSkips(s);
    assert s[1..] == Target;
    StripStartNoSpace(Target);
    StripEndNoSpace(Target);
  }

  /** Scored against "espionage", a lower-case word other than the target gets at most 90. */
  lemma TargetRowAtMost90(g: string)
    requires g != Target && Lower(g) == g
    ensures Similarity(ReferenceMatrix(), Target, g) <= 90
  {
    ReferenceTargetRow();
    BaseRowBelowThreshold();
    RowAtMost90(ReferenceMatrix(), g);
  }

  /**
   * In any table whose row for the target rates no other word above 90, the rule
   * chain rates no other lower-case word above 90 against the target.
   */
  lemma RowAtMost90(matrix: Matrix, g: string)
    requires Target in matrix && forall w :: w in matrix[Target] && w != Target ==> matrix[Target][w] <= 90
    requires g != Target && Lower(g) == g
    ensures Similarity(matrix, Target, g) <= 90
  {
    TargetIsLower();
    if g !in matrix[Target] {
      SpyTermsAtMost90(g);
      assert CommonPrefixLength(Target, g) <= 9;
    }
  }

  // ---------------------------------------------------------------------------
  // The service

  class Service {
    var sessions: map<string, Session>
    const similarityMatrix: Matrix

    /** `__init__`: no session, and the similarity table built from the target's row. */
    constructor ()
      ensures sessions == map[]
      ensures similarityMatrix == ReferenceMatrix()
    {
      var matrix := CreateSimilarityMatrix(Target, BaseRow);
      similarityMatrix := matrix;
      sessions := map[];
    }

    /**
     * `_calculate_similarity`, with its two loops: the scan over the spy terms and
     * the count of the common prefix.
     */
    method CalculateSimilarity(word1: string, word2: string) returns (similarity: int)
      ensures similarity == Similarity(similarityMatrix, word1, word2)
    {
      var w1 := Lower(word1);
      var w2 := Lower(word2);
      if w1 in similarityMatrix && w2 in similarityMatrix[w1] {
        return similarityMatrix[w1][w2];
      }
      if w1 == w2 {
        return 100;
      }
      if w1 == Target || w2 == Target {
        var spyScore := ScanSpyTerms(SpyTerms, if w1 == Target then w2 else w1);
        if spyScore.Some? {
          return spyScore.value;
        }
      }
      if Contains(w2, w1) || Contains(w1, w2) {
        return 65;
      }
      var commonPrefixLength := CountCommonPrefix(w1, w2);
      if commonPrefixLength >= 3 {
        return 40 + commonPrefixLength * 2;
      }
      return 20;
    }

    /** `start_game`: the session `sessionId` now plays for the target word and has no guess yet. */
    method StartGame(sessionId: string)
      modifies this
      ensures sessions == old(sessions)[sessionId := Session(Target, [])]
      ensures RevealWord(sessionId) == Some(Target)
    {
      sessions := sessions[sessionId := Session(Target, [])];
    }

    /**
     * `check_guess`: an unknown session is an error and changes nothing; otherwise the
     * normalised guess is scored against the session's word, logged once in that
     * session, and succeeds when the score reaches the threshold.
     */
    method CheckGuess(sessionId: string, guess: string) returns (result: GuessResult)
      modifies this
      ensures sessionId !in old(sessions) ==> result == InvalidSession && sessions == old(sessions)
      ensures sessionId in old(sessions) ==>
        var session := old(sessions)[sessionId];
        var g := Normalise(guess);
        var score := Score(similarityMatrix, session.targetWord, g);
        && result == Scored(g, score, true, score >= SimilarityThreshold)
        && sessions == old(sessions)[sessionId := session.(guesses := session.guesses + [GuessRecord(g, score)])]
    {
      if sessionId !in sessions {
        return InvalidSession;
      }
      var session := sessions[sessionId];
      var g := Strip(Lower(guess));
      var targetWord := session.targetWord;
      if g == targetWord {
        sessions := sessions[sessionId := session.(guesses := session.guesses + [GuessRecord(g, 100)])];
        return Scored(g, 100, true, true);
      }
      var similarity := CalculateSimilarity(targetWord, g);
      sessions := sessions[sessionId := session.(guesses := session.guesses + [GuessRecord(g, similarity)])];
      var isSuccessful := similarity >= SimilarityThreshold;
      result := Scored(g, similarity, true, isSuccessful);
    }

    /** `reveal_word`: the session's word, or an error for an unknown session. */
    function RevealWord(sessionId: string): (r: Option<string>)
      reads this
      ensures r.Some? <==> sessionId in sessions
    {
      if sessionId in sessions then Some(sessions[sessionId].targetWord) else None
    }
  }

  /** The loop over the spy terms: the score of the first one that occurs in `checkWord`. */
  method ScanSpyTerms(terms: seq<(string, int)>, checkWord: string) returns (score: Option<int>)
    ensures score == FirstSpyTerm(terms, checkWord)
  {
    var i := 0;
    while i < |terms|
      invariant 0 <= i <= |terms|
      invariant FirstSpyTerm(terms, checkWord) == FirstSpyTerm(terms[i..], checkWord)
    {
      if Contains(checkWord, terms[i].0) {
        return Some(terms[i].1);
      }
      assert terms[i..][1..] == terms[i + 1..];
      i := i + 1;
    }
    return None;
  }

  /** The loop counting the characters the two words share at their start. */
  method CountCommonPrefix(w1: string, w2: string) returns (commonPrefixLength: nat)
    ensures commonPrefixLength == CommonPrefixLength(w1, w2)
  {
    commonPrefixLength := 0;
    var j := 0;
    while j < |w1| && j < |w2|
      invariant 0 <= j <= |w1| && 0 <= j <= |w2|
      invariant commonPrefixLength == j
      invariant w1[..j] == w2[..j]
    {
      if w1[j] == w2[j] {
        assert w1[..j + 1] == w1[..j] + [w1[j]] && w2[..j + 1] == w2[..j] + [w2[j]];
        commonPrefixLength := commonPrefixLength + 1;
      } else {
        break;
      }
      j := j + 1;
    }
    PrefixLengthIsMaximal(w1, w2, commonPrefixLength);
  }

  /** The counting loop stops exactly at the common prefix length. */
  lemma PrefixLengthIsMaximal(a: string, b: string, k: nat)
    requires k <= |a| && k <= |b| && a[..k] == b[..k]
    requires k < |a| && k < |b| ==> a[k] != b[k]
    ensures k == CommonPrefixLength(a, b)
  {
  }
}
