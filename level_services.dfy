/**
 * The backend's progression bookkeeping (backend/services/level_services.py): the
 * set of completed levels, the availability rule built on it, the per-level
 * solution check, and the extra state of level 4 (one solved flag per circuit)
 * and level 5 (a fixed list of answers).
 */
module LevelServices {
  import opened Common
  import WordGameServices

  /** The number of levels the backend reports availability for. */
  const TotalLevels := 5

  const Circuit1 := "circuit1"
  const Circuit2 := "circuit2"

  /** The gate sequence the backend accepts for each circuit. */
  const CircuitSolutions: map<string, seq<string>> :=
    map[Circuit1 := ["NOT", "AND", "OR"], Circuit2 := ["NAND", "OR", "NOR"]]

  /** The classification the backend accepts for level 5's four access patterns. */
  const AccessPatternCorrectAnswers: seq<string> := ["Unauthorized", "Unauthorized", "Authorized", "Unauthorized"]

  /** Both circuits, neither solved. */
  const NoCircuitSolved: map<string, bool> := map[Circuit1 := false, Circuit2 := false]

  /** The reply of `check_logic_gates`. */
  datatype GateReport = GateReport(correct: bool, completed: bool, allCircuitsSolved: bool, circuitsSolved: seq<string>)

  /** The reply of `check_access_patterns`. */
  datatype AccessReport = AccessReport(correct: bool, completed: bool)

  /** The levels `check_solution` marks completed by itself (without dev mode). */
  predicate SelfChecked(levelId: int) {
    levelId in {1, 2, 6, 7, 8}
  }

  /** The levels whose completion another endpoint records; `check_solution` only reports it. */
  predicate CheckedElsewhere(levelId: int) {
    levelId in {3, 4, 5}
  }

  /** `is_level_available`: level 1 always, any other level once its predecessor is completed. */
  predicate IsLevelAvailable(levelId: int, completed: set<int>) {
    levelId == 1 || levelId - 1 in completed
  }

  /** The available levels in `from..TotalLevels`, ascending. */
  function AvailableFrom(from: int, completed: set<int>): (r: seq<int>)
    requires 1 <= from
    ensures StrictlyIncreasing(r)
    ensures forall x :: x in r <==> from <= x <= TotalLevels && IsLevelAvailable(x, completed)
    decreases TotalLevels + 1 - from
  {
    if from > TotalLevels then []
    else
      var rest := AvailableFrom(from + 1, completed);
      if IsLevelAvailable(from, completed) then
        assert forall k :: 0 <= k < |rest| ==> rest[k] in rest;
        [from] + rest
      else rest
  }

  /** `get_available_levels`: the available levels among 1..5, ascending; level 1 is always one. */
  function AvailableLevels(completed: set<int>): (r: seq<int>)
    ensures StrictlyIncreasing(r)
    ensures forall x :: x in r <==> 1 <= x <= TotalLevels && IsLevelAvailable(x, completed)
    ensures |r| >= 1 && r[0] == 1
  {
    AvailableFrom(1, completed)
  }

  /** Completing more levels never makes a level unavailable. */
  lemma AvailableLevelsMonotone(before: set<int>, after: set<int>)
    requires before <= after
    ensures forall x :: x in AvailableLevels(before) ==> x in AvailableLevels(after)
  {
  }

  class LevelService {
    var completedLevels: set<int>
    var solvedCircuits: map<string, bool>
    const wordGameService: WordGameServices.Service

    /** The flag map always has exactly the two circuits as keys. */
    ghost predicate Valid()
      reads this
    {
      solvedCircuits.Keys == {Circuit1, Circuit2}
    }

    /** `__init__`: nothing completed, no circuit solved, a fresh word-game service. */
    constructor ()
      ensures Valid()
      ensures completedLevels == {} && solvedCircuits == NoCircuitSolved
      ensures fresh(wordGameService) && wordGameService.sessions == map[]
      ensures wordGameService.similarityMatrix == WordGameServices.ReferenceMatrix()
    {
      completedLevels := {};
      solvedCircuits := NoCircuitSolved;
      wordGameService := new WordGameServices.Service();
    }

    /** Every flag set. */
    predicate AllCircuitsSolved()
      reads this
    {
      forall k :: k in solvedCircuits ==> solvedCircuits[k]
    }

    /** The solved circuits, in the flag map's key order. */
    function CircuitsSolved(): (r: seq<string>)
      reads this
      requires Valid()
      ensures forall k :: k in r <==> k in solvedCircuits && solvedCircuits[k]
    {
      (if solvedCircuits[Circuit1] then [Circuit1] else []) + (if solvedCircuits[Circuit2] then [Circuit2] else [])
    }

    /**
     * `check_solution`: dev mode, or one of the levels 1, 2, 6, 7, 8, records the level
     * and passes; levels 3, 4, 5 pass exactly when already completed and change
     * nothing; any other id fails and changes nothing.
     */
    method CheckSolution(levelId: int, devMode: bool) returns (ok: bool)
      modifies this
      ensures devMode || SelfChecked(levelId) ==> ok && completedLevels == old(completedLevels) + {levelId}
      ensures !devMode && CheckedElsewhere(levelId) ==>
        ok == (levelId in old(completedLevels)) && completedLevels == old(completedLevels)
      ensures !devMode && !SelfChecked(levelId) && !CheckedElsewhere(levelId) ==>
        !ok && completedLevels == old(completedLevels)
      ensures solvedCircuits == old(solvedCircuits)
    {
      if devMode {
        completedLevels := completedLevels + {levelId};
        return true;
      }
      if levelId == 1 || levelId == 2 || levelId == 6 || levelId == 7 || levelId == 8 {
        completedLevels := completedLevels + {levelId};
        ok := true;
      } else if levelId == 3 || levelId == 4 || levelId == 5 {
        ok := levelId in completedLevels;
      } else {
        ok := false;
      }
    }

    /** `complete_level_3`. */
    method CompleteLevel3()
      modifies this
      ensures completedLevels == old(completedLevels) + {3}
      ensures solvedCircuits == old(solvedCircuits)
    {
      completedLevels := completedLevels + {3};
    }

    /** `complete_level_4`. */
    method CompleteLevel4()
      modifies this
      ensures completedLevels == old(completedLevels) + {4}
      ensures solvedCircuits == old(solvedCircuits)
    {
      completedLevels := completedLevels + {4};
    }

    /**
     * `check_logic_gates`: correct exactly when the submission is the stored solution
     * of a known circuit; a correct submission sets that circuit's flag, and level 4
     * is recorded once every flag is set. A wrong submission changes nothing.
     */
    method CheckLogicGates(submitted: seq<string>, circuitId: string) returns (report: GateReport)
      requires Valid()
      modifies this
      ensures Valid()
      ensures report.correct <==> circuitId in CircuitSolutions && submitted == CircuitSolutions[circuitId]
      ensures report.correct ==> solvedCircuits == old(solvedCircuits)[circuitId := true]
      ensures !report.correct ==> solvedCircuits == old(solvedCircuits)
      ensures completedLevels ==
        if report.correct && AllCircuitsSolved() then old(completedLevels) + {4} else old(completedLevels)
      ensures report.completed <==> 4 in completedLevels
      ensures report.allCircuitsSolved <==> AllCircuitsSolved()
      ensures report.circuitsSolved == CircuitsSolved()
    {
      var expectedSolution: Option<seq<string>> := if circuitId in CircuitSolutions then Some(CircuitSolutions[circuitId]) else None;
      var isCorrect := expectedSolution == Some(submitted);
      if isCorrect {
        solvedCircuits := solvedCircuits[circuitId := true];
        if solvedCircuits[Circuit1] && solvedCircuits[Circuit2] {
          completedLevels := completedLevels + {4};
        }
      }
      report := GateReport(isCorrect, 4 in completedLevels, solvedCircuits[Circuit1] && solvedCircuits[Circuit2], CircuitsSolved());
    }

    /** `reset_logic_circuits`: both flags cleared and level 4 no longer completed. */
    method ResetLogicCircuits()
      modifies this
      ensures Valid()
      ensures solvedCircuits == NoCircuitSolved
      ensures completedLevels == old(completedLevels) - {4}
    {
      solvedCircuits := NoCircuitSolved;
      if 4 in completedLevels {
        completedLevels := completedLevels - {4};
      }
    }

    /** `check_access_patterns`: correct exactly on the reference list, which records level 5. */
    method CheckAccessPatterns(submitted: seq<string>) returns (report: AccessReport)
      modifies this
      ensures report.correct <==> submitted == AccessPatternCorrectAnswers
      ensures completedLevels == if report.correct then old(completedLevels) + {5} else old(completedLevels)
      ensures report.completed <==> 5 in completedLevels
      ensures solvedCircuits == old(solvedCircuits)
    {
      var isCorrect := submitted == AccessPatternCorrectAnswers;
      if isCorrect {
        completedLevels := completedLevels + {5};
      }
      report := AccessReport(isCorrect, 5 in completedLevels);
    }
  }
}
