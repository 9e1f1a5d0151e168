/**
 * The HTTP handlers of backend/routers/level_routes.py that hold decisions of
 * their own: the availability gate and `next_level` of `POST /solution`, the
 * level-3 bookkeeping of `POST /word-game/guess`, `GET /levels`,
 * `POST /logic-gates/reset`, and the provider that hands every request the same
 * service object. Each handler receives the service object the provider gave it.
 */
module LevelRoutes {
  import opened Common
  import opened LevelServices
  import WordGameServices

  /** The body of `POST /solution`; `dev_mode` defaults to false. */
  datatype SolutionRequest = SolutionRequest(levelId: int, devMode: bool)

  /** The outcome of `POST /solution`: a 403 error, a correct answer, or a rejected one. */
  datatype SolutionResponse =
    | Forbidden
    | Correct(nextLevel: Option<int>)
    | InvalidSolution

  /** The `next_level` of a correct answer: the following level, or nothing after the last one. */
  function NextLevel(levelId: int): (r: Option<int>)
    ensures r.Some? <==> levelId < TotalLevels
    ensures r.Some? ==> r.value == levelId + 1
  {
    if levelId < TotalLevels then Some(levelId + 1) else None
  }

  /** `ServiceProvider`: creates the service on first use and hands out that same object afterwards. */
  class ServiceProvider {
    var service: LevelService?

    constructor ()
      ensures service == null
    {
      service := null;
    }

    /** `__call__`. */
    method Call() returns (s: LevelService)
      modifies this
      ensures service == s
      ensures old(service) != null ==> s == old(service)
      ensures old(service) == null ==> fresh(s) && s.completedLevels == {} && s.solvedCircuits == NoCircuitSolved
    {
      if service == null {
        service := new LevelService();
      }
      s := service;
    }
  }

  /**
   * `check_solution`: without dev mode an unavailable level is refused with 403
   * before anything changes; otherwise the service's check runs, always with dev
   * mode off, and a passing level gets its `next_level`.
   */
  method CheckSolution(svc: LevelService, request: SolutionRequest) returns (response: SolutionResponse)
    modifies svc
    ensures svc.solvedCircuits == old(svc.solvedCircuits)
    ensures !request.devMode && !IsLevelAvailable(request.levelId, old(svc.completedLevels)) ==>
      response == Forbidden && svc.completedLevels == old(svc.completedLevels)
    ensures request.devMode || IsLevelAvailable(request.levelId, old(svc.completedLevels)) ==>
      && (response.Correct? <==>
           SelfChecked(request.levelId) ||
           (CheckedElsewhere(request.levelId) && request.levelId in old(svc.completedLevels)))
      && (response.Correct? || response.InvalidSolution?)
      && svc.completedLevels ==
           if SelfChecked(request.levelId) then old(svc.completedLevels) + {request.levelId} else old(svc.completedLevels)
    ensures response.Correct? ==> response.nextLevel == NextLevel(request.levelId)
    ensures response.Correct? ==> request.levelId in svc.completedLevels
    ensures response.Correct? && response.nextLevel.Some? ==>
      IsLevelAvailable(response.nextLevel.value, svc.completedLevels)
  {
    if !request.devMode && !IsLevelAvailable(request.levelId, svc.completedLevels) {
      return Forbidden;
    }
    var ok := svc.CheckSolution(request.levelId, false);
    if ok {
      var nextLevel := if request.levelId < TotalLevels then Some(request.levelId + 1) else None;
      return Correct(nextLevel);
    }
    return InvalidSolution;
  }

  /** `get_levels`: the completed set and the available list, as the service reports them. */
  method GetLevels(svc: LevelService) returns (completed: set<int>, available: seq<int>)
    ensures completed == svc.completedLevels
    ensures available == AvailableLevels(svc.completedLevels)
    ensures StrictlyIncreasing(available) && 1 in available
    ensures forall x :: x in available ==> 1 <= x <= TotalLevels
  {
    completed := svc.completedLevels;
    available := AvailableLevels(svc.completedLevels);
  }

  /**
   * `guess_word`: the word-game service scores the guess, a successful guess records
   * level 3, and the reply carries whether level 3 is now completed. With the
   * service's own table and a session playing for "espionage", level 3 is recorded
   * exactly when the guess normalises to that word.
   */
  method GuessWord(svc: LevelService, sessionId: string, guess: string)
    returns (result: WordGameServices.GuessResult, completed: bool)
    modifies svc, svc.wordGameService
    ensures svc.solvedCircuits == old(svc.solvedCircuits)
    ensures sessionId !in old(svc.wordGameService.sessions) ==>
      result == WordGameServices.InvalidSession &&
      svc.wordGameService.sessions == old(svc.wordGameService.sessions)
    ensures sessionId in old(svc.wordGameService.sessions) ==>
      var session := old(svc.wordGameService.sessions)[sessionId];
      var g := WordGameServices.Normalise(guess);
      var score := WordGameServices.Score(svc.wordGameService.similarityMatrix, session.targetWord, g);
      && result == WordGameServices.Scored(g, score, true, score >= WordGameServices.SimilarityThreshold)
      && svc.wordGameService.sessions ==
           old(svc.wordGameService.sessions)[sessionId := session.(guesses := session.guesses + [WordGameServices.GuessRecord(g, score)])]
    ensures result.Scored? ==> (result.isSuccessful <==> result.similarity >= WordGameServices.SimilarityThreshold)
    ensures svc.completedLevels ==
      if result.Scored? && result.isSuccessful then old(svc.completedLevels) + {3} else old(svc.completedLevels)
    ensures completed <==> 3 in svc.completedLevels
    ensures sessionId in old(svc.wordGameService.sessions) &&
            old(svc.wordGameService.sessions)[sessionId].targetWord == WordGameServices.Target &&
            svc.wordGameService.similarityMatrix == WordGameServices.ReferenceMatrix() ==>
      svc.completedLevels ==
        if WordGameServices.Normalise(guess) == WordGameServices.Target then old(svc.completedLevels) + {3}
        else old(svc.completedLevels)
  {
    WordGameServices.OnlyTheTargetSucceeds(guess);
    result := svc.wordGameService.CheckGuess(sessionId, guess);
    if result.Scored? && result.isSuccessful {
      svc.CompleteLevel3();
    }
    completed := 3 in svc.completedLevels;
  }

  /** `reset_logic_gates`: clears the circuit flags and level 4, and reports success. */
  method ResetLogicGates(svc: LevelService) returns (reset: bool)
    modifies svc
    ensures reset
    ensures svc.Valid() && svc.solvedCircuits == NoCircuitSolved
    ensures svc.completedLevels == old(svc.completedLevels) - {4}
  {
    svc.ResetLogicCircuits();
    reset := true;
  }
}
