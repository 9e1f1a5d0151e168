/**
 * The progression controller of the single-page front end (frontend/src/App.jsx):
 * which level is shown, which levels are completed and available, whether the
 * game is over, and who is logged in. Each React state variable is a field of
 * `AppState`; each handler is a method run to completion. The replies of the
 * backend calls the handlers make are parameters.
 */
module App {
  import opened Common

  /** The last level; completing it ends the game. */
  const LastLevel := 8

  /** The login record the login page hands over. */
  datatype User = User(teamName: string, leaderName: string, loginTime: string)

  /** What `POST /solution` gave the page: a thrown error, or a body whose `next_level` may be missing. */
  datatype SolutionReply = SolutionFailed | SolutionBody(nextLevel: Option<int>)

  /** What `GET /levels` gave the page: a thrown error, or a body whose two lists may be missing. */
  datatype LevelsReply = LevelsFailed | LevelsBody(completed: Option<seq<int>>, available: Option<seq<int>>)

  function Elems(s: seq<int>): set<int> {
    set x | x in s
  }

  /** The levels `fetchLevelStatus` makes available: 1, the backend's list, every completed level and its successor below 8. */
  function StatusLevels(completed: seq<int>, available: seq<int>): set<int> {
    {1} + Elems(available) + Elems(completed) + set c | c in completed && c < LastLevel :: c + 1
  }

  /** Puts `x` into its place in an ascending list of distinct levels (no-op when present). */
  function InsertSorted(s: seq<int>, x: int): (r: seq<int>)
    requires StrictlyIncreasing(s)
    ensures StrictlyIncreasing(r)
    ensures forall y :: y in r <==> y in s || y == x
  {
    if s == [] then [x]
    else if x < s[0] then [x] + s
    else if x == s[0] then s
    else
      var rest := InsertSorted(s[1..], x);
      assert forall k :: 0 <= k < |rest| ==> s[0] < rest[k] by {
        forall k | 0 <= k < |rest| ensures s[0] < rest[k] {
          assert rest[k] in rest;
        }
      }
      [s[0]] + rest
  }

  /** Completing one more level adds it and, below the last level, its successor. */
  lemma StatusLevelsStep(completed: seq<int>, available: seq<int>, level: int)
    ensures StatusLevels(completed + [level], available) ==
      StatusLevels(completed, available) + {level} + (if level < LastLevel then {level + 1} else {})
  {
    var c' := completed + [level];
    assert Elems(c') == Elems(completed) + {level};
    var before := set c | c in completed && c < LastLevel :: c + 1;
    var after := set c | c in c' && c < LastLevel :: c + 1;
    forall y ensures y in after <==> y in before + (if level < LastLevel then {level + 1} else {}) {
      if y in after {
        var c :| c in c' && c < LastLevel && y == c + 1;
        if c != level {
          assert c in completed;
        }
      }
      if y in before {
        var c :| c in completed && c < LastLevel && y == c + 1;
        assert c in c';
      }
      if level < LastLevel && y == level + 1 {
        assert level in c';
      }
    }
  }

  /** The `forEach` of `fetchLevelStatus` over the completed levels, starting from `new Set([1, ...available])`. */
  method BuildStatusLevels(completed: seq<int>, available: seq<int>) returns (levels: set<int>)
    ensures levels == StatusLevels(completed, available)
  {
    levels := {1} + Elems(available);
    var i := 0;
    while i < |completed|
      invariant 0 <= i <= |completed|
      invariant levels == StatusLevels(completed[..i], available)
    {
      var level := completed[i];
      assert completed[..i + 1] == completed[..i] + [level];
      StatusLevelsStep(completed[..i], available, level);
      levels := levels + {level};
      if level < LastLevel {
        levels := levels + {level + 1};
      }
      i := i + 1;
    }
    assert completed[..i] == completed;
  }

  /** `Array.from(levels).sort((a, b) => a - b)`: the levels in ascending order, each once. */
  method SortAscending(levels: set<int>) returns (r: seq<int>)
    ensures StrictlyIncreasing(r) && Elems(r) == levels
  {
    r := [];
    var rest := levels;
    while rest != {}
      invariant StrictlyIncreasing(r)
      invariant forall y :: y in levels <==> y in r || y in rest
      decreases rest
    {
      var x := Pick(rest);
      r := InsertSorted(r, x);
      rest := rest - {x};
    }
    forall y ensures y in Elems(r) <==> y in levels {
    }
  }

  class AppState {
    var currentLevel: int
    var completedLevels: seq<int>
    var availableLevels: seq<int>
    var isLoggedIn: bool
    var user: Option<User>
    var gameCompleted: bool

    /** Every write to `availableLevels` stores a sorted list of distinct levels that contains level 1. */
    ghost predicate Valid()
      reads this
    {
      StrictlyIncreasing(availableLevels) && 1 in availableLevels
    }

    /** The initial `useState` values. */
    constructor ()
      ensures Valid()
      ensures currentLevel == 1 && completedLevels == [] && availableLevels == [1]
      ensures !isLoggedIn && user == None && !gameCompleted
    {
      currentLevel := 1;
      completedLevels := [];
      availableLevels := [1];
      isLoggedIn := false;
      user := None;
      gameCompleted := false;
    }

    /** `fetchLevelStatus`: adopt the backend's completed list and rebuild the available list from it. */
    method FetchLevelStatus(reply: LevelsReply)
      requires Valid()
      modifies this
      ensures Valid()
      ensures reply.LevelsFailed? ==> availableLevels == [1] && completedLevels == old(completedLevels)
      ensures reply.LevelsBody? ==>
        && completedLevels == reply.completed.GetOr([])
        && Elems(availableLevels) == StatusLevels(reply.completed.GetOr([]), reply.available.GetOr([]))
      ensures currentLevel == old(currentLevel) && gameCompleted == old(gameCompleted)
      ensures user == old(user) && isLoggedIn == old(isLoggedIn)
    {
      match reply {
        case LevelsFailed =>
          availableLevels := [1];
        case LevelsBody(completed, available) =>
          var backendCompleted := completed.GetOr([]);
          completedLevels := backendCompleted;
          var levelSet := BuildStatusLevels(backendCompleted, available.GetOr([]));
          availableLevels := SortAscending(levelSet);
          assert 1 in Elems(availableLevels);
      }
    }

    /**
     * `handleLevelComplete(levelId)`. The result says whether the reply's `next_level`
     * triggered a fresh `fetchLevelStatus`, whose reply the caller then applies.
     */
    method HandleLevelComplete(levelId: int, reply: SolutionReply) returns (refetch: bool)
      requires Valid() && 1 <= levelId <= LastLevel
      modifies this
      ensures Valid()
      ensures completedLevels ==
        if levelId in old(completedLevels) then old(completedLevels) else old(completedLevels) + [levelId]
      ensures user == old(user) && isLoggedIn == old(isLoggedIn)
      ensures levelId == LastLevel ==>
        gameCompleted && currentLevel == old(currentLevel) && availableLevels == old(availableLevels)
      ensures levelId < LastLevel ==> currentLevel == levelId + 1 && gameCompleted == old(gameCompleted)
      ensures levelId < LastLevel ==> Elems(availableLevels) == Elems(old(availableLevels)) + {levelId + 1}
      ensures levelId < LastLevel && levelId + 1 in old(availableLevels) ==> availableLevels == old(availableLevels)
      ensures refetch <==>
        levelId < LastLevel && reply.SolutionBody? && reply.nextLevel.Some? && reply.nextLevel.value != 0
    {
      if levelId !in completedLevels {
        completedLevels := completedLevels + [levelId];
      }
      if levelId == LastLevel {
        gameCompleted := true;
        return false;
      }
      refetch := false;
      match reply {
        case SolutionFailed =>
          // the page swallows the error
        case SolutionBody(next) =>
          // `if (response.data.next_level)`: null, undefined and 0 are all false
          if next.Some? && next.value != 0 {
            currentLevel := next.value;
            refetch := true;
          }
      }
      // always move on, whatever the backend said
      var nextLevel := levelId + 1;
      currentLevel := nextLevel;
      if nextLevel !in availableLevels {
        assert Elems(availableLevels + [nextLevel]) == Elems(availableLevels) + {nextLevel};
        availableLevels := SortAscending(Elems(availableLevels + [nextLevel]));
        assert 1 in Elems(availableLevels);
      }
    }

    /** `handleLogin`: the user is stored whatever the `/login` post did, since its outcome is swallowed. */
    method HandleLogin(loginData: User)
      modifies this
      ensures user == Some(loginData) && isLoggedIn
      ensures currentLevel == old(currentLevel) && completedLevels == old(completedLevels)
      ensures availableLevels == old(availableLevels) && gameCompleted == old(gameCompleted)
    {
      user := Some(loginData);
      isLoggedIn := true;
    }

    /** `handleLogout`: every field back to its initial value. */
    method HandleLogout()
      modifies this
      ensures Valid()
      ensures user == None && !isLoggedIn && !gameCompleted
      ensures currentLevel == 1 && completedLevels == [] && availableLevels == [1]
    {
      user := None;
      isLoggedIn := false;
      gameCompleted := false;
      currentLevel := 1;
      completedLevels := [];
      availableLevels := [1];
    }

    /** `resetGame` ("play again"): back to level 1, progress kept. */
    method ResetGame()
      modifies this
      ensures !gameCompleted && currentLevel == 1
      ensures completedLevels == old(completedLevels) && availableLevels == old(availableLevels)
      ensures user == old(user) && isLoggedIn == old(isLoggedIn)
    {
      gameCompleted := false;
      currentLevel := 1;
    }
  }

}
