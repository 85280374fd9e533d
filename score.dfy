/** The running score and the high score kept in the browser's local storage, here a map
    from keys to numbers. */
module Score {
  const HighScoreKey: string := "dreamKiteHighScore"

  /** `updateScore`: zero points reset the score, any other amount is added. */
  function ScoreAfter(current: int, points: int): (r: int)
    ensures points == 0 ==> r == 0
    ensures points > 0 ==> r > current
    ensures points < 0 ==> r < current
  {
    if points == 0 then 0 else current + points
  }

  /** The score after a run of `updateScore` calls. */
  function RunScore(current: int, points: seq<int>): int
    decreases |points|
  {
    if points == [] then current else RunScore(ScoreAfter(current, points[0]), points[1..])
  }

  function Sum(points: seq<int>): int {
    if points == [] then 0 else points[0] + Sum(points[1..])
  }

  /** A run is the run of its first part followed by the run of the rest. */
  lemma {:induction false} RunScoreAppend(current: int, a: seq<int>, b: seq<int>)
    ensures RunScore(current, a + b) == RunScore(RunScore(current, a), b)
    decreases |a|
  {
    if a != [] {
      assert (a + b)[1..] == a[1..] + b;
      RunScoreAppend(ScoreAfter(current, a[0]), a[1..], b);
    } else {
      assert a + b == b;
    }
  }

  /** Without a zero among the points, the score is the start plus all the points. */
  lemma {:induction false} ScoreAddsUp(current: int, points: seq<int>)
    requires 0 !in points
    ensures RunScore(current, points) == current + Sum(points)
    decreases |points|
  {
    if points != [] {
      assert points[0] in points;
      assert forall p :: p in points[1..] ==> p in points;
      ScoreAddsUp(ScoreAfter(current, points[0]), points[1..]);
    }
  }

  /** After a reset, the score is the sum of the points added since, whatever came before. */
  lemma ScoreSinceLastReset(current: int, before: seq<int>, after: seq<int>)
    requires 0 !in after
    ensures RunScore(current, before + [0] + after) == Sum(after)
  {
    RunScoreAppend(current, before + [0], after);
    RunScoreAppend(current, before, [0]);
    ScoreAddsUp(0, after);
  }

  /** The stored high score, `localStorage.getItem(key) || 0`: absent counts as 0. */
  function StoredHighScore(storage: map<string, int>): int {
    if HighScoreKey in storage then storage[HighScoreKey] else 0
  }

  /** The storage after `saveHighScore(score)`: written only for a strictly higher score. */
  function SavedStorage(storage: map<string, int>, score: int): (r: map<string, int>)
    ensures StoredHighScore(r) == if score > StoredHighScore(storage) then score else StoredHighScore(storage)
    ensures forall k :: k != HighScoreKey ==> (k in r <==> k in storage) && (k in r ==> r[k] == storage[k])
  {
    if score > StoredHighScore(storage) then storage[HighScoreKey := score] else storage
  }

  function SaveAll(storage: map<string, int>, scores: seq<int>): map<string, int>
    decreases |scores|
  {
    if scores == [] then storage else SaveAll(SavedStorage(storage, scores[0]), scores[1..])
  }

  /** After any run of saves the stored high score has never dropped. It is at least every
      saved score, and it is either the old high score or one of the saved ones. */
  lemma {:induction false} HighScoreIsRunningMaximum(storage: map<string, int>, scores: seq<int>)
    ensures StoredHighScore(SaveAll(storage, scores)) >= StoredHighScore(storage)
    ensures forall i :: 0 <= i < |scores| ==> StoredHighScore(SaveAll(storage, scores)) >= scores[i]
    ensures StoredHighScore(SaveAll(storage, scores)) == StoredHighScore(storage) ||
            StoredHighScore(SaveAll(storage, scores)) in scores
    decreases |scores|
  {
    if scores != [] {
      var next := SavedStorage(storage, scores[0]);
      HighScoreIsRunningMaximum(next, scores[1..]);
      forall i | 0 <= i < |scores|
        ensures StoredHighScore(SaveAll(storage, scores)) >= scores[i]
      {
        if i > 0 {
          assert scores[i] == scores[1..][i - 1];
        }
      }
      var h := StoredHighScore(SaveAll(storage, scores));
      if h != StoredHighScore(next) {
        assert h in scores[1..];
      }
    }
  }

  class ScoreBoard {
    var currentScore: int
    var storage: map<string, int>

    /** A fresh page: score 0, with whatever the browser had stored. */
    constructor (stored: map<string, int>)
      ensures currentScore == 0 && storage == stored
    {
      currentScore := 0;
      storage := stored;
    }

    /** `updateScore`. */
    method UpdateScore(points: int) returns (newScore: int)
      modifies this`currentScore
      ensures currentScore == ScoreAfter(old(currentScore), points)
      ensures newScore == currentScore
    {
      if points == 0 {
        currentScore := 0;
      } else {
        currentScore := currentScore + points;
      }
      newScore := currentScore;
    }

    /** `saveHighScore`: reports whether the score is a new high score, and stores it if so. */
    method SaveHighScore(score: int) returns (isNew: bool)
      modifies this`storage
      ensures isNew <==> score > StoredHighScore(old(storage))
      ensures storage == SavedStorage(old(storage), score)
      ensures StoredHighScore(storage) >= StoredHighScore(old(storage)) && StoredHighScore(storage) >= score
    {
      var current := if HighScoreKey in storage then storage[HighScoreKey] else 0;
      if score > current {
        storage := storage[HighScoreKey := score];
        return true;
      }
      return false;
    }

    /** `getHighScore`. */
    method GetHighScore() returns (highScore: int)
      ensures highScore == StoredHighScore(storage)
    {
      highScore := if HighScoreKey in storage then storage[HighScoreKey] else 0;
    }
  }
}
