/**
 * The per-sound score store (`loadScores` / `updateScore` / the dashboard's
 * reset). Storage is an abstract map from sound identifier to record; the
 * clock (`Date.now()`) is a parameter.
 */
module Scores {
  import opened Wrappers
  import opened Percent

  datatype ScoreRecord = ScoreRecord(best: int, last: int, attempts: nat, updatedAt: int)

  type ScoreMap = map<string, ScoreRecord>

  /** The record `updateScore` starts from when the sound has none yet. */
  const Zero := ScoreRecord(0, 0, 0, 0)

  function Prev(scores: ScoreMap, soundId: string): ScoreRecord {
    if soundId in scores then scores[soundId] else Zero
  }

  function Max(a: int, b: int): int {
    if a < b then b else a
  }

  /**
   * The store after `updateScore(soundId, newScore)` at time `now`: `best` is
   * the running maximum, `last` the new score, `attempts` one more than before
   * (a missing record counting as zeros); every other sound is untouched.
   */
  function Updated(scores: ScoreMap, soundId: string, newScore: int, now: int): (m: ScoreMap)
    ensures m.Keys == scores.Keys + {soundId}
    ensures m[soundId].best >= Prev(scores, soundId).best && m[soundId].best >= newScore
    ensures m[soundId].best == Prev(scores, soundId).best || m[soundId].best == newScore
    ensures m[soundId].last == newScore && m[soundId].updatedAt == now
    ensures m[soundId].attempts == Prev(scores, soundId).attempts + 1
    ensures forall k :: k in scores && k != soundId ==> m[k] == scores[k]
  {
    var prev := Prev(scores, soundId);
    scores[soundId := ScoreRecord(Max(prev.best, newScore), newScore, prev.attempts + 1, now)]
  }

  /** One successful scored attempt: the sound, its percentage and the time. */
  datatype Attempt = Attempt(soundId: string, score: int, at: int)

  /** The store after a sequence of `updateScore` calls, oldest first. */
  function ApplyAll(scores: ScoreMap, attempts: seq<Attempt>): ScoreMap
    decreases |attempts|
  {
    if attempts == [] then scores
    else ApplyAll(Updated(scores, attempts[0].soundId, attempts[0].score, attempts[0].at), attempts[1..])
  }

  /** The scores recorded for one sound, in order. */
  function ScoresFor(attempts: seq<Attempt>, soundId: string): seq<int>
    decreases |attempts|
  {
    if attempts == [] then []
    else (if attempts[0].soundId == soundId then [attempts[0].score] else []) + ScoresFor(attempts[1..], soundId)
  }

  /** The running maximum of `start` and every value in `vs`. */
  function MaxOf(start: int, vs: seq<int>): (m: int)
    ensures m >= start && forall i :: 0 <= i < |vs| ==> m >= vs[i]
    ensures m == start || exists i :: 0 <= i < |vs| && m == vs[i]
    decreases |vs|
  {
    if vs == [] then start else MaxOf(Max(start, vs[0]), vs[1..])
  }

  /**
   * Over any sequence of calls, a sound's `best` is the maximum of its
   * earlier best and every score passed for it, and `attempts` grows by the
   * number of calls for it; a sound never named keeps its record.
   */
  lemma {:induction false} ApplyAllSound(scores: ScoreMap, attempts: seq<Attempt>, soundId: string)
    ensures var vs := ScoresFor(attempts, soundId);
            var m := ApplyAll(scores, attempts);
            && (vs != [] ==>
                  (soundId in m
                   && m[soundId].best == MaxOf(Prev(scores, soundId).best, vs)
                   && m[soundId].last == vs[|vs| - 1]))
            && Prev(m, soundId).attempts == Prev(scores, soundId).attempts + |vs|
            && (vs == [] ==> (soundId in m <==> soundId in scores) && Prev(m, soundId) == Prev(scores, soundId))
    decreases |attempts|
  {
    if attempts != [] {
      var a := attempts[0];
      var next := Updated(scores, a.soundId, a.score, a.at);
      ApplyAllSound(next, attempts[1..], soundId);
      var rest := ScoresFor(attempts[1..], soundId);
      if a.soundId == soundId {
        assert ScoresFor(attempts, soundId) == [a.score] + rest;
        assert Prev(next, soundId).best == Max(Prev(scores, soundId).best, a.score);
        if rest != [] {
          assert ([a.score] + rest)[|rest|] == rest[|rest| - 1];
        }
      } else {
        assert ScoresFor(attempts, soundId) == rest;
        assert Prev(next, soundId) == Prev(scores, soundId);
      }
    }
  }

  /**
   * From an empty store (first use, or after the reset), a sound's `best` is
   * the largest score it was ever given (at least 0) and `attempts` the number
   * of calls for it.
   */
  lemma FromEmpty(attempts: seq<Attempt>, soundId: string)
    requires ScoresFor(attempts, soundId) != []
    ensures var m := ApplyAll(map[], attempts);
            var vs := ScoresFor(attempts, soundId);
            soundId in m && m[soundId].best == MaxOf(0, vs) && m[soundId].attempts == |vs|
  {
    ApplyAllSound(map[], attempts, soundId);
  }

  /** Every stored `best` and `last` is a percentage. */
  ghost predicate InRange(scores: ScoreMap) {
    forall k :: k in scores ==> 0 <= scores[k].best <= 100 && 0 <= scores[k].last <= 100
  }

  /** A percentage update keeps every stored value a percentage. */
  lemma UpdatedInRange(scores: ScoreMap, soundId: string, newScore: int, now: int)
    requires InRange(scores) && 0 <= newScore <= 100
    ensures InRange(Updated(scores, soundId, newScore, now))
  {
    var m := Updated(scores, soundId, newScore, now);
    forall k | k in m
      ensures 0 <= m[k].best <= 100 && 0 <= m[k].last <= 100
    {
      if k != soundId {
        assert m[k] == scores[k];
      }
    }
  }

  /**
   * What a practice or reading screen does with a provider's answer: the score
   * goes through `scoreToPct` and is stored only when that gives a percentage.
   */
  function RecordResult(scores: ScoreMap, soundId: string, overallScore: Option<JsNumber>, now: int): (m: ScoreMap)
    ensures ScoreToPct(overallScore).None? ==> m == scores
    ensures ScoreToPct(overallScore).Some? ==> m == Updated(scores, soundId, ScoreToPct(overallScore).value, now)
    ensures ScoreToPct(overallScore).Some? ==> soundId in m && m[soundId].last == ScoreToPct(overallScore).value
    ensures m.Keys <= scores.Keys + {soundId}
    ensures forall k :: k in scores && k != soundId ==> k in m && m[k] == scores[k]
  {
    match ScoreToPct(overallScore)
    case None => scores
    case Some(pct) => Updated(scores, soundId, pct, now)
  }

  /** Whatever the providers report, a store of percentages stays one. */
  lemma RecordResultInRange(scores: ScoreMap, soundId: string, overallScore: Option<JsNumber>, now: int)
    requires InRange(scores)
    ensures InRange(RecordResult(scores, soundId, overallScore, now))
    ensures ScoreToPct(overallScore).None? ==> RecordResult(scores, soundId, overallScore, now) == scores
  {
    var p := ScoreToPct(overallScore);
    if p.Some? {
      UpdatedInRange(scores, soundId, p.value, now);
    }
  }

  /**
   * The stored score map. `scores` stands for what `loadScores()` returns;
   * every method writes the whole map back, as `saveScores` does.
   */
  class ScoreStore {
    var scores: ScoreMap

    /** First load: nothing stored yet gives the empty map. */
    constructor ()
      ensures scores == map[]
    {
      scores := map[];
    }

    /** `updateScore(soundId, newScore)` with `Date.now()` passed as `now`. */
    method UpdateScore(soundId: string, newScore: int, now: int)
      modifies this
      ensures scores == Updated(old(scores), soundId, newScore, now)
      ensures InRange(old(scores)) && 0 <= newScore <= 100 ==> InRange(scores)
    {
      scores := Updated(scores, soundId, newScore, now);
      if InRange(old(scores)) && 0 <= newScore <= 100 {
        UpdatedInRange(old(scores), soundId, newScore, now);
      }
    }

    /** The dashboard's reset: the stored item is removed, so every record goes. */
    method Reset()
      modifies this
      ensures scores == map[]
      ensures InRange(scores)
    {
      scores := map[];
    }

    /** `scores[soundId]`, absent when the sound was never scored: the store-side lookup in the map. */
    method Get(soundId: string) returns (r: Option<ScoreRecord>)
      ensures r.Some? <==> soundId in scores
      ensures r.Some? ==> r.value == scores[soundId]
    {
      r := if soundId in scores then Some(scores[soundId]) else None;
    }
  }

  /** The worked example: 60 then 45 for a fresh sound gives best 60, last 45, two attempts. */
  lemma Example6045(t1: int, t2: int)
    ensures var m := ApplyAll(map[], [Attempt("an", 60, t1), Attempt("an", 45, t2)]);
            "an" in m && m["an"] == ScoreRecord(60, 45, 2, t2)
  {
    var m1 := Updated(map[], "an", 60, t1);
    assert m1["an"] == ScoreRecord(60, 60, 1, t1);
    var m2 := Updated(m1, "an", 45, t2);
    assert m2["an"] == ScoreRecord(60, 45, 2, t2);
    assert ApplyAll(m1, [Attempt("an", 45, t2)]) == ApplyAll(m2, []);
  }
}
