/**
 * Score normalisation (`scoreToPct`): a value reported by a scoring provider
 * becomes either "no score" or a whole percentage in [0, 100].
 */
module Percent {
  import opened Wrappers

  /** The outcome of JavaScript's `Number(x)`: a finite real, or NaN / ±Infinity. */
  datatype JsNumber = NonFinite | Finite(r: real)

  /** `Math.round`: the nearest integer, halves rounded towards +∞. */
  function Round(r: real): (n: int)
    ensures n as real - 0.5 <= r < n as real + 0.5
  {
    (r + 0.5).Floor
  }

  /** `Math.round` is the only integer within half a unit (ties upwards). */
  lemma RoundUnique(r: real, n: int)
    requires n as real - 0.5 <= r < n as real + 0.5
    ensures Round(r) == n
  {
  }

  /** `Math.max(0, Math.min(100, n))` */
  function Clamp(n: int): (c: int)
    ensures 0 <= c <= 100
    ensures 0 <= n <= 100 ==> c == n
    ensures n < 0 ==> c == 0
    ensures n > 100 ==> c == 100
  {
    if n < 0 then 0 else if n > 100 then 100 else n
  }

  /**
   * `scoreToPct(score)`: `None` for null/undefined (the outer `None`) and for a
   * value whose `Number(...)` is not finite; otherwise the rounded value
   * clamped to [0, 100].
   */
  function ScoreToPct(score: Option<JsNumber>): (p: Option<int>)
    ensures p.None? <==> score.None? || score.value.NonFinite?
    ensures p.Some? ==> 0 <= p.value <= 100
    ensures score.Some? && score.value.Finite? && score.value.r < 0.0 ==> p == Some(0)
    ensures score.Some? && score.value.Finite? && score.value.r > 100.0 ==> p == Some(100)
    ensures score.Some? && score.value.Finite? && 0.0 <= score.value.r <= 100.0 ==>
              p.Some? && p.value as real - 0.5 <= score.value.r < p.value as real + 0.5
  {
    match score
    case None => None
    case Some(NonFinite) => None
    case Some(Finite(r)) => Some(Clamp(Round(r)))
  }
}
