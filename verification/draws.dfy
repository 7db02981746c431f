/** The values `Math.random()` returns, which the pages draw and the model
    takes as parameters. */
module RandomDraws {

  /** Each draw is a value `Math.random()` can return: a number in [0, 1). */
  predicate UnitDraws(draws: seq<real>)
  {
    forall k :: 0 <= k < |draws| ==> 0.0 <= draws[k] < 1.0
  }
}
