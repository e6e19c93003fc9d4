/** The severity levels of Monolog's `Logger` class, which the formatter's
    colour map is keyed by. Monolog itself is not part of this model; the
    integer values are the ones its `Logger` constants carry. */
module Levels {

  const Debug: int := 100
  const Info: int := 200
  const Notice: int := 250
  const Warning: int := 300
  const Error: int := 400
  const Critical: int := 500
  const Alert: int := 550
  const Emergency: int := 600

  /** The eight levels, from least to most severe. */
  const All: seq<int> := [Debug, Info, Notice, Warning, Error, Critical, Alert, Emergency]

  /** The levels strictly increase, so `All` lists each level once. */
  lemma AllStrictlyIncreasing()
    ensures |All| == 8
    ensures forall i, j :: 0 <= i < j < |All| ==> All[i] < All[j]
  {
  }
}
