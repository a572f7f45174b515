/** Sums and means of real numbers, as `reduce` computes them. */
module Reals {
  function Sum(values: seq<real>): real {
    if values == [] then 0.0 else Sum(values[..|values| - 1]) + values[|values| - 1]
  }

  function Mean(values: seq<real>): real {
    if values == [] then 0.0 else Sum(values) / (|values| as real)
  }
}
