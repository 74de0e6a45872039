/** The two kinds of JavaScript number the model needs: a finite value, or
    the NaN that `0 / 0` produces. */
module Numbers {
  datatype Number = Finite(value: real) | NaN

  /** JavaScript `+`: NaN absorbs. */
  function Add(x: Number, y: Number): (r: Number)
    ensures r.Finite? <==> x.Finite? && y.Finite?
  {
    if x.Finite? && y.Finite? then Finite(x.value + y.value) else NaN
  }
}
