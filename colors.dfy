/** The colour helper `get_color`: a measurement between 0 and 100 becomes a
    colour whose red channel grows with the value, from green (0) to yellow (100). */
module Colors {
  import opened Errors
  import Labels

  /** An RGB colour as the plotting and map libraries receive it. */
  datatype Color = Color(red: int, green: int, blue: int)

  predicate InChannelRange(x: int) {
    0 <= x <= 255
  }

  /** Rejects a value outside 0..100 with a ValueError naming it; otherwise the
      red channel grows with the value, truncated to an integer, while green is
      full and blue is off. */
  function GetColor(value: int): (r: Result<Color>)
    ensures r.Err? <==> value < 0 || value > 100
    ensures r.Err? ==> r.error.ValueError?
    ensures r.Ok? ==> r.value.green == 255 && r.value.blue == 0
    ensures r.Ok? ==> InChannelRange(r.value.red)
    ensures r.Ok? ==> r.value.red * 100 <= value * 255 < (r.value.red + 1) * 100
  {
    if !(0 <= value <= 100) then
      Err(ValueError("value (" + Labels.IntToString(value) + ") must be between 0 - 100"))
    else
      Ok(Color(value * 255 / 100, 255, 0))
  }

  /** The two ends of the scale: 0 gives pure green, 100 gives yellow (red and green full). */
  lemma GetColorEnds()
    ensures GetColor(0) == Ok(Color(0, 255, 0))
    ensures GetColor(100) == Ok(Color(255, 255, 0))
  {
  }

  /** A larger measurement never gives less red. */
  lemma GetColorMonotone(v: int, w: int)
    requires 0 <= v <= w <= 100
    ensures GetColor(v).Ok? && GetColor(w).Ok?
    ensures GetColor(v).value.red <= GetColor(w).value.red
  {
  }

  /** The map legend asks for the colours of 0, 10, ..., 100; none of those calls fails. */
  lemma LegendNeverFails()
    ensures forall k :: 0 <= k <= 10 ==> GetColor(10 * k).Ok?
  {
  }
}
