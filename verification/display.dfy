/**
 The result line shown under the dice. `updateResult` chooses the wording by
 the number of values: a list for more than one die, a single value
 otherwise. With no dice at all the single-value wording reads element 0 of
 an empty list, which shows as `undefined`; that case is `Missing` here.
 */
module Display {

  datatype ResultView =
    | Blank                      // the result element before its first update
    | Missing                    // single-value wording with no value (`undefined`)
    | Single(value: int)         // single-value wording
    | Many(values: seq<int>)     // list wording, values joined in die order

  /** The values a reader of the result line sees, in order. */
  function ShownValues(v: ResultView): seq<int> {
    match v
    case Blank => []
    case Missing => []
    case Single(x) => [x]
    case Many(xs) => xs
  }

  /** The view for one roll's values: the list wording exactly when there is
      more than one value, and in every case the values read back unchanged. */
  function UpdateResult(numbers: seq<int>): (r: ResultView)
    ensures r.Many? <==> |numbers| > 1
    ensures r.Single? <==> |numbers| == 1
    ensures ShownValues(r) == numbers
    ensures r != Blank
  {
    if |numbers| > 1 then Many(numbers)
    else if |numbers| == 1 then Single(numbers[0])
    else Missing
  }
}
