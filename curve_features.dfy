/** `get_global_minimum`: the position of the smallest y value, the values
    not-a-number left out, together with the x and y values there.

    A sample is either NaN or a number; numbers are ordered as reals. */
module CurveFeatures {
  import opened Faults

  datatype Sample = NaN | Num(value: real)

  const EmptyMessage := "attempt to get argmin of an empty sequence"
  const AllNaNMessage := "All-NaN slice encountered"

  /** `i` is where the minimum of `y` first occurs: a number, no number of
      `y` below it, and every number before it strictly above it. */
  predicate IsFirstMinimum(y: seq<Sample>, i: int) {
    && 0 <= i < |y|
    && y[i].Num?
    && (forall j :: 0 <= j < |y| && y[j].Num? ==> y[i].value <= y[j].value)
    && (forall j :: 0 <= j < i && y[j].Num? ==> y[i].value < y[j].value)
  }

  /** The scan of `np.nanargmin`: the first position of the smallest number,
      or None when `y` holds no number. */
  function MinIndex(y: seq<Sample>): (r: Option<nat>)
    ensures r.None? <==> forall j :: 0 <= j < |y| ==> y[j].NaN?
    ensures r.Some? ==> IsFirstMinimum(y, r.value)
    decreases |y|
  {
    if |y| == 0 then None
    else
      var n := |y| - 1;
      var prev := MinIndex(y[..n]);
      assert forall j :: 0 <= j < n ==> y[..n][j] == y[j];
      match y[n]
      case NaN => prev
      case Num(v) =>
        match prev
        case None => Some(n)
        case Some(i) => if v < y[i].value then Some(n) else Some(i)
  }

  /** `np.nanargmin(y)`: ValueError for an empty array and for one holding
      NaN alone. */
  function NanArgMin(y: seq<Sample>): (r: Result<nat>)
    ensures r.Ok? ==> IsFirstMinimum(y, r.value)
    ensures |y| == 0 ==> r == Err(ValueError(EmptyMessage))
    ensures |y| > 0 && (forall j :: 0 <= j < |y| ==> y[j].NaN?) ==> r == Err(ValueError(AllNaNMessage))
  {
    if |y| == 0 then Err(ValueError(EmptyMessage))
    else
      match MinIndex(y)
      case None => Err(ValueError(AllNaNMessage))
      case Some(i) => Ok(i)
  }

  /** The first minimum is unique: no other position can be returned. */
  lemma {:induction false} FirstMinimumUnique(y: seq<Sample>, i: int, k: int)
    requires IsFirstMinimum(y, i) && IsFirstMinimum(y, k)
    ensures i == k
  {
  }

  /** `np.nanargmin` succeeds exactly when `y` holds a number, and then
      returns the one position that is the first minimum. */
  lemma {:induction false} NanArgMinIsTheArgMin(y: seq<Sample>, i: int)
    ensures NanArgMin(y).Ok? <==> exists j :: 0 <= j < |y| && y[j].Num?
    ensures NanArgMin(y) == Ok(i) <==> IsFirstMinimum(y, i)
  {
    if IsFirstMinimum(y, i) {
      FirstMinimumUnique(y, NanArgMin(y).value, i);
    }
  }

  /** `get_global_minimum(x, y)`: `(x[min_pos], y[min_pos], min_pos)`, and
      IndexError when `x` is shorter than `min_pos + 1`. */
  function GetGlobalMinimum<X>(x: seq<X>, y: seq<Sample>): (r: Result<(X, real, nat)>)
    ensures r.Ok? <==> NanArgMin(y).Ok? && NanArgMin(y).value < |x|
    ensures r.Ok? ==> && IsFirstMinimum(y, r.value.2)
                      && r.value.0 == x[r.value.2]
                      && y[r.value.2] == Num(r.value.1)
    ensures NanArgMin(y).Err? ==> r == Err(NanArgMin(y).error)
    ensures NanArgMin(y).Ok? && |x| <= NanArgMin(y).value ==> r == Err(IndexError)
  {
    var minPos :- NanArgMin(y);
    if minPos < |x| then Ok((x[minPos], y[minPos].value, minPos)) else Err(IndexError)
  }

  /** The minimum found is below every other number: a dip that is not the
      lowest point loses to the lowest, wherever it sits. */
  lemma {:induction false} DeeperDipWins<X>(x: seq<X>, y: seq<Sample>, shallow: nat, deep: nat)
    requires shallow < |y| && deep < |y| && |x| == |y|
    requires y[shallow].Num? && y[deep].Num? && y[deep].value < y[shallow].value
    requires forall j :: 0 <= j < |y| && y[j].Num? ==> y[deep].value <= y[j].value
    requires forall j :: 0 <= j < deep && y[j].Num? ==> y[deep].value < y[j].value
    ensures GetGlobalMinimum(x, y) == Ok((x[deep], y[deep].value, deep))
    ensures GetGlobalMinimum(x, y).value.2 != shallow
  {
    NanArgMinIsTheArgMin(y, deep);
  }

  /** NaN at every other position is ignored, and a tie goes to the first
      position. */
  lemma {:induction false} SmallExample()
    ensures GetGlobalMinimum([0, 1, 2, 3, 4], [Num(1.0), NaN, Num(-3.0), Num(-5.0), Num(-5.0)])
            == Ok((3, -5.0, 3))
  {
    var y := [Num(1.0), NaN, Num(-3.0), Num(-5.0), Num(-5.0)];
    assert IsFirstMinimum(y, 3);
    NanArgMinIsTheArgMin(y, 3);
  }
}
