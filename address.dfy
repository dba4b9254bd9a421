/**
 * PricePredictionModel: fits a ridge-regularised linear model of price on
 * the comparables' features, validates it on the last fifth of the
 * shuffled examples, warns when it may be inaccurate and predicts the
 * price at the query point.
 */
module Address {
  import opened Common
  import opened Dates
  import opened Region
  import opened Records
  import opened Features
  import opened Assess

  type Coefficients = seq<real>

  /**
   * The numerical routines, outside this model: fitting (ordinary least
   * squares with an L2 penalty), prediction for one feature vector, and the
   * root-mean-squared error of predictions against observed values.
   */
  datatype Regression = Regression(
    fit: (seq<Vector>, seq<real>) -> Coefficients,
    predict: (Coefficients, Vector) -> real,
    rootMeanSquaredError: (seq<real>, seq<real>) -> real)

  /** A double-precision quotient: finite, an infinity, or not a number. */
  datatype Float = Finite(value: real) | PosInf | NegInf | NaN

  /** IEEE division of a finite number by a finite number. */
  function Divide(a: real, b: real): (q: Float)
    ensures q.Finite? <==> b != 0.0
    ensures q.Finite? ==> q.value * b == a
    ensures b == 0.0 ==> (q == NaN <==> a == 0.0) && (q == PosInf <==> a > 0.0) && (q == NegInf <==> a < 0.0)
  {
    if b != 0.0 then Finite(a / b)
    else if a > 0.0 then PosInf
    else if a < 0.0 then NegInf
    else NaN
  }

  /** The comparison f > bound: infinities compare by sign, NaN compares false. */
  predicate Exceeds(f: Float, bound: real) {
    match f
    case Finite(v) => v > bound
    case PosInf => true
    case NegInf => false
    case NaN => false
  }

  /** math.ceil(n * 0.8): the number of training examples out of n. */
  function TrainSize(n: nat): (t: nat)
    ensures 5 * t >= 4 * n && (t == 0 || 5 * (t - 1) < 4 * n)
    ensures t <= n && (n >= 1 ==> t >= 1)
  {
    (4 * n + 4) / 5
  }

  /** The test fold is empty exactly when there are at most four examples. */
  lemma TestFoldEmpty(n: nat)
    requires n >= 1
    ensures TrainSize(n) == n <==> n <= 4
  {
    if n >= 5 {
      assert 5 * TrainSize(n) <= 4 * n + 4;
    }
  }

  /** The split of ten examples is eight and two; a single example trains and leaves no test fold. */
  lemma SplitExamples()
    ensures TrainSize(10) == 8 && TrainSize(1) == 1
  {
  }

  function Max(s: seq<real>): (m: real)
    requires |s| > 0
    ensures m in s && forall x :: x in s ==> x <= m
  {
    if |s| == 1 then s[0]
    else
      var rest := Max(s[1..]);
      assert forall x :: x in s ==> x == s[0] || x in s[1..];
      if s[0] >= rest then s[0] else rest
  }

  function Min(s: seq<real>): (m: real)
    requires |s| > 0
    ensures m in s && forall x :: x in s ==> m <= x
  {
    if |s| == 1 then s[0]
    else
      var rest := Min(s[1..]);
      assert forall x :: x in s ==> x == s[0] || x in s[1..];
      if s[0] <= rest then s[0] else rest
  }

  /** The RMSE normalised by the range of the observed test prices. */
  function Nrmse(rmse: real, observed: seq<real>): Float
    requires |observed| > 0
  {
    Divide(rmse, Max(observed) - Min(observed))
  }

  /**
   * The normalisation is finite exactly when the observed prices are not
   * all equal; otherwise a positive error is infinite, so it counts as
   * exceeding any bound, and a zero error is NaN, which exceeds none.
   */
  lemma NrmseRange(rmse: real, observed: seq<real>, bound: real)
    requires |observed| > 0
    ensures Nrmse(rmse, observed).Finite? <==> exists i :: 0 <= i < |observed| && observed[i] != observed[0]
    ensures !Nrmse(rmse, observed).Finite? ==>
      (Exceeds(Nrmse(rmse, observed), bound) <==> rmse > 0.0)
  {
    var hi, lo := Max(observed), Min(observed);
    if hi == lo {
      forall i | 0 <= i < |observed|
        ensures observed[i] == observed[0]
      {
        assert observed[i] in observed && observed[0] in observed;
      }
    } else {
      var a :| a in observed && a == hi;
      var b :| b in observed && b == lo;
      var i :| 0 <= i < |observed| && observed[i] == a;
      var j :| 0 <= j < |observed| && observed[j] == b;
      assert observed[i] != observed[0] || observed[j] != observed[0];
    }
  }

  /** The warning condition: fewer than 50 examples, or a stored NRMSE above 0.5. */
  predicate Inaccurate(n: nat, nrmse: Option<Float>) {
    n < 50 || (nrmse.Some? && Exceeds(nrmse.value, 0.5))
  }

  /**
   * An NRMSE left over from an earlier call never decides the warning:
   * when this call's test fold is empty there are under 50 examples, so
   * the warning is given whatever was stored.
   */
  lemma StaleNrmseIrrelevant(n: nat, stale: Option<Float>, current: Float)
    requires n >= 1
    ensures Inaccurate(n, if TrainSize(n) < n then Some(current) else stale)
      == (n < 50 || Exceeds(current, 0.5))
  {
    TestFoldEmpty(n);
  }

  /** The feature vector of the query: no offsets, its POI count, day 0 and the constant. */
  function QueryVector(poiCount: nat): (v: Vector)
    ensures |v| == 5
  {
    [0.0, 0.0, poiCount as real, 0.0, 1.0]
  }

  /** The query vector is the feature row of a sale at the query point, on the query date. */
  lemma QueryVectorIsFeatureRow(e: Enriched, latitude: real, longitude: real, date: CalendarDate)
    requires e.row.latitude == latitude && e.row.longitude == longitude && e.row.dateOfTransfer == date
    ensures FeatureRow(e, latitude, longitude, date) == QueryVector(e.poiCount)
  {
  }

  /** The outcome of one prediction. */
  datatype Prediction = NoDatapoints | Estimate(price: real, inaccurate: bool)

  /** The model's predictions for a list of feature vectors. */
  function PredictAll(regression: Regression, model: Coefficients, xs: seq<Vector>): (ps: seq<real>)
    ensures |ps| == |xs| && forall i :: 0 <= i < |xs| ==> ps[i] == regression.predict(model, xs[i])
  {
    Map(v => regression.predict(model, v), xs)
  }

  /** A sequence of zeros has as many zeros as entries. */
  lemma {:induction false} AllZerosCount(s: seq<nat>)
    requires forall k :: k in s ==> k == 0
    ensures multiset(s)[0] == |s|
  {
    if |s| > 0 {
      assert s == [s[0]] + s[1..];
      assert forall k :: k in s[1..] ==> k in s;
      AllZerosCount(s[1..]);
      assert s[0] == 0 by { assert s[0] in s; }
      assert multiset(s) == multiset{s[0]} + multiset(s[1..]);
    }
  }

  /**
   * The query point's count fails for an unset box exactly when the point
   * lies 0.05 degrees from the equator or the prime meridian; otherwise,
   * when the join emits only the frame's one label, the count is the
   * number of rows it emitted.
   */
  lemma QueryPoiCountOutcome(latitude: real, longitude: real, poiJoin: PoiJoin)
    ensures QueryPoiCount(latitude, longitude, poiJoin) == Err(BoundingBoxNotSet)
      <==> latitude == 0.05 || latitude == -0.05 || longitude == 0.05 || longitude == -0.05
    ensures var box := Centered(latitude, longitude, QueryBoxSize, QueryBoxSize);
      var joined := poiJoin([0], [(latitude, longitude)], box);
      NonZero(box) && (forall k :: k in joined ==> k == 0) ==>
        QueryPoiCount(latitude, longitude, poiJoin) == Ok(|joined|)
  {
    var box := Centered(latitude, longitude, QueryBoxSize, QueryBoxSize);
    var joined := poiJoin([0], [(latitude, longitude)], box);
    if NonZero(box) && (forall k :: k in joined ==> k == 0) {
      AllZerosCount(joined);
    }
  }

  /**
   * The POI count of the query point: a new pipeline over the same tables,
   * a 0.1 x 0.1 degree box around the point, and a one-row frame labelled 0.
   */
  method PoiCountAt(pipeline: DataPipeline, latitude: real, longitude: real, poiJoin: PoiJoin) returns (r: Result<nat>)
    ensures r == QueryPoiCount(latitude, longitude, poiJoin)
  {
    var predictPipeline := new DataPipeline(pipeline.properties, pipeline.postcodes, pipeline.pricesCoordinates);
    predictPipeline.SetBoundingBox(latitude, longitude, QueryBoxSize, QueryBoxSize);
    var counts := predictPipeline.PoiCountsFor([0], [(latitude, longitude)], poiJoin);
    if counts.Err? {
      return Err(counts.error);
    }
    return Ok(counts.value[0]);
  }

  class PricePredictionModel {
    const dataPipeline: DataPipeline
    var model: Option<Coefficients>
    /** Root-mean-squared error on the last test fold. */
    var rmse: Option<real>
    /** That error normalised by the range of the test fold's prices. */
    var nrmse: Option<Float>

    constructor (dataPipeline: DataPipeline)
      ensures this.dataPipeline == dataPipeline && model == None && rmse == None && nrmse == None
    {
      this.dataPipeline := dataPipeline;
      model, rmse, nrmse := None, None, None;
    }

    /**
     * Fits on the first ceil(0.8 n) examples and, when examples remain,
     * validates on them: rmse and nrmse are refreshed only then.
     */
    method FitAndValidate(x: seq<Vector>, y: seq<real>, regression: Regression) returns (fitted: Coefficients)
      requires |x| == |y| > 0
      modifies this
      ensures var t := TrainSize(|y|);
        && fitted == regression.fit(x[..t], y[..t]) && model == Some(fitted)
        && (if t < |y| then
              var e := regression.rootMeanSquaredError(y[t..], PredictAll(regression, fitted, x[t..]));
              rmse == Some(e) && nrmse == Some(Nrmse(e, y[t..]))
            else rmse == old(rmse) && nrmse == old(nrmse))
    {
      var t := TrainSize(|y|);
      fitted := regression.fit(x[..t], y[..t]);
      model := Some(fitted);
      if t < |y| {
        var observed := y[t..];
        var predicted := PredictAll(regression, fitted, x[t..]);
        var e := regression.rootMeanSquaredError(observed, predicted);
        rmse := Some(e);
        nrmse := Some(Divide(e, Max(observed) - Min(observed)));
      }
    }

    /**
     * predict_price. The dataset comes from the shared pipeline with random
     * draws picks; the first ceil(0.8 n) examples train the model, the rest,
     * when there are any, refresh rmse and nrmse; the query point's POI
     * count comes from a new pipeline over the same tables.
     */
    method PredictPrice(latitude: real, longitude: real, date: string, propertyType: string,
                        poiJoin: PoiJoin, picks: seq<nat>, regression: Regression) returns (r: Result<Prediction>)
      modifies this, dataPipeline, dataPipeline.pricesCoordinates
      ensures var ds := DatasetOf(dataPipeline.properties, dataPipeline.postcodes, latitude, longitude, date, propertyType, poiJoin, picks);
        match ds
        case Err(e) => r == Err(e) && model == old(model) && rmse == old(rmse) && nrmse == old(nrmse)
        case Ok(d) =>
          if |d.y| == 0 then
            r == Ok(NoDatapoints) && model == old(model) && rmse == old(rmse) && nrmse == old(nrmse)
          else
            var t := TrainSize(|d.y|);
            && model == Some(regression.fit(d.x[..t], d.y[..t]))
            && (if t < |d.y| then
                  var e := regression.rootMeanSquaredError(d.y[t..], PredictAll(regression, model.value, d.x[t..]));
                  rmse == Some(e) && nrmse == Some(Nrmse(e, d.y[t..]))
                else rmse == old(rmse) && nrmse == old(nrmse))
            && r == match QueryPoiCount(latitude, longitude, poiJoin)
                    case Err(e) => Err(e)
                    case Ok(c) => Ok(Estimate(regression.predict(model.value, QueryVector(c)), Inaccurate(|d.y|, nrmse)))
      ensures var b := Centered(latitude, longitude, QueryBoxSize, QueryBoxSize);
        && dataPipeline.north == Some(b.north) && dataPipeline.south == Some(b.south)
        && dataPipeline.west == Some(b.west) && dataPipeline.east == Some(b.east)
        && dataPipeline.pricesCoordinates.rows ==
             TableAfter(dataPipeline.properties, dataPipeline.postcodes, b, date, propertyType,
                        old(dataPipeline.pricesCoordinates.rows))
    {
      var dataset := dataPipeline.GetDataset(latitude, longitude, date, propertyType, poiJoin, picks);
      if dataset.Err? {
        return Err(dataset.error);
      }
      var x, y := dataset.value.x, dataset.value.y;
      if |y| == 0 {
        return Ok(NoDatapoints);
      }
      var fitted := FitAndValidate(x, y, regression);
      var warning := |y| < 50 || (nrmse.Some? && Exceeds(nrmse.value, 0.5));
      var count := PoiCountAt(dataPipeline, latitude, longitude, poiJoin);
      if count.Err? {
        return Err(count.error);
      }
      return Ok(Estimate(regression.predict(fitted, QueryVector(count.value)), warning));
    }
  }
}
