/**
 * The regression inputs: the shuffled comparable rows turned into feature
 * vectors [lat offset, lon offset, poi_count, day offset, 1] and prices.
 */
module Features {
  import opened Dates
  import opened Records

  type Vector = seq<real>

  /** The design matrix and the target vector. */
  datatype Dataset = Dataset(x: seq<Vector>, y: seq<real>)

  /** A de-duplicated comparable together with its poi_count. */
  datatype Enriched = Enriched(row: Comparable, poiCount: nat)

  function Map<A, B>(f: A -> B, s: seq<A>): (r: seq<B>)
    ensures |r| == |s| && forall i :: 0 <= i < |s| ==> r[i] == f(s[i])
  {
    seq(|s|, i requires 0 <= i < |s| => f(s[i]))
  }

  lemma MapConcat<A, B>(f: A -> B, a: seq<A>, b: seq<A>)
    ensures Map(f, a + b) == Map(f, a) + Map(f, b)
  {
  }

  /**
   * A random reordering of s (pandas' sample(frac=1)), driven by the random
   * draws in picks: each step moves the element at picks[0] mod |s| to the
   * front. Whatever the draws, the result is a permutation of s.
   */
  function Shuffle<T>(s: seq<T>, picks: seq<nat>): (r: seq<T>)
    ensures multiset(r) == multiset(s)
    decreases |s|
  {
    if |s| == 0 then []
    else
      var k := (if |picks| == 0 then 0 else picks[0]) % |s|;
      assert s == s[..k] + [s[k]] + s[k + 1..];
      [s[k]] + Shuffle(s[..k] + s[k + 1..], if |picks| == 0 then [] else picks[1..])
  }

  lemma SplitAt<A>(s: seq<A>, k: int)
    requires 0 <= k < |s|
    ensures s[..k] + [s[k]] + s[k + 1..] == s
  {
  }

  lemma ShuffleUnfold<A>(s: seq<A>, picks: seq<nat>)
    requires |s| > 0
    ensures var k := (if |picks| == 0 then 0 else picks[0]) % |s|;
      Shuffle(s, picks) == [s[k]] + Shuffle(s[..k] + s[k + 1..], if |picks| == 0 then [] else picks[1..])
  {
  }

  /** Moving one element to the front does not change the multiset of images. */
  lemma MapMoveToFront<A, B>(f: A -> B, before: seq<A>, x: A, after: seq<A>, moved: seq<A>)
    requires multiset(Map(f, moved)) == multiset(Map(f, before + after))
    ensures multiset(Map(f, [x] + moved)) == multiset(Map(f, before + [x] + after))
  {
    MapConcat(f, [x], moved);
    MapConcat(f, before, after);
    assert Map(f, before + [x] + after) == Map(f, before) + Map(f, [x]) + Map(f, after);
  }

  /** Every draw sequence maps the shuffle onto the rows in the same way, so mapping commutes with it. */
  lemma {:induction false} MapShuffle<A, B>(f: A -> B, s: seq<A>, picks: seq<nat>)
    ensures multiset(Map(f, Shuffle(s, picks))) == multiset(Map(f, s))
    decreases |s|
  {
    if |s| > 0 {
      var k := (if |picks| == 0 then 0 else picks[0]) % |s|;
      var picks' := if |picks| == 0 then [] else picks[1..];
      var before, x, after := s[..k], s[k], s[k + 1..];
      var rest := before + after;
      var moved := Shuffle(rest, picks');
      ShuffleUnfold(s, picks);
      assert Shuffle(s, picks) == [x] + moved;
      assert multiset(Map(f, moved)) == multiset(Map(f, rest)) by {
        MapShuffle(f, rest, picks');
      }
      MapMoveToFront(f, before, x, after, moved);
      SplitAt(s, k);
    }
  }

  /** The feature vector of one row relative to the query point and date. */
  function FeatureRow(e: Enriched, latitude: real, longitude: real, date: CalendarDate): Vector {
    [e.row.latitude - latitude, e.row.longitude - longitude, e.poiCount as real,
     (Ordinal(e.row.dateOfTransfer) - Ordinal(date)) as real, 1.0]
  }

  /** A training example: the feature vector and the price of one row. */
  function Example(e: Enriched, latitude: real, longitude: real, date: CalendarDate): (Vector, real) {
    (FeatureRow(e, latitude, longitude, date), e.row.price as real)
  }

  function Build(rows: seq<Enriched>, latitude: real, longitude: real, date: CalendarDate): Dataset {
    Dataset(Map(e => FeatureRow(e, latitude, longitude, date), rows), Map((e: Enriched) => e.row.price as real, rows))
  }

  /** The examples of a dataset, x and y read side by side. */
  function Examples(d: Dataset): seq<(Vector, real)>
    requires |d.x| == |d.y|
  {
    seq(|d.x|, i requires 0 <= i < |d.x| => (d.x[i], d.y[i]))
  }

  /**
   * x and y have one entry per row and stay aligned: entry i of both comes
   * from row i, x[i] is its five features and y[i] its price.
   */
  lemma BuildAligned(rows: seq<Enriched>, latitude: real, longitude: real, date: CalendarDate)
    ensures var d := Build(rows, latitude, longitude, date);
      && |d.x| == |d.y| == |rows|
      && Examples(d) == Map(e => Example(e, latitude, longitude, date), rows)
      && forall i :: 0 <= i < |rows| ==>
           && |d.x[i]| == 5
           && d.x[i][0] == rows[i].row.latitude - latitude
           && d.x[i][1] == rows[i].row.longitude - longitude
           && d.x[i][2] == rows[i].poiCount as real
           && d.x[i][3] == (Ordinal(rows[i].row.dateOfTransfer) - Ordinal(date)) as real
           && d.x[i][4] == 1.0
           && d.y[i] == rows[i].row.price as real
  {
  }

  /** The shuffled dataset holds exactly the examples of the unshuffled rows, each as often. */
  lemma ShuffledExamples(rows: seq<Enriched>, picks: seq<nat>, latitude: real, longitude: real, date: CalendarDate)
    ensures var d := Build(Shuffle(rows, picks), latitude, longitude, date);
      |d.x| == |d.y| == |rows| &&
      multiset(Examples(d)) == multiset(Map(e => Example(e, latitude, longitude, date), rows))
  {
    var f := e => Example(e, latitude, longitude, date);
    BuildAligned(Shuffle(rows, picks), latitude, longitude, date);
    assert |Shuffle(rows, picks)| == |rows| by {
      assert |multiset(Shuffle(rows, picks))| == |multiset(rows)|;
    }
    MapShuffle(f, rows, picks);
  }
}
