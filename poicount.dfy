/**
 * The poi_count column. The spatial join (geometry, not modelled) yields a
 * list of frame labels, one entry per row it emits; a row's poi_count is the
 * number of entries carrying its label.
 */
module PoiCount {
  import opened Common

  /**
   * Counts the labels (np.unique with return_counts) and writes each count
   * against the rows carrying that label (df.loc[keys, "poi_count"] =
   * counts); a label missing from the frame's index is a KeyError.
   */
  method PoiCounts(index: seq<nat>, joined: seq<nat>) returns (r: Result<seq<nat>>)
    ensures r.Err? <==> exists k :: k in joined && k !in index
    ensures r.Err? ==> r.error == LabelNotInIndex
    ensures r.Ok? ==> |r.value| == |index|
    ensures r.Ok? ==> forall i :: 0 <= i < |index| ==> r.value[i] == multiset(joined)[index[i]]
  {
    var counts: map<nat, nat> := map[];
    var i := 0;
    while i < |joined|
      invariant 0 <= i <= |joined|
      invariant forall k :: k in counts <==> k in joined[..i]
      invariant forall k :: k in counts ==> counts[k] == multiset(joined[..i])[k]
    {
      var k := joined[i];
      assert joined[..i + 1] == joined[..i] + [k];
      counts := counts[k := if k in counts then counts[k] + 1 else 1];
      i := i + 1;
    }
    assert joined[..i] == joined;
    if exists k :: k in counts && k !in index {
      return Err(LabelNotInIndex);
    }
    var column: seq<nat> := [];
    var j := 0;
    while j < |index|
      invariant 0 <= j <= |index| && |column| == j
      invariant forall i :: 0 <= i < j ==> column[i] == multiset(joined)[index[i]]
    {
      column := column + [if index[j] in counts then counts[index[j]] else 0];
      j := j + 1;
    }
    return Ok(column);
  }

  function Repeat(x: nat, n: nat): (r: seq<nat>)
    ensures |r| == n && forall k :: 0 <= k < n ==> r[k] == x
  {
    seq(n, _ => x)
  }

  /**
   * The label list a left spatial join emits for a frame whose row i meets
   * hits[i] POIs: one entry per (row, POI) pair, and one entry with no POI
   * for a row that meets none.
   */
  function LeftJoinIndex(index: seq<nat>, hits: seq<nat>): seq<nat>
    requires |hits| == |index|
  {
    if |index| == 0 then []
    else Repeat(index[0], if hits[0] == 0 then 1 else hits[0]) + LeftJoinIndex(index[1..], hits[1..])
  }

  lemma RepeatCount(x: nat, n: nat, y: nat)
    ensures multiset(Repeat(x, n))[y] == if x == y then n else 0
  {
    if n > 0 {
      assert Repeat(x, n) == Repeat(x, n - 1) + [x];
      RepeatCount(x, n - 1, y);
    }
  }

  /**
   * Under a left join a row's poi_count is its number of POIs, except that a
   * row meeting no POI counts 1, the same as a row meeting exactly one; and
   * every emitted label belongs to the frame, so the write cannot fail.
   */
  lemma {:induction false} LeftJoinCounts(index: seq<nat>, hits: seq<nat>)
    requires |hits| == |index|
    requires forall a, b :: 0 <= a < b < |index| ==> index[a] != index[b]
    ensures forall k :: k in LeftJoinIndex(index, hits) ==> k in index
    ensures forall i :: 0 <= i < |index| ==>
      multiset(LeftJoinIndex(index, hits))[index[i]] == if hits[i] == 0 then 1 else hits[i]
  {
    if |index| > 0 {
      var n := if hits[0] == 0 then 1 else hits[0];
      LeftJoinCounts(index[1..], hits[1..]);
      forall i | 0 <= i < |index|
        ensures multiset(LeftJoinIndex(index, hits))[index[i]] == if hits[i] == 0 then 1 else hits[i]
      {
        RepeatCount(index[0], n, index[i]);
        if i > 0 {
          assert index[i] == index[1..][i - 1];
          assert index[0] != index[i];
        } else {
          assert index[0] !in index[1..];
          assert multiset(LeftJoinIndex(index[1..], hits[1..]))[index[0]] == 0;
        }
      }
    }
  }
}
