/**
 * The comparable-sales set: the INSERT ... SELECT that fills the scratch
 * table, taken as an in-memory filter-join of the postcode table and the
 * price-paid table, and the keep-first de-duplication applied afterwards.
 */
module Comparables {
  import opened Dates
  import opened Region
  import opened Records
  import Dedup

  /** The filter of one join: widened box, inclusive date window, exact property type. */
  datatype JoinQuery = JoinQuery(area: Box, first: Date, last: Date, propertyType: string)

  predicate WellFormed(q: JoinQuery) {
    ValidDate(q.first) && ValidDate(q.last)
  }

  /** The postcode row lies in the box and the sale matches it on postcode, type and date. */
  predicate Selected(q: JoinQuery, po: PostcodeRecord, pp: PropertyRecord)
    requires WellFormed(q)
  {
    && Inside(q.area, po.latitude, po.longitude)
    && pp.postcode == po.postcode
    && pp.propertyType == q.propertyType
    && Ordinal(q.first) <= Ordinal(pp.dateOfTransfer) <= Ordinal(q.last)
  }

  /** Lexicographic order on (postcode row, price-paid row) position pairs. */
  predicate PairBefore(p: (nat, nat), p': (nat, nat)) {
    p.0 < p'.0 || (p.0 == p'.0 && p.1 < p'.1)
  }

  predicate PairsSorted(ps: seq<(nat, nat)>) {
    forall a, b :: 0 <= a < b < |ps| ==> PairBefore(ps[a], ps[b])
  }

  /** Selected pairs (i, j) with j >= from, for the one postcode row i. */
  function RowPairs(q: JoinQuery, po: seq<PostcodeRecord>, pp: seq<PropertyRecord>, i: nat, from: nat): seq<(nat, nat)>
    requires WellFormed(q) && i < |po| && from <= |pp|
    decreases |pp| - from
  {
    if from == |pp| then []
    else (if Selected(q, po[i], pp[from]) then [(i, from)] else []) + RowPairs(q, po, pp, i, from + 1)
  }

  /** Selected pairs (i, j) with i >= from, in lexicographic order. */
  function Pairs(q: JoinQuery, po: seq<PostcodeRecord>, pp: seq<PropertyRecord>, from: nat): seq<(nat, nat)>
    requires WellFormed(q) && from <= |po|
    decreases |po| - from
  {
    if from == |po| then [] else RowPairs(q, po, pp, from, 0) + Pairs(q, po, pp, from + 1)
  }

  predicate InRange(ps: seq<(nat, nat)>, m: nat, n: nat) {
    forall k :: 0 <= k < |ps| ==> ps[k].0 < m && ps[k].1 < n
  }

  lemma {:induction false} RowPairsExact(q: JoinQuery, po: seq<PostcodeRecord>, pp: seq<PropertyRecord>, i: nat, from: nat)
    requires WellFormed(q) && i < |po| && from <= |pp|
    ensures var ps := RowPairs(q, po, pp, i, from);
      && PairsSorted(ps) && InRange(ps, |po|, |pp|)
      && (forall k :: 0 <= k < |ps| ==> ps[k].0 == i && from <= ps[k].1)
      && (forall j :: from <= j < |pp| ==> ((i, j) in ps <==> Selected(q, po[i], pp[j])))
    decreases |pp| - from
  {
    if from < |pp| {
      RowPairsExact(q, po, pp, i, from + 1);
    }
  }

  lemma {:induction false} PairsExact(q: JoinQuery, po: seq<PostcodeRecord>, pp: seq<PropertyRecord>, from: nat)
    requires WellFormed(q) && from <= |po|
    ensures var ps := Pairs(q, po, pp, from);
      && PairsSorted(ps) && InRange(ps, |po|, |pp|)
      && (forall k :: 0 <= k < |ps| ==> from <= ps[k].0)
      && (forall i, j :: from <= i < |po| && 0 <= j < |pp| ==> ((i, j) in ps <==> Selected(q, po[i], pp[j])))
    decreases |po| - from
  {
    if from < |po| {
      RowPairsExact(q, po, pp, from, 0);
      PairsExact(q, po, pp, from + 1);
      var head, tail := RowPairs(q, po, pp, from, 0), Pairs(q, po, pp, from + 1);
      SortedConcat(head, tail, from);
      forall i, j | from <= i < |po| && 0 <= j < |pp|
        ensures (i, j) in head + tail <==> Selected(q, po[i], pp[j])
      {
        if i == from {
          assert (i, j) !in tail;
        } else {
          assert (i, j) !in head;
        }
      }
    }
  }

  lemma SortedConcat(head: seq<(nat, nat)>, tail: seq<(nat, nat)>, i: nat)
    requires PairsSorted(head) && PairsSorted(tail)
    requires forall k :: 0 <= k < |head| ==> head[k].0 == i
    requires forall k :: 0 <= k < |tail| ==> i < tail[k].0
    ensures PairsSorted(head + tail)
  {
    var ps := head + tail;
    forall a, b | 0 <= a < b < |ps|
      ensures PairBefore(ps[a], ps[b])
    {
      if b < |head| {
        assert PairBefore(head[a], head[b]);
      } else if |head| <= a {
        assert PairBefore(tail[a - |head|], tail[b - |head|]);
      }
    }
  }

  /**
   * The rows the INSERT ... SELECT writes: one Combine per selected pair, in
   * postcode-row-major order.
   */
  function JoinSelect(q: JoinQuery, po: seq<PostcodeRecord>, pp: seq<PropertyRecord>): (rows: seq<Comparable>)
    requires WellFormed(q)
  {
    var ps := Pairs(q, po, pp, 0);
    PairsExact(q, po, pp, 0);
    seq(|ps|, k requires 0 <= k < |ps| => Combine(po[ps[k].0], pp[ps[k].1]))
  }

  /**
   * A joined row is produced exactly once for each selected pair: the k-th
   * row combines the k-th selected pair, every selected pair appears, and no
   * pair appears twice.
   */
  lemma JoinSelectExact(q: JoinQuery, po: seq<PostcodeRecord>, pp: seq<PropertyRecord>)
    requires WellFormed(q)
    ensures var ps := Pairs(q, po, pp, 0);
      var rows := JoinSelect(q, po, pp);
      && |rows| == |ps| && InRange(ps, |po|, |pp|)
      && (forall k :: 0 <= k < |ps| ==> rows[k] == Combine(po[ps[k].0], pp[ps[k].1]))
      && (forall i, j :: 0 <= i < |po| && 0 <= j < |pp| ==> ((i, j) in ps <==> Selected(q, po[i], pp[j])))
      && (forall a, b :: 0 <= a < b < |ps| ==> ps[a] != ps[b])
  {
    PairsExact(q, po, pp, 0);
  }

  /** Every joined row carries a sale of the queried type, dated inside the window, at a postcode inside the box. */
  lemma JoinSelectRows(q: JoinQuery, po: seq<PostcodeRecord>, pp: seq<PropertyRecord>, r: Comparable)
    requires WellFormed(q) && r in JoinSelect(q, po, pp)
    ensures Inside(q.area, r.latitude, r.longitude) && r.propertyType == q.propertyType
    ensures Ordinal(q.first) <= Ordinal(r.dateOfTransfer) <= Ordinal(q.last)
    ensures exists i, j :: 0 <= i < |po| && 0 <= j < |pp| && Selected(q, po[i], pp[j]) && r == Combine(po[i], pp[j])
  {
    JoinSelectExact(q, po, pp);
    var ps := Pairs(q, po, pp, 0);
    var k :| 0 <= k < |ps| && JoinSelect(q, po, pp)[k] == r;
    assert Selected(q, po[ps[k].0], pp[ps[k].1]);
  }

  // ---------------------------------------------------------------------
  // De-duplication on every column except db_id

  /** Positions of the joined rows that survive de-duplication: their original labels. */
  function SurvivorLabels(rows: seq<Comparable>): (ps: seq<nat>)
    ensures |ps| <= |rows| && forall k :: 0 <= k < |ps| ==> ps[k] < |rows|
  {
    Dedup.FirstPositions(Keys(rows))
  }

  function Deduplicated(rows: seq<Comparable>): (d: seq<Comparable>)
  {
    Dedup.Select(rows, SurvivorLabels(rows))
  }

  /**
   * Keep-first de-duplication: survivors are pairwise different outside
   * db_id, each survivor is the first row with its key, survivors keep
   * their order, and every row has a survivor equal to it outside db_id.
   */
  lemma DeduplicatedSpec(rows: seq<Comparable>)
    ensures var ps := SurvivorLabels(rows);
      && Dedup.StrictlyIncreasing(ps)
      && (forall i :: i in ps <==> 0 <= i < |rows| && forall j :: 0 <= j < i ==> Key(rows[j]) != Key(rows[i]))
    ensures var d := Deduplicated(rows);
      forall a, b :: 0 <= a < b < |d| ==> Key(d[a]) != Key(d[b])
  {
    var ks := Keys(rows);
    Dedup.FirstPositionsExact(ks);
    Dedup.SurvivorsDistinct(ks);
    forall i | 0 <= i < |rows|
      ensures Dedup.IsFirst(ks, i) <==> forall j :: 0 <= j < i ==> Key(rows[j]) != Key(rows[i])
    {
      if !Dedup.IsFirst(ks, i) {
        var j :| 0 <= j < i && ks[..i][j] == ks[i];
      }
    }
    var d := Deduplicated(rows);
    forall a, b | 0 <= a < b < |d|
      ensures Key(d[a]) != Key(d[b])
    {
      assert Dedup.Select(ks, SurvivorLabels(rows))[a] != Dedup.Select(ks, SurvivorLabels(rows))[b];
    }
  }

  /** Every input row has a surviving row equal to it on every column except db_id. */
  lemma DeduplicatedCovers(rows: seq<Comparable>, i: nat) returns (k: nat)
    requires i < |rows|
    ensures k < |Deduplicated(rows)| && Key(Deduplicated(rows)[k]) == Key(rows[i])
  {
    k := Dedup.EveryKeySurvives(Keys(rows), i);
  }

  /** De-duplication is idempotent. */
  lemma DeduplicatedIdempotent(rows: seq<Comparable>)
    ensures Deduplicated(Deduplicated(rows)) == Deduplicated(rows)
  {
    var ks, ps := Keys(rows), SurvivorLabels(rows);
    var d := Deduplicated(rows);
    assert Keys(d) == Dedup.Select(ks, ps);
    Dedup.Idempotent(ks);
  }
}
