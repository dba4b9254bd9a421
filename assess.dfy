/**
 * DataPipeline: assembles the comparable-sales dataset for a query point,
 * date and property type. The store's three tables are in-memory
 * sequences; the scratch table and the pandas frames are objects the
 * pipeline changes in place.
 */
module Assess {
  import opened Common
  import opened Dates
  import opened Region
  import opened Records
  import opened Comparables
  import opened Features
  import Dedup
  import PoiCount

  /** (latitude, longitude) in decimal degrees. */
  type Point = (real, real)

  /**
   * The geometry behind the POI count, outside this model: fetch the POIs
   * in the stored box, project frame points and POIs to a metric system,
   * buffer each point by the POI radius and left-join. The result is the
   * joined frame's index: one frame label per emitted row.
   */
  type PoiJoin = (seq<nat>, seq<Point>, Box) -> seq<nat>

  /** The POI search radius in kilometres. */
  const PoiRadiusKm: real := 1.0

  /** Height and width, in degrees, of the box built around the query point. */
  const QueryBoxSize: real := 0.1

  function Points(rows: seq<Comparable>): (ps: seq<Point>)
    ensures |ps| == |rows| && forall i :: 0 <= i < |rows| ==> ps[i] == (rows[i].latitude, rows[i].longitude)
  {
    Map((c: Comparable) => (c.latitude, c.longitude), rows)
  }

  // ---------------------------------------------------------------------
  // What the pipeline computes, as functions of its inputs

  /**
   * The filter the join applies for a stored box: the box widened by the
   * POI radius in degrees and the window read back from its text; or the
   * error raised before the store is touched.
   */
  function JoinQueryFor(box: Box, poiRadiusDeg: real, date: string, propertyType: string): (r: Result<JoinQuery>)
    ensures r.Ok? ==> WellFormed(r.value) && Parse(date).Ok?
    ensures r.Err? <==> WindowText(date).Err?
  {
    match WindowText(date)
    case Err(e) => Err(e)
    case Ok(text) =>
      WindowBounds(date);
      Ok(JoinQuery(Widen(box, poiRadiusDeg), Parse(text.0).value, Parse(text.1).value, propertyType))
  }

  /** The join filter keeps the widened box, the query's type and the dates 182 days either side of the query date. */
  lemma JoinQueryWindow(box: Box, poiRadiusDeg: real, date: string, propertyType: string)
    ensures JoinQueryFor(box, poiRadiusDeg, date, propertyType).Ok? ==>
      var q := JoinQueryFor(box, poiRadiusDeg, date, propertyType).value;
      var d := Parse(date).value;
      && q.area == Widen(box, poiRadiusDeg) && q.propertyType == propertyType
      && Ordinal(q.first) == Ordinal(d) - WindowDays && Ordinal(q.last) == Ordinal(d) + WindowDays
  {
    if Parse(date).Ok? {
      WindowBounds(date);
    }
  }

  /** The rows with their poi_count, in frame order, or the KeyError of the label write. */
  function EnrichedRows(labels: seq<nat>, rows: seq<Comparable>, joined: seq<nat>): (r: Result<seq<Enriched>>)
    requires |labels| == |rows|
    ensures r.Err? <==> exists k :: k in joined && k !in labels
    ensures r.Ok? ==> (|r.value| == |rows| &&
      forall i :: 0 <= i < |rows| ==> r.value[i] == Enriched(rows[i], multiset(joined)[labels[i]]))
  {
    if exists k :: k in joined && k !in labels then Err(LabelNotInIndex)
    else Ok(seq(|rows|, i requires 0 <= i < |rows| => Enriched(rows[i], multiset(joined)[labels[i]])))
  }

  /**
   * The de-duplicated comparables of get_dataset, each with its POI count,
   * in frame order, for a box of 0.1 x 0.1 degrees around the query point.
   */
  function ComparablesOf(properties: seq<PropertyRecord>, postcodes: seq<PostcodeRecord>,
                         latitude: real, longitude: real, date: string, propertyType: string,
                         poiJoin: PoiJoin): (r: Result<seq<Enriched>>)
    ensures r.Ok? ==> Parse(date).Ok?
  {
    var box := Centered(latitude, longitude, QueryBoxSize, QueryBoxSize);
    if !NonZero(box) then Err(BoundingBoxNotSet)
    else
      match JoinQueryFor(box, PoiRadiusKm / KmPerDegree, date, propertyType)
      case Err(e) => Err(e)
      case Ok(q) =>
        var table := JoinSelect(q, postcodes, properties);
        var labels, rows := SurvivorLabels(table), Deduplicated(table);
        EnrichedRows(labels, rows, poiJoin(labels, Points(rows), box))
  }

  /**
   * When the spatial join is a left join over the de-duplicated frame, in
   * which surviving row i meets hits[i] POIs, the label write cannot fail
   * and row i's poi_count is hits[i], or 1 when it meets none.
   */
  lemma EnrichedUnderLeftJoin(table: seq<Comparable>, hits: seq<nat>)
    requires |hits| == |SurvivorLabels(table)|
    ensures var labels, rows := SurvivorLabels(table), Deduplicated(table);
      var r := EnrichedRows(labels, rows, PoiCount.LeftJoinIndex(labels, hits));
      && r.Ok?
      && forall i :: 0 <= i < |rows| ==> r.value[i] == Enriched(rows[i], if hits[i] == 0 then 1 else hits[i])
  {
    var labels := SurvivorLabels(table);
    DeduplicatedSpec(table);
    PoiCount.LeftJoinCounts(labels, hits);
  }

  /** The first and the last day whose midnight a pandas nanosecond Timestamp can hold. */
  const FirstTimestampDay: CalendarDate := Date(1677, 9, 22)
  const LastTimestampDay: CalendarDate := Date(2262, 4, 11)

  /** pd.to_datetime accepts the date. */
  predicate InTimestampRange(d: CalendarDate) {
    Ordinal(FirstTimestampDay) <= Ordinal(d) <= Ordinal(LastTimestampDay)
  }

  /** pd.to_datetime accepts the query date and every comparable's transfer date. */
  predicate DatesConvert(query: CalendarDate, rows: seq<Enriched>) {
    InTimestampRange(query) && forall k :: 0 <= k < |rows| ==> InTimestampRange(rows[k].row.dateOfTransfer)
  }

  /**
   * The date conversions of get_dataset's day offsets, row by row: they
   * succeed exactly when the query date and every transfer date convert.
   */
  method ConvertDates(rows: seq<Enriched>, query: CalendarDate) returns (ok: bool)
    ensures ok <==> InTimestampRange(query) && forall k :: 0 <= k < |rows| ==> InTimestampRange(rows[k].row.dateOfTransfer)
  {
    var i := 0;
    while i < |rows|
      invariant 0 <= i <= |rows|
      invariant forall k :: 0 <= k < i ==> InTimestampRange(rows[k].row.dateOfTransfer)
    {
      if !InTimestampRange(rows[i].row.dateOfTransfer) {
        return false;
      }
      i := i + 1;
    }
    return InTimestampRange(query);
  }

  /**
   * The outcome of get_dataset: the comparables shuffled with the random
   * draws picks, as features and prices; the day offsets fail when the
   * query date or a transfer date lies outside pandas' Timestamp range.
   */
  function DatasetOf(properties: seq<PropertyRecord>, postcodes: seq<PostcodeRecord>,
                     latitude: real, longitude: real, date: string, propertyType: string,
                     poiJoin: PoiJoin, picks: seq<nat>): (r: Result<Dataset>)
    ensures r.Ok? ==> |r.value.x| == |r.value.y|
  {
    match ComparablesOf(properties, postcodes, latitude, longitude, date, propertyType, poiJoin)
    case Err(e) => Err(e)
    case Ok(rows) =>
      var query := Parse(date).value;
      if !DatesConvert(query, rows) then Err(TimestampOutOfRange)
      else Ok(Build(Shuffle(rows, picks), latitude, longitude, query))
  }

  /**
   * The scratch table after get_dataset with the given stored box: refilled
   * with the join when the box is set and the window exists, as it was
   * before otherwise.
   */
  function TableAfter(properties: seq<PropertyRecord>, postcodes: seq<PostcodeRecord>, box: Box,
                      date: string, propertyType: string, before: seq<Comparable>): seq<Comparable>
  {
    if !NonZero(box) then before
    else
      match JoinQueryFor(box, PoiRadiusKm / KmPerDegree, date, propertyType)
      case Err(_) => before
      case Ok(q) => JoinSelect(q, postcodes, properties)
  }

  /** The poi_count of the query point: a one-row frame labelled 0 under a box of 0.1 x 0.1 degrees around it. */
  function QueryPoiCount(latitude: real, longitude: real, poiJoin: PoiJoin): Result<nat>
  {
    var box := Centered(latitude, longitude, QueryBoxSize, QueryBoxSize);
    if !NonZero(box) then Err(BoundingBoxNotSet)
    else
      var joined := poiJoin([0], [(latitude, longitude)], box);
      if exists k :: k in joined && k != 0 then Err(LabelNotInIndex) else Ok(multiset(joined)[0])
  }

  /** How far, in degrees, a comparable may lie from the query point along each axis. */
  const Reach: real := QueryBoxSize / 2.0 + PoiRadiusKm / KmPerDegree

  /**
   * Each comparable of get_dataset is a joined sale: of the queried
   * property type, transferred within 182 days of the query date, inside
   * the query box widened by the POI radius.
   */
  lemma ComparableRow(properties: seq<PropertyRecord>, postcodes: seq<PostcodeRecord>,
                      latitude: real, longitude: real, date: string, propertyType: string,
                      poiJoin: PoiJoin, e: Enriched)
    ensures var rows := ComparablesOf(properties, postcodes, latitude, longitude, date, propertyType, poiJoin);
      rows.Ok? && e in rows.value ==>
      var query := Parse(date).value;
      && e.row.propertyType == propertyType
      && Ordinal(query) - WindowDays <= Ordinal(e.row.dateOfTransfer) <= Ordinal(query) + WindowDays
      && Inside(Widen(Centered(latitude, longitude, QueryBoxSize, QueryBoxSize), PoiRadiusKm / KmPerDegree),
                e.row.latitude, e.row.longitude)
  {
    var comparables := ComparablesOf(properties, postcodes, latitude, longitude, date, propertyType, poiJoin);
    if comparables.Ok? && e in comparables.value {
      var box := Centered(latitude, longitude, QueryBoxSize, QueryBoxSize);
      var radius := PoiRadiusKm / KmPerDegree;
      var q := JoinQueryFor(box, radius, date, propertyType).value;
      JoinQueryWindow(box, radius, date, propertyType);
      var table := JoinSelect(q, postcodes, properties);
      var labels, rows := SurvivorLabels(table), Deduplicated(table);
      var enriched := EnrichedRows(labels, rows, poiJoin(labels, Points(rows), box)).value;
      var j :| 0 <= j < |enriched| && enriched[j] == e;
      assert e.row == table[labels[j]];
      JoinSelectRows(q, postcodes, properties, e.row);
    }
  }

  /**
   * Each training example of a successful get_dataset comes from one of
   * its comparables: x[i] holds the offsets from the query point and date,
   * the POI count and the constant 1, and y[i] the price.
   */
  lemma DatasetRow(properties: seq<PropertyRecord>, postcodes: seq<PostcodeRecord>,
                   latitude: real, longitude: real, date: string, propertyType: string,
                   poiJoin: PoiJoin, picks: seq<nat>, i: nat) returns (e: Enriched)
    requires DatasetOf(properties, postcodes, latitude, longitude, date, propertyType, poiJoin, picks).Ok?
    requires i < |DatasetOf(properties, postcodes, latitude, longitude, date, propertyType, poiJoin, picks).value.x|
    ensures ComparablesOf(properties, postcodes, latitude, longitude, date, propertyType, poiJoin).Ok?
    ensures e in ComparablesOf(properties, postcodes, latitude, longitude, date, propertyType, poiJoin).value
    ensures var d := DatasetOf(properties, postcodes, latitude, longitude, date, propertyType, poiJoin, picks).value;
      d.x[i] == FeatureRow(e, latitude, longitude, Parse(date).value) && d.y[i] == e.row.price as real
  {
    var enriched := ComparablesOf(properties, postcodes, latitude, longitude, date, propertyType, poiJoin).value;
    var shuffled := Shuffle(enriched, picks);
    BuildAligned(shuffled, latitude, longitude, Parse(date).value);
    assert |shuffled| == |enriched| by {
      assert |multiset(shuffled)| == |multiset(enriched)|;
    }
    e := shuffled[i];
    assert e in multiset(enriched) by {
      assert e in multiset(shuffled);
    }
  }

  /**
   * get_dataset's examples are a permutation of the de-duplicated,
   * POI-counted comparables' examples: one per comparable, each as often.
   */
  lemma DatasetIsPermutation(properties: seq<PropertyRecord>, postcodes: seq<PostcodeRecord>,
                             latitude: real, longitude: real, date: string, propertyType: string,
                             poiJoin: PoiJoin, picks: seq<nat>)
    ensures DatasetOf(properties, postcodes, latitude, longitude, date, propertyType, poiJoin, picks).Ok? ==>
      var rows := ComparablesOf(properties, postcodes, latitude, longitude, date, propertyType, poiJoin).value;
      var d := DatasetOf(properties, postcodes, latitude, longitude, date, propertyType, poiJoin, picks).value;
      var query := Parse(date).value;
      |d.x| == |rows| &&
      multiset(Examples(d)) == multiset(Map(e => Example(e, latitude, longitude, query), rows))
  {
    var comparables := ComparablesOf(properties, postcodes, latitude, longitude, date, propertyType, poiJoin);
    if comparables.Ok? {
      ShuffledExamples(comparables.value, picks, latitude, longitude, Parse(date).value);
    }
  }

  /**
   * The features of a successful get_dataset are bounded: offsets within
   * the widened box's half-size, day offsets within the 182-day window,
   * five components ending in the constant 1, and non-negative prices.
   */
  lemma DatasetBounds(properties: seq<PropertyRecord>, postcodes: seq<PostcodeRecord>,
                      latitude: real, longitude: real, date: string, propertyType: string,
                      poiJoin: PoiJoin, picks: seq<nat>)
    ensures DatasetOf(properties, postcodes, latitude, longitude, date, propertyType, poiJoin, picks).Ok? ==>
      var d := DatasetOf(properties, postcodes, latitude, longitude, date, propertyType, poiJoin, picks).value;
      && |d.x| == |d.y|
      && forall i :: 0 <= i < |d.x| ==>
           && |d.x[i]| == 5 && d.x[i][4] == 1.0 && d.y[i] >= 0.0
           && -Reach <= d.x[i][0] <= Reach && -Reach <= d.x[i][1] <= Reach
           && -(WindowDays as real) <= d.x[i][3] <= WindowDays as real
  {
    var dataset := DatasetOf(properties, postcodes, latitude, longitude, date, propertyType, poiJoin, picks);
    if dataset.Err? {
      return;
    }
    var d := dataset.value;
    var box := Centered(latitude, longitude, QueryBoxSize, QueryBoxSize);
    forall i | 0 <= i < |d.x|
      ensures && |d.x[i]| == 5 && d.x[i][4] == 1.0 && d.y[i] >= 0.0
              && -Reach <= d.x[i][0] <= Reach && -Reach <= d.x[i][1] <= Reach
              && -(WindowDays as real) <= d.x[i][3] <= WindowDays as real
    {
      var e := DatasetRow(properties, postcodes, latitude, longitude, date, propertyType, poiJoin, picks, i);
      ComparableRow(properties, postcodes, latitude, longitude, date, propertyType, poiJoin, e);
      WidenedNear(box, PoiRadiusKm / KmPerDegree, e.row.latitude, e.row.longitude);
    }
  }

  /**
   * A successful get_dataset had its query date and every comparable's
   * transfer date inside pandas' Timestamp range.
   */
  lemma DatasetDatesInRange(properties: seq<PropertyRecord>, postcodes: seq<PostcodeRecord>,
                            latitude: real, longitude: real, date: string, propertyType: string,
                            poiJoin: PoiJoin, picks: seq<nat>)
    ensures DatasetOf(properties, postcodes, latitude, longitude, date, propertyType, poiJoin, picks).Ok? ==>
      && Parse(date).Ok? && InTimestampRange(Parse(date).value)
      && var rows := ComparablesOf(properties, postcodes, latitude, longitude, date, propertyType, poiJoin).value;
         forall k :: 0 <= k < |rows| ==> InTimestampRange(rows[k].row.dateOfTransfer)
  {
  }

  /** A query date in 1600 passes the window but never yields a dataset. */
  lemma EarlyQueryDateFails(properties: seq<PropertyRecord>, postcodes: seq<PostcodeRecord>,
                            latitude: real, longitude: real, propertyType: string,
                            poiJoin: PoiJoin, picks: seq<nat>)
    ensures DatasetOf(properties, postcodes, latitude, longitude, "1600-06-15", propertyType, poiJoin, picks).Err?
  {
    var q := Date(1600, 6, 15);
    assert Format(q) == "1600-06-15";
    ParseFormat(q);
    DaysBeforeYearStep(1600);
    DaysBeforeYearMonotone(1601, 1677);
    assert !InTimestampRange(q);
  }

  /**
   * The bounding box counts as unset exactly when one of its bounds is
   * exactly 0, which for the query box means the query point lies 0.05
   * degrees from the equator or the prime meridian.
   */
  lemma UnsetBoxExactly(properties: seq<PropertyRecord>, postcodes: seq<PostcodeRecord>,
                        latitude: real, longitude: real, date: string, propertyType: string,
                        poiJoin: PoiJoin, picks: seq<nat>)
    ensures DatasetOf(properties, postcodes, latitude, longitude, date, propertyType, poiJoin, picks) == Err(BoundingBoxNotSet)
      <==> latitude == 0.05 || latitude == -0.05 || longitude == 0.05 || longitude == -0.05
  {
    var box := Centered(latitude, longitude, QueryBoxSize, QueryBoxSize);
    if NonZero(box) && Parse(date).Ok? {
      WindowBounds(date);
    }
  }

  // ---------------------------------------------------------------------
  // The scratch table and the frames

  /** The shared scratch table of comparables. */
  class ScratchTable {
    var rows: seq<Comparable>

    constructor (rows: seq<Comparable>)
      ensures this.rows == rows
    {
      this.rows := rows;
    }

    /** TRUNCATE TABLE */
    method Truncate()
      modifies this
      ensures rows == []
    {
      rows := [];
    }

    /** INSERT INTO ... SELECT: appends the selected rows. */
    method Insert(selected: seq<Comparable>)
      modifies this
      ensures rows == old(rows) + selected
    {
      rows := rows + selected;
    }
  }

  /** A pandas frame of comparables: row labels, rows, and the poi_count column once it is added. */
  class Frame {
    var index: seq<nat>
    var rows: seq<Comparable>
    var poiCount: Option<seq<nat>>

    ghost predicate Valid()
      reads this
    {
      |index| == |rows| && (poiCount.Some? ==> |poiCount.value| == |rows|)
    }

    /** to_df: the table's rows, labelled 0, 1, 2, ... */
    constructor FromTable(table: seq<Comparable>)
      ensures Valid() && index == Dedup.Range(|table|) && rows == table && poiCount == None
    {
      index := Dedup.Range(|table|);
      rows := table;
      poiCount := None;
    }

    /**
     * drop_duplicates on every column except db_id, in place: the first row
     * of each key survives with its label, later ones are dropped.
     */
    method DropDuplicates()
      requires Valid() && poiCount == None
      modifies this
      ensures Valid() && poiCount == None
      ensures var ps := Dedup.FirstPositions(Keys(old(rows)));
        rows == Dedup.Select(old(rows), ps) && index == Dedup.Select(old(index), ps)
    {
      var rs, ix := rows, index;
      ghost var keys := Keys(rs);
      ghost var kept: seq<nat> := [];
      var seen: set<ComparableKey> := {};
      var keptRows: seq<Comparable> := [];
      var keptIndex: seq<nat> := [];
      var i := 0;
      while i < |rs|
        invariant 0 <= i <= |rs| && unchanged(this)
        invariant kept == Dedup.FirstPositions(keys[..i])
        invariant forall k :: k in seen <==> k in keys[..i]
        invariant keptRows == Dedup.Select(rs, kept) && keptIndex == Dedup.Select(ix, kept)
      {
        Dedup.FirstPositionsStep(keys, i);
        assert Key(rs[i]) in seen <==> keys[i] in keys[..i];
        if Key(rs[i]) !in seen {
          Dedup.SelectAppend(rs, kept, i);
          Dedup.SelectAppend(ix, kept, i);
          kept := kept + [i];
          keptRows := keptRows + [rs[i]];
          keptIndex := keptIndex + [ix[i]];
          seen := seen + {Key(rs[i])};
        }
        i := i + 1;
      }
      assert keys[..i] == keys;
      rows, index := keptRows, keptIndex;
    }

    /** df["poi_count"] = column */
    method SetPoiCount(column: seq<nat>)
      requires Valid() && |column| == |rows|
      modifies this
      ensures Valid() && poiCount == Some(column) && rows == old(rows) && index == old(index)
    {
      poiCount := Some(column);
    }
  }

  // ---------------------------------------------------------------------
  // The pipeline

  class DataPipeline {
    const properties: seq<PropertyRecord>
    const postcodes: seq<PostcodeRecord>
    const pricesCoordinates: ScratchTable
    var north: Option<real>
    var south: Option<real>
    var west: Option<real>
    var east: Option<real>
    const poiRadius: real := PoiRadiusKm

    /** A new pipeline has no bounding box. */
    constructor (properties: seq<PropertyRecord>, postcodes: seq<PostcodeRecord>, pricesCoordinates: ScratchTable)
      ensures this.properties == properties && this.postcodes == postcodes
      ensures this.pricesCoordinates == pricesCoordinates
      ensures north == None && south == None && west == None && east == None
      ensures !BoundingBoxExists()
    {
      this.properties := properties;
      this.postcodes := postcodes;
      this.pricesCoordinates := pricesCoordinates;
      north, south, west, east := None, None, None, None;
    }

    /** all([north, south, west, east]): every bound present and none exactly 0. */
    predicate BoundingBoxExists()
      reads this
    {
      IsSet(north) && IsSet(south) && IsSet(west) && IsSet(east)
    }

    function BoundingBox(): (b: Box)
      reads this
      requires BoundingBoxExists()
      ensures NonZero(b)
    {
      Box(north.value, south.value, west.value, east.value)
    }

    /** Stores the box of the given height and width centred on the point. */
    method SetBoundingBox(latitude: real, longitude: real, boxHeight: real, boxWidth: real)
      modifies this
      ensures var b := Centered(latitude, longitude, boxHeight, boxWidth);
        north == Some(b.north) && south == Some(b.south) && west == Some(b.west) && east == Some(b.east)
      ensures BoundingBoxExists() <==> NonZero(Centered(latitude, longitude, boxHeight, boxWidth))
      ensures BoundingBoxExists() ==> BoundingBox() == Centered(latitude, longitude, boxHeight, boxWidth)
    {
      north := Some(latitude + boxHeight / 2.0);
      south := Some(latitude - boxHeight / 2.0);
      west := Some(longitude - boxWidth / 2.0);
      east := Some(longitude + boxWidth / 2.0);
    }

    /**
     * Refills the scratch table with the joined rows for the stored box
     * widened by poiRadiusDeg. A missing box, a malformed date or a window
     * outside the calendar is reported before the table is touched.
     */
    method JoinPropertiesAndPostcode(poiRadiusDeg: real, date: string, propertyType: string) returns (r: Option<Error>)
      modifies pricesCoordinates
      ensures !BoundingBoxExists() ==> r == Some(BoundingBoxNotSet) && unchanged(pricesCoordinates)
      ensures BoundingBoxExists() ==>
        match JoinQueryFor(BoundingBox(), poiRadiusDeg, date, propertyType)
        case Err(e) => r == Some(e) && unchanged(pricesCoordinates)
        case Ok(q) => r == None && pricesCoordinates.rows == JoinSelect(q, postcodes, properties)
    {
      if !BoundingBoxExists() {
        return Some(BoundingBoxNotSet);
      }
      var area := Widen(BoundingBox(), poiRadiusDeg);
      var window := WindowText(date);
      if window.Err? {
        return Some(window.error);
      }
      WindowBounds(date);
      var (first, last) := window.value;
      var q := JoinQuery(area, Parse(first).value, Parse(last).value, propertyType);
      pricesCoordinates.Truncate();
      pricesCoordinates.Insert(JoinSelect(q, postcodes, properties));
      return None;
    }

    /** The joined comparables as a frame, de-duplicated in place. */
    method GetPricesCoordinatesDf(date: string, propertyType: string) returns (r: Result<Frame>)
      modifies pricesCoordinates
      ensures !BoundingBoxExists() ==> r == Err(BoundingBoxNotSet) && unchanged(pricesCoordinates)
      ensures BoundingBoxExists() ==>
        match JoinQueryFor(BoundingBox(), poiRadius / KmPerDegree, date, propertyType)
        case Err(e) => r == Err(e) && unchanged(pricesCoordinates)
        case Ok(q) =>
          var table := JoinSelect(q, postcodes, properties);
          && pricesCoordinates.rows == table
          && r.Ok? && fresh(r.value) && r.value.Valid() && r.value.poiCount == None
          && r.value.rows == Deduplicated(table) && r.value.index == SurvivorLabels(table)
    {
      var poiRadiusDeg := poiRadius / KmPerDegree;
      var e := JoinPropertiesAndPostcode(poiRadiusDeg, date, propertyType);
      if e.Some? {
        return Err(e.value);
      }
      var df := new Frame.FromTable(pricesCoordinates.rows);
      df.DropDuplicates();
      ghost var ps := Dedup.FirstPositions(Keys(pricesCoordinates.rows));
      assert Dedup.Select(Dedup.Range(|pricesCoordinates.rows|), ps) == ps;
      return Ok(df);
    }

    /** The box handed to the POI provider: the stored box, unwidened. */
    method GetPois() returns (r: Result<Box>)
      ensures r.Ok? <==> BoundingBoxExists()
      ensures r.Ok? ==> r.value == BoundingBox()
      ensures r.Err? ==> r.error == BoundingBoxNotSet
    {
      if !BoundingBoxExists() {
        return Err(BoundingBoxNotSet);
      }
      return Ok(BoundingBox());
    }

    /**
     * The poi_count column for a frame with the given labels and points:
     * each label's number of entries in the spatial join's index.
     */
    method PoiCountsFor(index: seq<nat>, points: seq<Point>, poiJoin: PoiJoin) returns (r: Result<seq<nat>>)
      ensures !BoundingBoxExists() ==> r == Err(BoundingBoxNotSet)
      ensures BoundingBoxExists() ==>
        var joined := poiJoin(index, points, BoundingBox());
        && (r.Err? <==> exists k :: k in joined && k !in index)
        && (r.Err? ==> r.error == LabelNotInIndex)
        && (r.Ok? ==> (|r.value| == |index| &&
              forall i :: 0 <= i < |index| ==> r.value[i] == multiset(joined)[index[i]]))
    {
      var region := GetPois();
      if region.Err? {
        return Err(region.error);
      }
      var joined := poiJoin(index, points, region.value);
      r := PoiCount.PoiCounts(index, joined);
    }

    /**
     * join_df_with_pois: adds the poi_count column to the frame in place. A
     * missing box is reported before the frame changes; on a KeyError the
     * column already holds zeros.
     */
    method JoinDfWithPois(df: Frame, poiJoin: PoiJoin) returns (r: Option<Error>)
      requires df.Valid()
      modifies df
      ensures df.Valid() && df.rows == old(df.rows) && df.index == old(df.index)
      ensures !BoundingBoxExists() ==> r == Some(BoundingBoxNotSet) && df.poiCount == old(df.poiCount)
      ensures BoundingBoxExists() ==>
        var rows, index := old(df.rows), old(df.index);
        match EnrichedRows(index, rows, poiJoin(index, Points(rows), BoundingBox()))
        case Err(e) => r == Some(e) && df.poiCount == Some(seq(|rows|, _ => 0))
        case Ok(enriched) => (r == None && df.poiCount.Some? &&
          forall i :: 0 <= i < |rows| ==> enriched[i] == Enriched(rows[i], df.poiCount.value[i]))
    {
      var counts := PoiCountsFor(df.index, Points(df.rows), poiJoin);
      if counts.Err? && counts.error == BoundingBoxNotSet {
        return Some(BoundingBoxNotSet);
      }
      df.SetPoiCount(seq(|df.rows|, _ => 0));
      if counts.Err? {
        return Some(counts.error);
      }
      df.SetPoiCount(counts.value);
      return None;
    }

    /**
     * get_dataset: sets a 0.1 x 0.1 degree box around the query point,
     * assembles, de-duplicates and enriches the comparables, shuffles them
     * with the random draws picks, and builds features and prices.
     */
    method GetDataset(latitude: real, longitude: real, date: string, propertyType: string,
                      poiJoin: PoiJoin, picks: seq<nat>) returns (r: Result<Dataset>)
      modifies this, pricesCoordinates
      ensures r == DatasetOf(properties, postcodes, latitude, longitude, date, propertyType, poiJoin, picks)
      ensures var b := Centered(latitude, longitude, QueryBoxSize, QueryBoxSize);
        && north == Some(b.north) && south == Some(b.south) && west == Some(b.west) && east == Some(b.east)
        && pricesCoordinates.rows == TableAfter(properties, postcodes, b, date, propertyType, old(pricesCoordinates.rows))
    {
      SetBoundingBox(latitude, longitude, QueryBoxSize, QueryBoxSize);
      var frame := GetPricesCoordinatesDf(date, propertyType);
      if frame.Err? {
        return Err(frame.error);
      }
      var df := frame.value;
      ghost var box := BoundingBox();
      ghost var table := JoinSelect(JoinQueryFor(box, poiRadius / KmPerDegree, date, propertyType).value, postcodes, properties);
      assert df.rows == Deduplicated(table) && df.index == SurvivorLabels(table);
      ghost var outcome := EnrichedRows(df.index, df.rows, poiJoin(df.index, Points(df.rows), box));
      assert outcome == ComparablesOf(properties, postcodes, latitude, longitude, date, propertyType, poiJoin);
      var e := JoinDfWithPois(df, poiJoin);
      if e.Some? {
        assert outcome.Err?;
        return Err(e.value);
      }
      assert outcome.Ok?;
      var rows, counts := df.rows, df.poiCount.value;
      var enriched := seq(|rows|, i requires 0 <= i < |rows| => Enriched(rows[i], counts[i]));
      assert enriched == outcome.value;
      var query := Parse(date).value;
      var converted := ConvertDates(enriched, query);
      if !converted {
        return Err(TimestampOutOfRange);
      }
      return Ok(Build(Shuffle(enriched, picks), latitude, longitude, query));
    }
  }
}
