/** The rows of the three store tables the core reads and writes. */
module Records {
  import opened Dates

  /** A row of the price-paid table, limited to the columns the join selects. */
  datatype PropertyRecord = PropertyRecord(
    price: nat,
    dateOfTransfer: CalendarDate,
    postcode: string,
    propertyType: string,
    newBuildFlag: string,
    tenureType: string,
    locality: string,
    townCity: string,
    district: string,
    county: string,
    dbId: nat)

  /** A row of the postcode table, limited to the columns the join selects or filters on. */
  datatype PostcodeRecord = PostcodeRecord(
    postcode: string,
    country: string,
    latitude: real,
    longitude: real)

  /** A row of the scratch table of comparable sales, in its column order. */
  datatype Comparable = Comparable(
    price: nat,
    dateOfTransfer: CalendarDate,
    postcode: string,
    propertyType: string,
    newBuildFlag: string,
    tenureType: string,
    locality: string,
    townCity: string,
    district: string,
    county: string,
    country: string,
    latitude: real,
    longitude: real,
    dbId: nat)

  /** Every column of a comparable except the opaque db_id: the identity used by de-duplication. */
  datatype ComparableKey = ComparableKey(
    price: nat,
    dateOfTransfer: CalendarDate,
    postcode: string,
    propertyType: string,
    newBuildFlag: string,
    tenureType: string,
    locality: string,
    townCity: string,
    district: string,
    county: string,
    country: string,
    latitude: real,
    longitude: real)

  function Key(c: Comparable): ComparableKey
  {
    ComparableKey(c.price, c.dateOfTransfer, c.postcode, c.propertyType, c.newBuildFlag, c.tenureType,
                  c.locality, c.townCity, c.district, c.county, c.country, c.latitude, c.longitude)
  }

  /** Two comparables have the same key exactly when they differ at most in db_id. */
  lemma KeyIgnoresOnlyId(c: Comparable, d: Comparable)
    ensures Key(c) == Key(d) <==> c.(dbId := d.dbId) == d
  {
  }

  function Keys(cs: seq<Comparable>): (ks: seq<ComparableKey>)
    ensures |ks| == |cs| && forall i :: 0 <= i < |cs| ==> ks[i] == Key(cs[i])
  {
    seq(|cs|, i requires 0 <= i < |cs| => Key(cs[i]))
  }

  /**
   * The SELECT list of the join: the sale's columns from the price-paid row,
   * country and coordinates from the postcode row, and the price-paid db_id.
   */
  function Combine(po: PostcodeRecord, pp: PropertyRecord): (c: Comparable)
    ensures c.latitude == po.latitude && c.longitude == po.longitude && c.country == po.country
    ensures c.price == pp.price && c.dateOfTransfer == pp.dateOfTransfer && c.propertyType == pp.propertyType
    ensures c.postcode == pp.postcode && c.dbId == pp.dbId
  {
    Comparable(pp.price, pp.dateOfTransfer, pp.postcode, pp.propertyType, pp.newBuildFlag, pp.tenureType,
               pp.locality, pp.townCity, pp.district, pp.county, po.country, po.latitude, po.longitude, pp.dbId)
  }
}
