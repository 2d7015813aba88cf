/**
 * The fixed output schema of parser.py (parser.py:7-17) and the character
 * classes its patterns share.
 */
module Schema {
  import opened PyRe

  /** `DELIVERY_TERMS_CANON`: the three delivery terms of a mass quote, in document order. */
  const DeliveryTermsCanon: seq<string> := ["FOB SH", "DAP KR BY SEA/FERRY", "DAP KR BY AIR"]

  /** `\d` */
  const Digits := Class(false, true, "")
  /** `[A-Za-z]` */
  const Letters := Class(true, false, "")
  /** `[\d,]` */
  const DigitsCommas := Class(false, true, ",")

  /**
   * One output row, a field per output column in the order of `OUT_COLS`
   * (Date, Customer, Planner, Product, Rated Current, Cable Length,
   * Description, Delivery Term, MOQ, Price, L/T, Remark), prices in cents.
   */
  datatype Row = Row(
    date: string, customer: string, planner: string, product: string,
    ratedCurrent: string, cableLength: string, description: string,
    deliveryTerm: string, moq: nat, priceCents: nat, leadTime: string, remark: string)
}
