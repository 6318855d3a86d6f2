/**
 * The data model of the price comparison engine: one row of the products
 * table, the status and message columns the classifier adds to it, and the
 * relation between a row's prices and those two columns.
 *
 * Prices are exact reals. The stored columns are floating point; the model
 * leaves their rounding out so that comparisons and differences are exact.
 */
module PriceRecords {

  /** A calendar date, as kept in the `last_updated` column. The engine only copies it. */
  datatype Date = Date(year: int, month: int, day: int)

  /**
   * One product's paired price observation: a row of the products table.
   * The table's `id` key column is not modelled; the engine copies it
   * untouched, like every other column it does not read.
   */
  datatype PriceRecord = PriceRecord(
    productId: string,
    productName: string,
    ourPrice: real,
    competitorName: string,
    competitorPrice: real,
    lastUpdated: Date)

  /** The ingestion rule every stored row satisfies: neither price is negative. */
  predicate NonNegativePrices(r: PriceRecord) {
    0.0 <= r.ourPrice && 0.0 <= r.competitorPrice
  }

  /**
   * The `status` column. `Alert`, `Good` and `Neutral` are the labels
   * 'alert', 'good' and 'neutral'. A table handed to the aggregator by
   * another caller may carry any other label in that column; such a label
   * is kept as `Unrecognised`.
   */
  datatype Status = Alert | Good | Neutral | Unrecognised(text: string)

  /** A percentage, or `Undefined` when the amount it is a share of is zero. */
  datatype Percentage = Defined(value: real) | Undefined

  /**
   * The `message` column, kept as the values the text is rendered from:
   * "Price Drop Alert ($diff / percent% cheaper)",
   * "We are cheaper ($diff / percent% cheaper)" and "Prices are identical".
   */
  datatype Message =
    | PriceDropAlert(diff: real, percent: Percentage)
    | WeAreCheaper(diff: real, percent: Percentage)
    | PricesIdentical

  /** A row of the table after classification: the input row plus `status` and `message`. */
  datatype ClassifiedRecord = ClassifiedRecord(record: PriceRecord, status: Status, message: Message)

  /** The input columns of a classified table, with `status` and `message` dropped. */
  function Records(t: seq<ClassifiedRecord>): seq<PriceRecord> {
    seq(|t|, i requires 0 <= i < |t| => t[i].record)
  }

  /** How far apart the two prices are. */
  function Gap(r: PriceRecord): real {
    if r.ourPrice < r.competitorPrice then r.competitorPrice - r.ourPrice
    else r.ourPrice - r.competitorPrice
  }

  /** The higher of the two prices. */
  function Dearer(r: PriceRecord): real {
    if r.ourPrice < r.competitorPrice then r.competitorPrice else r.ourPrice
  }

  /** `p` is `d` expressed as a percentage of `whole`. */
  predicate IsShare(p: Percentage, d: real, whole: real) {
    && (p.Defined? <==> whole != 0.0)
    && (p.Defined? ==> p.value * whole == 100.0 * d)
  }

  /**
   * What classification promises about a row: the status names the cheaper
   * side, and the message reports the gap between the prices together with
   * that gap as a percentage of the higher price.
   */
  predicate Classified(c: ClassifiedRecord) {
    var r := c.record;
    match c.status
    case Alert =>
      && r.competitorPrice < r.ourPrice
      && c.message.PriceDropAlert?
      && c.message.diff == Gap(r)
      && IsShare(c.message.percent, Gap(r), Dearer(r))
    case Good =>
      && r.ourPrice < r.competitorPrice
      && c.message.WeAreCheaper?
      && c.message.diff == Gap(r)
      && IsShare(c.message.percent, Gap(r), Dearer(r))
    case Neutral =>
      && r.ourPrice == r.competitorPrice
      && c.message == PricesIdentical
    case Unrecognised(_) => false
  }
}
