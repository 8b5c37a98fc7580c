/** The records the market-data API returns (after `response.json()`) and the
    shapes the pipeline reshapes them into for the charts. Prices are
    JavaScript numbers, modelled as reals; dates are text. */
module Records {
  import opened Common

  /** One entry of the history endpoint: `{price, createdat}`, where createdat
      is an ISO 8601 timestamp. */
  datatype RawHistory = RawHistory(price: real, createdat: string)

  /** One `[date, price]` pair of the snapshot's latest10steamsales. */
  datatype SalePair = SalePair(date: string, price: real)

  /** A dated price as the charts draw it: a normalised history point
      `{price, date}`, date being a calendar day, or a normalised recent sale
      `{sellDate, price3}`. Both series are sorted by their day. */
  datatype Dated =
    | PricePoint(price: real, date: string)
    | SaleRecord(sellDate: string, price3: real)
  {
    /** The day the entry is sorted by. */
    function Day(): string {
      match this
      case PricePoint(_, date) => date
      case SaleRecord(sellDate, _) => sellDate
    }

    /** The price the entry charts. */
    function Price(): real {
      match this
      case PricePoint(price, _) => price
      case SaleRecord(_, price3) => price3
    }
  }

  /** One entry of the snapshot's `prices`: `{price, source}`; the dashboard
      also reads a `latest10steamsales` field from it, which may be absent. */
  datatype RawQuote = RawQuote(price: real, source: string, latest10steamsales: Option<seq<SalePair>>)

  /** The dashboard's source quote: `{price2, source, last10SellInfo}`. */
  datatype SourceQuote = SourceQuote(price2: real, source: string, last10SellInfo: Option<seq<SalePair>>)

  /** The charts page's source quote: `{price2, source}`. */
  datatype ChartQuote = ChartQuote(price2: real, source: string)

  /** One entry of the snapshot's `descriptions`: its `type`, its `value`
      (possibly absent) and its `color` (possibly absent). */
  datatype Description = Description(kind: string, value: Option<string>, color: Option<string>)

  /** The snapshot endpoint's record, reduced to the fields the pipeline reads.
      `descriptions` is None when the field is missing or is not an array. */
  datatype Snapshot = Snapshot(
    prices: seq<RawQuote>,
    latest10steamsales: seq<SalePair>,
    descriptions: Option<seq<Description>>)

  /** A projected point: a day number and a price. */
  datatype ProjectionPoint = ProjectionPoint(date: int, price: real)

  /** What the two parallel requests of a fetch cycle deliver: both parsed
      responses, or a failure (a rejected fetch, a body that is not JSON, or
      a body whose shape makes the processing chain throw). */
  datatype FetchOutcome =
    | Fetched(history: seq<RawHistory>, snapshot: Snapshot)
    | FetchFailed
}
