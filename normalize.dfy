/** The series normaliser: the `map`/`sort` chains that turn the API's raw
    records into the sorted day series, the source quotes and the recent
    sales the charts draw. Shared by the dashboard and the charts page, which
    run the same history chain. */
module Normalize {
  import opened Common
  import opened Records
  import opened Sorting

  /** `createdat.split('T')[0]`: the text before the first 'T', or all of it
      when there is none. */
  function DateOf(createdat: string): (date: string)
    ensures date <= createdat
    ensures 'T' !in date
    ensures |date| < |createdat| ==> createdat[|date|] == 'T'
  {
    if |createdat| == 0 || createdat[0] == 'T' then ""
    else [createdat[0]] + DateOf(createdat[1..])
  }

  /** A timestamp `day + "T" + time` gives back its day, whatever the time
      part holds, as long as the day itself has no 'T'. */
  lemma {:induction false} DateOfTimestamp(day: string, time: string)
    requires 'T' !in day
    ensures DateOf(day + "T" + time) == day
  {
    if |day| > 0 {
      assert day[0] in day;
      assert (day + "T" + time)[1..] == day[1..] + "T" + time;
      assert forall c :: c in day[1..] ==> c in day;
      DateOfTimestamp(day[1..], time);
      assert day == [day[0]] + day[1..];
    }
  }

  /** A sanity check on one concrete timestamp: an ISO 8601 timestamp of
      the API gives its calendar day. */
  lemma DateOfExample()
    ensures DateOf("2024-01-03T00:00:00Z") == "2024-01-03"
  {
    assert "2024-01-03T00:00:00Z" == "2024-01-03" + "T" + "00:00:00Z";
    DateOfTimestamp("2024-01-03", "00:00:00Z");
  }

  /** `item => ({price: item.price, date: item.createdat.split('T')[0]})` */
  function ToPricePoint(item: RawHistory): Dated {
    PricePoint(item.price, DateOf(item.createdat))
  }

  /** `historicalData.map(...)`: one day point per record, in API order. */
  function ToPricePoints(raw: seq<RawHistory>): (r: seq<Dated>)
    ensures |r| == |raw|
    ensures forall i :: 0 <= i < |raw| ==> r[i] == ToPricePoint(raw[i])
  {
    if |raw| == 0 then [] else [ToPricePoint(raw[0])] + ToPricePoints(raw[1..])
  }

  /** The price column of the raw records. */
  function RawPrices(raw: seq<RawHistory>): (r: seq<real>)
    ensures |r| == |raw|
    ensures forall i :: 0 <= i < |raw| ==> r[i] == raw[i].price
  {
    if |raw| == 0 then [] else [raw[0].price] + RawPrices(raw[1..])
  }

  /** The history chain: every record mapped to a day point, then the points
      stably sorted by date, earliest first. */
  function NormalizeHistory(raw: seq<RawHistory>): (r: seq<Dated>)
    ensures |r| == |raw|
    ensures SortedByDay(r)
  {
    SortByDaySorted(ToPricePoints(raw));
    SortByDay(ToPricePoints(raw))
  }

  /** The normalised series is a rearrangement of the mapped records: every
      point occurs as often as in the API's order, and each one is the price
      and the day of some raw record. */
  lemma NormalizeHistoryPermutes(raw: seq<RawHistory>)
    ensures multiset(NormalizeHistory(raw)) == multiset(ToPricePoints(raw))
    ensures forall p :: p in NormalizeHistory(raw) ==>
      exists i :: 0 <= i < |raw| && p == PricePoint(raw[i].price, DateOf(raw[i].createdat))
  {
    SortByDayPermutes(ToPricePoints(raw));
    var r := NormalizeHistory(raw);
    forall p | p in r
      ensures exists i :: 0 <= i < |raw| && p == PricePoint(raw[i].price, DateOf(raw[i].createdat))
    {
      PricePointsMember(raw, p);
    }
  }

  lemma PricePointsMember(raw: seq<RawHistory>, p: Dated)
    requires p in multiset(ToPricePoints(raw))
    ensures exists i :: 0 <= i < |raw| && p == PricePoint(raw[i].price, DateOf(raw[i].createdat))
  {
    var mapped := ToPricePoints(raw);
    var i :| 0 <= i < |mapped| && mapped[i] == p;
    assert p == ToPricePoint(raw[i]);
  }

  /** The normalised series carries exactly the prices of the raw records,
      each as often as it occurs there. */
  lemma NormalizeHistoryPrices(raw: seq<RawHistory>)
    ensures multiset(Prices(NormalizeHistory(raw))) == multiset(RawPrices(raw))
  {
    var mapped := ToPricePoints(raw);
    PricesSortPermutation(mapped);
    assert Prices(mapped) == RawPrices(raw) by {
      PricesOfPricePoints(raw);
    }
  }

  lemma {:induction false} PricesOfPricePoints(raw: seq<RawHistory>)
    ensures Prices(ToPricePoints(raw)) == RawPrices(raw)
  {
    if |raw| > 0 {
      PricesOfPricePoints(raw[1..]);
      PricesCons(ToPricePoint(raw[0]), ToPricePoints(raw[1..]));
    }
  }

  /** Re-sorting the normalised series with the same stable sort changes
      nothing. */
  lemma NormalizeHistoryIdempotent(raw: seq<RawHistory>)
    ensures SortByDay(NormalizeHistory(raw)) == NormalizeHistory(raw)
  {
    SortByDayOfSorted(NormalizeHistory(raw));
  }

  /** Points of the same day keep the order the API delivered them in. */
  lemma NormalizeHistoryStable(raw: seq<RawHistory>, day: string)
    ensures OnDay(NormalizeHistory(raw), day) == OnDay(ToPricePoints(raw), day)
  {
    SortByDayStable(ToPricePoints(raw), day);
  }

  /** The dashboard's source quotes `{price2: item.price, source:
      item.source, last10SellInfo: item.latest10steamsales}`: one per API
      entry, in API order. */
  function SourceQuotes(prices: seq<RawQuote>): (r: seq<SourceQuote>)
    ensures |r| == |prices|
    ensures forall i :: 0 <= i < |prices| ==>
      && r[i].price2 == prices[i].price
      && r[i].source == prices[i].source
      && r[i].last10SellInfo == prices[i].latest10steamsales
  {
    if |prices| == 0 then []
    else [SourceQuote(prices[0].price, prices[0].source, prices[0].latest10steamsales)] + SourceQuotes(prices[1..])
  }

  /** The charts page's source quotes `{price2: item.price, source:
      item.source}`: one per API entry, in API order. */
  function ChartQuotes(prices: seq<RawQuote>): (r: seq<ChartQuote>)
    ensures |r| == |prices|
    ensures forall i :: 0 <= i < |prices| ==>
      r[i].price2 == prices[i].price && r[i].source == prices[i].source
  {
    if |prices| == 0 then []
    else [ChartQuote(prices[0].price, prices[0].source)] + ChartQuotes(prices[1..])
  }

  /** `item => ({sellDate: item[0], price3: item[1]})` */
  function ToSaleRecord(pair: SalePair): Dated {
    SaleRecord(pair.date, pair.price)
  }

  /** `latest10steamsales.map(...)`: one sale record per pair, in API order. */
  function ToSaleRecords(raw: seq<SalePair>): (r: seq<Dated>)
    ensures |r| == |raw|
    ensures forall i :: 0 <= i < |raw| ==> r[i] == ToSaleRecord(raw[i])
  {
    if |raw| == 0 then [] else [ToSaleRecord(raw[0])] + ToSaleRecords(raw[1..])
  }

  /** The recent-sales chain: every pair mapped to a sale record, then the
      records stably sorted by sell date, earliest first. The sell date is
      kept exactly as the API sends it (it is not cut at 'T'), so the order
      is the source's only when the API sends plain `YYYY-MM-DD` days. */
  function NormalizeSales(raw: seq<SalePair>): (r: seq<Dated>)
    ensures |r| == |raw|
    ensures SortedByDay(r)
  {
    SortByDaySorted(ToSaleRecords(raw));
    SortByDay(ToSaleRecords(raw))
  }

  /** The normalised sales are a rearrangement of the mapped pairs, and each
      record is one of the pairs the API sent. */
  lemma NormalizeSalesPermutes(raw: seq<SalePair>)
    ensures multiset(NormalizeSales(raw)) == multiset(ToSaleRecords(raw))
    ensures forall s :: s in NormalizeSales(raw) ==> s.SaleRecord? && SalePair(s.sellDate, s.price3) in raw
  {
    SortByDayPermutes(ToSaleRecords(raw));
    var r := NormalizeSales(raw);
    forall s | s in r
      ensures s.SaleRecord? && SalePair(s.sellDate, s.price3) in raw
    {
      SaleRecordsMember(raw, s);
    }
  }

  lemma SaleRecordsMember(raw: seq<SalePair>, s: Dated)
    requires s in multiset(ToSaleRecords(raw))
    ensures s.SaleRecord? && SalePair(s.sellDate, s.price3) in raw
  {
    var mapped := ToSaleRecords(raw);
    var i :| 0 <= i < |mapped| && mapped[i] == s;
    assert s == ToSaleRecord(raw[i]);
    assert raw[i] == SalePair(s.sellDate, s.price3);
  }
}
