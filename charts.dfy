/** The charts page's state and its fetch (`fetchAllData`), run once when the
    page mounts: normalise the history, map the source quotes, compute the
    lowest and highest price, and publish them; on failure set the error
    and publish nothing. The network is a parameter (the outcome). */
module ChartsPage {
  import opened Common
  import opened Records
  import opened Sorting
  import opened Normalize
  import opened Stats

  const FetchError := "Failed to fetch data"

  class Charts {
    var firstData: seq<Dated>
    var secondData: seq<ChartQuote>
    var lowestPrice: Option<ExtReal>
    var highestPrice: Option<ExtReal>
    var isLoading: bool
    var error: Option<string>

    /** The statistics in state always describe the series in state:
        either nothing has been published, or both come from the same
        history. */
    ghost predicate Valid()
      reads this
    {
      && (lowestPrice.None? <==> highestPrice.None?)
      && (lowestPrice.None? ==> firstData == [] && secondData == [])
      && (lowestPrice.Some? ==>
            lowestPrice.value == Lowest(Prices(firstData)) && highestPrice.value == Highest(Prices(firstData)))
      && SortedByDay(firstData)
    }

    /** The initial state: loading, nothing published. */
    constructor ()
      ensures Valid()
      ensures firstData == [] && secondData == []
      ensures lowestPrice == None && highestPrice == None
      ensures isLoading && error == None
    {
      firstData, secondData := [], [];
      lowestPrice, highestPrice := None, None;
      isLoading, error := true, None;
    }

    /** The try block of `fetchAllData()` once both responses are in: the
        history normalised, the quotes mapped, the lowest and highest price
        computed, everything published and loading ended; the error is left
        as it was. */
    method ShowResponse(history: seq<RawHistory>, snapshot: Snapshot)
      modifies this`firstData, this`secondData, this`lowestPrice, this`highestPrice, this`isLoading
      ensures Valid()
      ensures firstData == NormalizeHistory(history)
      ensures secondData == ChartQuotes(snapshot.prices)
      ensures lowestPrice == Some(Lowest(Prices(firstData)))
      ensures highestPrice == Some(Highest(Prices(firstData)))
      ensures !isLoading
    {
      var processedFirstData := NormalizeHistory(history);
      var processedSecondData := ChartQuotes(snapshot.prices);
      var minPrice := Lowest(Prices(processedFirstData));
      lowestPrice := Some(minPrice);
      var maxPrice := Highest(Prices(processedFirstData));
      highestPrice := Some(maxPrice);
      firstData := processedFirstData;
      secondData := processedSecondData;
      isLoading := false;
    }

    /** The catch block: the error is set, loading ends and nothing else
        changes. */
    method ReportFailure()
      requires Valid()
      modifies this`error, this`isLoading
      ensures Valid()
      ensures error == Some(FetchError) && !isLoading
    {
      error := Some(FetchError);
      isLoading := false;
    }

    /** `fetchAllData()` with the outcome of its two parallel requests:
        loading starts, then the response is published or the failure reported. */
    method FetchAllData(outcome: FetchOutcome)
      requires Valid()
      modifies this
      ensures Valid()
      ensures !isLoading
      ensures outcome.Fetched? ==>
        && firstData == NormalizeHistory(outcome.history)
        && secondData == ChartQuotes(outcome.snapshot.prices)
        && lowestPrice == Some(Lowest(Prices(firstData)))
        && highestPrice == Some(Highest(Prices(firstData)))
        && error == old(error)
      ensures outcome.FetchFailed? ==>
        && error == Some(FetchError)
        && firstData == old(firstData) && secondData == old(secondData)
        && lowestPrice == old(lowestPrice) && highestPrice == old(highestPrice)
    {
      isLoading := true;
      match outcome
      case Fetched(history, snapshot) => ShowResponse(history, snapshot);
      case FetchFailed => ReportFailure();
    }
  }

  /** A history of two records delivered latest first (the later day
      first) comes out earliest first, and its statistics are the smaller
      and the larger of the two prices. */
  lemma TwoRecordsSwapped(first: RawHistory, second: RawHistory)
    requires !DateLe(DateOf(first.createdat), DateOf(second.createdat))
    ensures NormalizeHistory([first, second]) == [ToPricePoint(second), ToPricePoint(first)]
    ensures Lowest(Prices(NormalizeHistory([first, second])))
         == Finite(if second.price <= first.price then second.price else first.price)
    ensures Highest(Prices(NormalizeHistory([first, second])))
         == Finite(if second.price >= first.price then second.price else first.price)
  {
    var p, q := ToPricePoint(first), ToPricePoint(second);
    assert ToPricePoints([first, second]) == [p, q];
    assert SortByDay([q]) == [q];
    assert Insert(p, [q]) == [q] + Insert(p, []);
    var prices := [second.price, first.price];
    assert Prices([q, p]) == prices;
    assert prices[1..] == [first.price];
  }
}
