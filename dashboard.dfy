/** The dashboard's state and its fetch cycle (`fetchItemData`): reject a
    blank search locally, otherwise request the item's history and snapshot
    and, once both responses are in, publish all five datasets together, or
    report the failure and keep the datasets already in state (while the
    error is set the page renders the error message in their place).
    Loading is cleared after the try block and after the catch block alike.

    The cycle is split at its `await`: BeginFetch runs up to the two
    requests; PublishResponse (the try block) or ReportFailure (the catch
    block) runs when their outcome is known; FetchItemData is the whole
    cycle. The network is a parameter (the
    outcome), and so are today's day numbers and the walk's random factors. */
module Dashboard {
  import opened Common
  import opened Records
  import opened Sorting
  import opened Normalize
  import opened Projection
  import opened DateRange

  const EmptyInputError := "Please enter an item name"
  const FetchError := "Failed to fetch data"

  /** What one fetch cycle asks the API for: the item name and the history
      range (the snapshot request needs only the name). */
  datatype Request = Request(itemName: string, range: Range)

  /** The five datasets the page keeps in state for its charts and cards,
      published together. */
  datatype Datasets = Datasets(itemDetails: Option<Snapshot>, firstData: seq<Dated>,
                               secondData: seq<SourceQuote>, thirdData: seq<Dated>,
                               predictionData: seq<ProjectionPoint>)

  /** The datasets in state before any item has been fetched. */
  const NothingPublished := Datasets(None, [], [], [], [])

  /** The datasets one successful fetch publishes: the snapshot itself, the
      normalised history, the source quotes, the normalised recent sales and
      the projection seeded from the last price of the normalised history. */
  function Publish(history: seq<RawHistory>, snapshot: Snapshot, today: int, factors: seq<real>): (d: Datasets)
    requires |factors| == Days - 1
    ensures d.itemDetails == Some(snapshot)
  {
    var firstData := NormalizeHistory(history);
    Datasets(Some(snapshot), firstData, SourceQuotes(snapshot.prices),
             NormalizeSales(snapshot.latest10steamsales), Projected(LastPrice(Some(firstData)), today, factors))
  }

  /** The success path of `fetchItemData` up to its setter calls: the
      history normalised, the source quotes mapped, the recent sales
      normalised and the projection generated from the normalised history.
      The history chart gets one point per record in date order, the quote
      list one quote per entry of `prices`, the recent-sales chart one record per sale
      in date order, and the projection its 30 days from today starting at
      the last price the history chart shows (0 for an empty history). */
  method ProcessResponse(history: seq<RawHistory>, snapshot: Snapshot, today: int, factors: seq<real>)
    returns (published: Datasets)
    requires |factors| == Days - 1
    ensures published.itemDetails == Some(snapshot)
    ensures |published.firstData| == |history| && SortedByDay(published.firstData)
    ensures |published.secondData| == |snapshot.prices|
    ensures |published.thirdData| == |snapshot.latest10steamsales| && SortedByDay(published.thirdData)
    ensures |published.predictionData| == Days
    ensures forall i :: 0 <= i < Days ==> published.predictionData[i].date == today + i
    ensures published.predictionData[0].price
         == (if |history| > 0 then published.firstData[|history| - 1].Price() else 0.0)
    ensures published == Publish(history, snapshot, today, factors)
  {
    var processedFirstData := NormalizeHistory(history);
    var processedSecondData := SourceQuotes(snapshot.prices);
    var last10SellData := NormalizeSales(snapshot.latest10steamsales);
    var predictions := GeneratePredictions(Some(processedFirstData), today, factors);
    published := Datasets(Some(snapshot), processedFirstData, processedSecondData, last10SellData, predictions);
  }

  class DataDashboard {
    var firstData: seq<Dated>
    var secondData: seq<SourceQuote>
    var thirdData: seq<Dated>
    var predictionData: seq<ProjectionPoint>
    var itemDetails: Option<Snapshot>
    var isLoading: bool
    var error: Option<string>
    var searchInput: string
    var selectedTimePeriod: string

    /** The response and the walk the datasets in state were published
        from, once one has been. */
    ghost var publishedHistory: seq<RawHistory>
    ghost var publishedDay: int
    ghost var publishedFactors: seq<real>

    /** The published datasets held in state, as one value. (They are
        rendered only while neither loading nor an error is set.) */
    function Held(): Datasets
      reads this
    {
      Datasets(itemDetails, firstData, secondData, thirdData, predictionData)
    }

    /** The class invariant: the datasets in state never mix two responses.
        Either nothing has been published, or all five are what one
        response publishes. */
    ghost predicate Valid()
      reads this
    {
      || Held() == NothingPublished
      || (&& itemDetails.Some? && |publishedFactors| == Days - 1
          && Held() == Publish(publishedHistory, itemDetails.value, publishedDay, publishedFactors))
    }

    /** The initial state of the component. */
    constructor ()
      ensures Valid()
      ensures firstData == [] && secondData == [] && thirdData == [] && predictionData == []
      ensures itemDetails == None && !isLoading && error == None
      ensures searchInput == "" && selectedTimePeriod == "month"
    {
      firstData, secondData, thirdData, predictionData := [], [], [], [];
      itemDetails := None;
      isLoading, error := false, None;
      searchInput, selectedTimePeriod := "", "month";
      publishedHistory, publishedDay, publishedFactors := [], 0, [];
    }

    /** `handleInputChange`: the search box's new text. */
    method HandleInputChange(value: string)
      requires Valid()
      modifies this`searchInput
      ensures Valid()
      ensures searchInput == value
    {
      searchInput := value;
    }

    /** `handleTimePeriodChange`: the period button pressed. */
    method HandleTimePeriodChange(period: string)
      requires Valid()
      modifies this`selectedTimePeriod
      ensures Valid()
      ensures selectedTimePeriod == period
    {
      selectedTimePeriod := period;
    }

    /** `fetchItemData` up to the `await`: a blank search sets the error and
        stops, issuing nothing; otherwise loading starts, the error is
        cleared and the two requests go out. */
    method BeginFetch(clock: Clock) returns (request: Option<Request>)
      requires Valid()
      modifies this`isLoading, this`error
      ensures Valid()
      ensures IsBlank(searchInput) ==>
        request == None && error == Some(EmptyInputError) && isLoading == old(isLoading)
      ensures !IsBlank(searchInput) ==>
        && request == Some(Request(searchInput, GetDateRange(selectedTimePeriod, clock)))
        && isLoading && error == None
    {
      if IsBlank(searchInput) {
        error := Some(EmptyInputError);
        return None;
      }
      isLoading := true;
      error := None;
      var range := GetDateRange(selectedTimePeriod, clock);
      request := Some(Request(searchInput, range));
    }

    /** `fetchItemData` after the `await`, when both responses are in: every
        dataset is replaced by what the response publishes and loading
        ends; nothing else changes (the error, the search box and the
        period are outside what it may modify). */
    method PublishResponse(history: seq<RawHistory>, snapshot: Snapshot, today: int, factors: seq<real>)
      requires |factors| == Days - 1
      modifies this`firstData, this`secondData, this`thirdData, this`predictionData,
               this`itemDetails, this`isLoading,
               this`publishedHistory, this`publishedDay, this`publishedFactors
      ensures Valid()
      ensures Held() == Publish(history, snapshot, today, factors)
      ensures !isLoading
    {
      var published := ProcessResponse(history, snapshot, today, factors);
      itemDetails, firstData, secondData, thirdData, predictionData, isLoading,
        publishedHistory, publishedDay, publishedFactors :=
        published.itemDetails, published.firstData, published.secondData, published.thirdData,
        published.predictionData, false,
        history, today, factors;
      assert Held() == published;
    }

    /** `fetchItemData`'s catch: the error is set, loading ends and every
        dataset stays as it was. */
    method ReportFailure()
      requires Valid()
      modifies this`error, this`isLoading
      ensures Valid()
      ensures Held() == old(Held())
      ensures error == Some(FetchError) && !isLoading
    {
      error, isLoading := Some(FetchError), false;
    }

    /** The whole of `fetchItemData`: a blank search changes nothing but the
        error; otherwise the fetch goes out for the selected range and its
        outcome is published or reported. */
    method FetchItemData(clock: Clock, outcome: FetchOutcome, today: int, factors: seq<real>)
      returns (request: Option<Request>)
      requires Valid()
      requires |factors| == Days - 1
      modifies this`firstData, this`secondData, this`thirdData, this`predictionData,
               this`itemDetails, this`isLoading, this`error,
               this`publishedHistory, this`publishedDay, this`publishedFactors
      ensures Valid()
      ensures searchInput == old(searchInput) && selectedTimePeriod == old(selectedTimePeriod)
      ensures request.None? <==> IsBlank(searchInput)
      ensures IsBlank(searchInput) ==>
        && Held() == old(Held())
        && error == Some(EmptyInputError) && isLoading == old(isLoading)
      ensures !IsBlank(searchInput) ==>
        && request == Some(Request(searchInput, GetDateRange(selectedTimePeriod, clock)))
        && !isLoading
      ensures !IsBlank(searchInput) && outcome.Fetched? ==>
        Held() == Publish(outcome.history, outcome.snapshot, today, factors) && error == None
      ensures !IsBlank(searchInput) && outcome.FetchFailed? ==>
        Held() == old(Held()) && error == Some(FetchError)
    {
      request := BeginFetch(clock);
      if request.Some? {
        match outcome
        case Fetched(history, snapshot) => PublishResponse(history, snapshot, today, factors);
        case FetchFailed => ReportFailure();
      }
    }
  }
}
