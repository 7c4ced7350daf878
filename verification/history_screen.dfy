/** The state of src/screens/HistoryScreen.js: the fetched history kept
    newest first, the window of the selected range, and the error, loading
    and refreshing flags that `fetchAllData` updates. */
module History {
  import opened Values
  import opened Readings
  import opened RangeFilter
  import opened ChartSampler
  import opened Stats

  /** What `await response.json()` yields for `/api/history`, or the
      exception thrown while fetching or parsing it. */
  datatype HistoryPayload = FetchFailed | NotArray | Items(items: seq<Reading>)

  /** The first n cells of `a` are most recent first. */
  ghost predicate SortedPrefix(a: array<Reading>, n: int)
    reads a
    requires 0 <= n <= a.Length
  {
    forall k, l :: 0 <= k < l < n ==> NewerOrSame(a[k].timestamp, a[l].timestamp)
  }

  /** Exchanges the cells j - 1 and j. */
  method SwapDown(a: array<Reading>, j: int)
    requires 0 < j < a.Length
    modifies a
    ensures a[j - 1] == old(a[j]) && a[j] == old(a[j - 1])
    ensures forall k :: 0 <= k < a.Length && k != j - 1 && k != j ==> a[k] == old(a[k])
    ensures multiset(a[..]) == old(multiset(a[..]))
  {
    a[j - 1], a[j] := a[j], a[j - 1];
  }

  /** Moves a[i] down past every older reading before it. */
  method InsertNewest(a: array<Reading>, i: int)
    requires 0 <= i < a.Length && SortedPrefix(a, i)
    modifies a
    ensures SortedPrefix(a, i + 1)
    ensures forall k :: i < k < a.Length ==> a[k] == old(a[k])
    ensures multiset(a[..]) == old(multiset(a[..]))
  {
    var j := i;
    while j > 0 && !NewerOrSame(a[j - 1].timestamp, a[j].timestamp)
      invariant 0 <= j <= i
      invariant multiset(a[..]) == old(multiset(a[..]))
      invariant forall k :: i < k < a.Length ==> a[k] == old(a[k])
      invariant forall k, l :: 0 <= k < l <= i && k != j && l != j ==>
        NewerOrSame(a[k].timestamp, a[l].timestamp)
      invariant forall l :: j < l <= i ==> NewerOrSame(a[j].timestamp, a[l].timestamp)
    {
      SwapDown(a, j);
      j := j - 1;
    }
  }

  /** Sorts the fetched history in place so that the latest date comes
      first, the comparator subtracting the first date from the second. */
  method SortNewestFirst(a: array<Reading>)
    modifies a
    ensures NewestFirst(a[..])
    ensures multiset(a[..]) == old(multiset(a[..]))
  {
    var i := 0;
    while i < a.Length
      invariant 0 <= i <= a.Length
      invariant SortedPrefix(a, i)
      invariant multiset(a[..]) == old(multiset(a[..]))
    {
      InsertNewest(a, i);
      i := i + 1;
    }
  }

  /** The fetched array sorted newest first: the items are put in an array
      and sorted there. */
  method SortedCopy(items: seq<Reading>) returns (sorted: seq<Reading>)
    ensures NewestFirst(sorted)
    ensures multiset(sorted) == multiset(items)
  {
    var data := new Reading[|items|](i requires 0 <= i < |items| => items[i]);
    assert data[..] == items;
    SortNewestFirst(data);
    sorted := data[..];
  }

  /** What the screen shows below the range buttons. */
  datatype Display =
    | Spinner
    | ErrorText(message: string)
    | Content(chart: Option<ChartSeries>, stats: Summary)

  class HistoryScreen {
    const sensor: string
    const config: SensorConfig
    var loading: bool
    var refreshing: bool
    var error: Option<string>
    var allData: seq<Reading>
    var filteredData: seq<Reading>
    var selectedRange: TimeRange

    /** The screen as it mounts for `route.params.sensor`. */
    constructor (sensor: string)
      ensures this.sensor == sensor && config == ConfigFor(sensor)
      ensures loading && !refreshing && error == None
      ensures allData == [] && filteredData == [] && selectedRange == DefaultRange
    {
      this.sensor := sensor;
      config := ConfigFor(sensor);
      loading, refreshing, error := true, false, None;
      allData, filteredData := [], [];
      selectedRange := DefaultRange;
    }

    /** `fetchAllData` as closed over in a render whose `selectedRange` was
        `range`; `now` is the instant `filterDataByRange` reads the clock. */
    method FetchAllData(payload: HistoryPayload, range: TimeRange, now: int)
      modifies this
      ensures !loading && !refreshing && selectedRange == old(selectedRange)
      ensures payload.FetchFailed? ==> error == Some("Failed to load history")
      ensures payload.NotArray? ==> error == Some("Invalid data format")
      ensures !payload.Items? ==> allData == old(allData) && filteredData == old(filteredData)
      ensures payload.Items? ==>
        && error == None
        && NewestFirst(allData)
        && multiset(allData) == multiset(payload.items)
        && filteredData == FilterByRange(allData, range.hours, now)
    {
      error := None;
      if payload.Items? {
        var sorted := SortedCopy(payload.items);
        allData, filteredData := sorted, FilterByRange(sorted, range.hours, now);
      } else if payload.NotArray? {
        error := Some("Invalid data format");
      } else {
        error := Some("Failed to load history");
      }
      loading, refreshing := false, false;
    }

    /** The fetch run by the effect on `[sensor]` when the screen opens. The
        effect is the first render's, so it filters with the default range. */
    method Mount(payload: HistoryPayload, now: int)
      modifies this
      ensures !loading && !refreshing && selectedRange == old(selectedRange)
      ensures payload.FetchFailed? ==> error == Some("Failed to load history")
      ensures payload.NotArray? ==> error == Some("Invalid data format")
      ensures !payload.Items? ==> allData == old(allData) && filteredData == old(filteredData)
      ensures payload.Items? ==>
        && error == None
        && NewestFirst(allData)
        && multiset(allData) == multiset(payload.items)
        && filteredData == FilterByRange(allData, DefaultRange.hours, now)
    {
      FetchAllData(payload, DefaultRange, now);
    }

    /** A tap on a range button: `setSelectedRange(range)`, then the effect
        on `[selectedRange]` refilters when there is history to filter. The
        ranges are fixed objects, so tapping the range already selected sets
        the same object, React skips the update and the effect does not run. */
    method SelectRange(range: TimeRange, now: int)
      modifies this
      ensures selectedRange == range
      ensures allData == old(allData) && error == old(error)
      ensures loading == old(loading) && refreshing == old(refreshing)
      ensures filteredData == if old(allData) == [] || range == old(selectedRange) then old(filteredData)
                              else FilterByRange(allData, range.hours, now)
    {
      if range != selectedRange {
        selectedRange := range;
        if |allData| > 0 {
          filteredData := FilterByRange(allData, range.hours, now);
        }
      }
    }

    /** Pull-to-refresh as written: `useCallback(..., [])` keeps the first
        render's `fetchAllData`, whose `selectedRange` is the default range. */
    method OnRefreshAsWritten(payload: HistoryPayload, now: int)
      modifies this
      ensures !loading && !refreshing && selectedRange == old(selectedRange)
      ensures payload.FetchFailed? ==> error == Some("Failed to load history")
      ensures payload.NotArray? ==> error == Some("Invalid data format")
      ensures !payload.Items? ==> allData == old(allData) && filteredData == old(filteredData)
      ensures payload.Items? ==>
        && error == None
        && NewestFirst(allData)
        && multiset(allData) == multiset(payload.items)
        && filteredData == FilterByRange(allData, DefaultRange.hours, now)
    {
      refreshing := true;
      FetchAllData(payload, DefaultRange, now);
    }

    /** Pull-to-refresh filtering with the range the user has selected. */
    method OnRefresh(payload: HistoryPayload, now: int)
      modifies this
      ensures !loading && !refreshing && selectedRange == old(selectedRange)
      ensures payload.FetchFailed? ==> error == Some("Failed to load history")
      ensures payload.NotArray? ==> error == Some("Invalid data format")
      ensures !payload.Items? ==> allData == old(allData) && filteredData == old(filteredData)
      ensures payload.Items? ==>
        && error == None
        && NewestFirst(allData)
        && multiset(allData) == multiset(payload.items)
        && filteredData == FilterByRange(allData, selectedRange.hours, now)
    {
      refreshing := true;
      FetchAllData(payload, selectedRange, now);
    }

    /** The body of the screen: spinner while loading, the error instead of
        any chart or summary, otherwise chart and summary of the window. */
    function View(): (d: Display)
      reads this
      ensures loading <==> d.Spinner?
      ensures d.ErrorText? <==> !loading && error.Some?
      ensures d.ErrorText? ==> error.Some? && d.message == error.value
      ensures d.Content? ==>
        && d.chart == PrepareChartData(filteredData, config.field, selectedRange.hours)
        && d.stats == WindowStats(filteredData, config.field)
    {
      if loading then Spinner
      else if error.Some? then ErrorText(error.value)
      else Content(PrepareChartData(filteredData, config.field, selectedRange.hours),
                   WindowStats(filteredData, config.field))
    }
  }

  /** With the Week range selected, a reading 30 hours old belongs in the
      window, yet the window a pull-to-refresh computes leaves it out. */
  lemma StaleRefreshDropsReading()
    ensures var now := 100 * MsPerHour;
      var r := Reading(Some(70 * MsPerHour), Num(21.0), Null, Null, Null, Null);
      r in FilterByRange([r], Ranges[2].hours, now) && r !in FilterByRange([r], DefaultRange.hours, now)
  {
    var r := Reading(Some(70 * MsPerHour), Num(21.0), Null, Null, Null, Null);
    assert [r][1..] == [];
  }
}
