/** The selected-day cursor of the forecast screen, the page the screen
    computes for it, and the Previous Day / Next Day buttons that move it. */
module DayNavigation {
  import opened Forecast
  import opened DayGrouping

  datatype Option<+T> = None | Some(value: T)

  /** What the forecast area of the screen holds. `Blank` is nothing at
      all: with no response stored, the day pages are not computed.
      `NoData` is the "No weather data available" text. A `DayPage` carries
      the date looked up with the cursor (`None` where JavaScript would
      read `undefined` from an index past the ends), that day's samples,
      and whether each of the two buttons is enabled. */
  datatype ViewState =
    | Blank
    | NoData
    | DayPage(date: Option<string>, samples: seq<Sample>, canGoPrevious: bool, canGoNext: bool)

  function Distance(a: int, b: int): nat {
    if a <= b then b - a else a - b
  }

  /** The correction the screen applies to a cursor outside the day list:
      below zero it goes to the first day, at or past the end to the last.
      For a non-empty day list the result is a day index, an index already
      in range is kept, and no day index is nearer to the original. */
  function ClampIndex(i: int, n: int): (r: int)
    ensures n >= 1 ==> 0 <= r < n
    ensures 0 <= i < n ==> r == i
    ensures n >= 1 ==> forall k :: 0 <= k < n ==> Distance(r, i) <= Distance(k, i)
  {
    if i < 0 then 0 else if i >= n then n - 1 else i
  }

  /** Clamping twice is clamping once. */
  lemma ClampIdempotent(i: int, n: int)
    requires n >= 1
    ensures ClampIndex(ClampIndex(i, n), n) == ClampIndex(i, n)
  {
  }

  /** The page computed for a stored forecast and a cursor. A response
      without samples gives the no-data text. The date is looked up with
      the cursor as it stands, before any clamping; an index outside the day
      list finds no date, and the filter then keeps no sample, since no date
      key equals `undefined`. The buttons compare the same cursor with the
      first and the last day. */
  function RenderView(list: seq<Sample>, formatDate: int -> string, cursor: int): (v: ViewState)
    ensures v.NoData? <==> list == []
    ensures !v.Blank?
  {
    if list == [] then NoData
    else
      var days := UniqueDates(list, formatDate);
      var date := if 0 <= cursor < |days| then Some(days[cursor]) else None;
      var shown := if date.Some? then SelectedDay(list, formatDate, date.value) else [];
      DayPage(date, shown, cursor != 0, cursor != |days| - 1)
  }

  /** The forecast area for the stored response: the day pages are
      computed only when a response is stored (`weatherData && ...`), so
      without one the area is blank, and a response without samples gives
      the no-data text. */
  function ForecastArea(data: Option<seq<Sample>>, formatDate: int -> string, cursor: int): (v: ViewState)
    ensures v.Blank? <==> data == None
    ensures v.NoData? <==> data == Some([])
  {
    match data
    case None => Blank
    case Some(list) => RenderView(list, formatDate, cursor)
  }

  /** With a cursor on a day, the page shows that day's date and a non-empty
      list of samples all of that day; Previous is offered exactly when this
      is not the first day and Next exactly when it is not the last. */
  lemma RenderInRange(list: seq<Sample>, formatDate: int -> string, cursor: int)
    requires 0 <= cursor < |UniqueDates(list, formatDate)|
    ensures var v, days := RenderView(list, formatDate, cursor), UniqueDates(list, formatDate);
            && v.DayPage?
            && v.date == Some(days[cursor])
            && v.samples == SelectedDay(list, formatDate, days[cursor])
            && v.samples != []
            && (forall x :: x in v.samples ==> formatDate(x.dt) == days[cursor])
            && (v.canGoPrevious <==> cursor > 0)
            && (v.canGoNext <==> cursor < |days| - 1)
  {
    SelectedDayNonEmpty(list, formatDate, cursor);
  }

  /** With data present but a cursor off the day list, the page computed
      in that same pass has no date and no sample. */
  lemma RenderStaleCursor(list: seq<Sample>, formatDate: int -> string, cursor: int)
    requires list != []
    requires !(0 <= cursor < |UniqueDates(list, formatDate)|)
    ensures var v := RenderView(list, formatDate, cursor);
            v.DayPage? && v.date == None && v.samples == []
  {
  }

  /** Whatever the cursor, once it is clamped the next page computed holds
      a real day with at least one sample. */
  lemma RenderAfterClamp(list: seq<Sample>, formatDate: int -> string, cursor: int)
    requires list != []
    ensures var days := UniqueDates(list, formatDate);
            var v := RenderView(list, formatDate, ClampIndex(cursor, |days|));
            v.DayPage? && v.date.Some? && v.date.value in days && v.samples != []
  {
    var days := UniqueDates(list, formatDate);
    RenderInRange(list, formatDate, ClampIndex(cursor, |days|));
  }

  /** The cursor after a press on Previous Day: the button exists only on a
      page with data, is disabled on the first day, and otherwise steps the
      cursor back by one. */
  function PreviousCursor(list: seq<Sample>, formatDate: int -> string, cursor: int): (c: int)
    ensures c == cursor || c == cursor - 1
    ensures c == cursor - 1 <==> list != [] && cursor != 0
  {
    match RenderView(list, formatDate, cursor)
    case NoData => cursor
    case DayPage(_, _, canGoPrevious, _) => if canGoPrevious then cursor - 1 else cursor
  }

  /** The cursor after a press on Next Day: the button exists only on a page
      with data, is disabled on the last day, and otherwise steps the cursor
      forward by one. */
  function NextCursor(list: seq<Sample>, formatDate: int -> string, cursor: int): (c: int)
    ensures c == cursor || c == cursor + 1
    ensures c == cursor + 1 <==> list != [] && cursor != |UniqueDates(list, formatDate)| - 1
  {
    match RenderView(list, formatDate, cursor)
    case NoData => cursor
    case DayPage(_, _, _, canGoNext) => if canGoNext then cursor + 1 else cursor
  }

  /** From a cursor on a day, neither button can take it off the day list. */
  lemma NavigationStaysInRange(list: seq<Sample>, formatDate: int -> string, cursor: int)
    requires 0 <= cursor < |UniqueDates(list, formatDate)|
    ensures 0 <= PreviousCursor(list, formatDate, cursor) < |UniqueDates(list, formatDate)|
    ensures 0 <= NextCursor(list, formatDate, cursor) < |UniqueDates(list, formatDate)|
  {
  }

  /** Next Day then Previous Day returns to the starting day, and so does
      Previous Day then Next Day. */
  lemma NextPreviousRoundTrip(list: seq<Sample>, formatDate: int -> string, cursor: int)
    ensures 0 <= cursor < |UniqueDates(list, formatDate)| - 1 ==>
              NextCursor(list, formatDate, cursor) == cursor + 1 &&
              PreviousCursor(list, formatDate, NextCursor(list, formatDate, cursor)) == cursor
    ensures 0 < cursor < |UniqueDates(list, formatDate)| ==>
              PreviousCursor(list, formatDate, cursor) == cursor - 1 &&
              NextCursor(list, formatDate, PreviousCursor(list, formatDate, cursor)) == cursor
  {
  }

  /** Previous Day does nothing on the first day and Next Day nothing on the
      last; without data neither button is there to press. */
  lemma NavigationBlockedAtEnds(list: seq<Sample>, formatDate: int -> string, cursor: int)
    ensures PreviousCursor(list, formatDate, 0) == 0
    ensures NextCursor(list, formatDate, |UniqueDates(list, formatDate)| - 1)
            == |UniqueDates(list, formatDate)| - 1
    ensures list == [] ==>
              PreviousCursor(list, formatDate, cursor) == cursor &&
              NextCursor(list, formatDate, cursor) == cursor
  {
  }

  /** A forecast that covers two calendar days, some samples on the first
      followed by some on the second, has exactly those two days, in that
      order; on the first day only Next is offered, and after one Next only
      Previous is. */
  lemma TwoDayForecast(first: seq<Sample>, second: seq<Sample>, formatDate: int -> string, d1: string, d2: string)
    requires first != [] && second != [] && d1 != d2
    requires forall x :: x in first ==> formatDate(x.dt) == d1
    requires forall x :: x in second ==> formatDate(x.dt) == d2
    ensures UniqueDates(first + second, formatDate) == [d1, d2]
    ensures var v := RenderView(first + second, formatDate, 0);
            v.DayPage? && !v.canGoPrevious && v.canGoNext
    ensures NextCursor(first + second, formatDate, 0) == 1
    ensures var v := RenderView(first + second, formatDate, 1);
            v.DayPage? && v.canGoPrevious && !v.canGoNext
  {
    var list := first + second;
    var keys := DateKeys(list, formatDate);
    assert list[0] in first;
    assert list[|first|] in second;
    forall j | 0 <= j < |list|
      ensures keys[j] == (if j < |first| then d1 else d2)
    {
      if j < |first| {
        assert list[j] in first;
      } else {
        assert list[j] == second[j - |first|];
      }
    }
    assert keys[0] == d1 && keys[|first|] == d2;
    assert FirstIndex(keys, d1) == 0;
    assert FirstIndex(keys, d2) == |first|;
    forall x ensures x in [d1, d2] <==> x in keys {
      if x in keys {
        var j :| 0 <= j < |keys| && keys[j] == x;
      }
    }
    DedupUnique(keys, [d1, d2]);
  }

  /** The forecast screen's state: whether a response is stored
      (`weatherData` is not null), the stored forecast samples
      (`weatherData.list`; a response without a list has none) and the
      selected-day cursor (`selectedDayIndex`). `formatDate` is the
      date-key function the screen was built with. */
  class ForecastScreen {
    const formatDate: int -> string
    var loaded: bool
    var samples: seq<Sample>
    var cursor: int

    /** The stored response, if any. */
    function WeatherData(): Option<seq<Sample>>
      reads this
    {
      if loaded then Some(samples) else None
    }

    /** The distinct days of the current forecast. */
    function Days(): seq<string>
      reads this
    {
      UniqueDates(samples, formatDate)
    }

    /** Without a response there are no samples, and whenever a forecast is
        shown the cursor is on one of its days. */
    ghost predicate Valid()
      reads this
    {
      && (!loaded ==> samples == [])
      && (samples != [] ==> 0 <= cursor < |Days()|)
    }

    /** The forecast area computed for the current state. */
    function Page(): ViewState
      reads this
    {
      ForecastArea(WeatherData(), formatDate, cursor)
    }

    /** The screen starts with no response and the cursor on day 0, so the
        forecast area is blank. */
    constructor (formatDate: int -> string)
      ensures this.formatDate == formatDate
      ensures !loaded && samples == [] && cursor == 0
      ensures Valid() && Page() == Blank
    {
      this.formatDate := formatDate;
      loaded := false;
      samples := [];
      cursor := 0;
    }

    /** Storing a fetched response (`setWeatherData`): the old forecast is
        replaced as a whole, by nothing for a null body, and the cursor is
        left as it was. */
    method ReplaceSamples(response: Option<seq<Sample>>)
      modifies this
      ensures WeatherData() == response && cursor == old(cursor)
      ensures !loaded ==> samples == []
    {
      match response
      case None =>
        loaded := false;
        samples := [];
      case Some(list) =>
        loaded := true;
        samples := list;
    }

    /** A successful fetch: the response is stored and the cursor goes back
        to the first day. */
    method Load(response: Option<seq<Sample>>)
      modifies this
      ensures WeatherData() == response && cursor == 0
      ensures Valid()
      ensures response == None ==> Page() == Blank
      ensures response == Some([]) ==> Page() == NoData
      ensures samples != [] ==>
                && Page().DayPage? && Page().date == Some(Days()[0]) && !Page().canGoPrevious
                && Page().samples == SelectedDay(samples, formatDate, Days()[0])
                && Page().samples != []
    {
      ReplaceSamples(response);
      cursor := 0;
      if samples != [] {
        RenderInRange(samples, formatDate, cursor);
      }
    }

    /** The correction made while computing a page with data: a cursor off
        the day list is moved to the nearest day; without data nothing
        happens. A valid state is left as it is. */
    method Clamp()
      modifies this
      ensures loaded == old(loaded) && samples == old(samples)
      ensures cursor == if samples == [] then old(cursor) else ClampIndex(old(cursor), |Days()|)
      ensures old(Valid()) ==> Valid() && cursor == old(cursor)
      ensures samples != [] ==> 0 <= cursor < |Days()|
    {
      if samples != [] {
        var days := UniqueDates(samples, formatDate);
        if cursor < 0 {
          cursor := 0;
        } else if cursor >= |days| {
          cursor := |days| - 1;
        }
      }
    }

    /** Computing the forecast area: with a response stored, the page is
        computed with the cursor as it stood, and only afterwards is the
        cursor clamped, so a stale cursor yields an empty page in this pass
        and a proper day in the next. Without a response nothing is
        computed and nothing changes. */
    method Render() returns (v: ViewState)
      modifies this
      ensures v == old(Page())
      ensures loaded == old(loaded) && samples == old(samples)
      ensures cursor == if !loaded || samples == [] then old(cursor) else ClampIndex(old(cursor), |Days()|)
      ensures loaded && samples != [] ==> 0 <= cursor < |Days()| && Page().DayPage? && Page().samples != []
      ensures old(Valid()) ==> Valid() && cursor == old(cursor)
    {
      if loaded {
        v := RenderView(samples, formatDate, cursor);
        Clamp();
        if samples != [] {
          RenderInRange(samples, formatDate, cursor);
        }
      } else {
        v := Blank;
      }
    }

    /** A press on Previous Day, as the computed page allows it; with no
        response stored there is no button. */
    method Previous()
      modifies this
      ensures loaded == old(loaded) && samples == old(samples)
      ensures cursor == if loaded then PreviousCursor(samples, formatDate, old(cursor)) else old(cursor)
      ensures old(Valid()) ==> Valid()
    {
      var v := Page();
      if v.DayPage? && v.canGoPrevious {
        cursor := cursor - 1;
      }
    }

    /** A press on Next Day, as the computed page allows it; with no
        response stored there is no button. */
    method Next()
      modifies this
      ensures loaded == old(loaded) && samples == old(samples)
      ensures cursor == if loaded then NextCursor(samples, formatDate, old(cursor)) else old(cursor)
      ensures old(Valid()) ==> Valid()
    {
      var v := Page();
      if v.DayPage? && v.canGoNext {
        cursor := cursor + 1;
      }
    }
  }

  /** Next Day followed by Previous Day, from any day but the last, brings
      back the same page. */
  method NextThenPrevious(screen: ForecastScreen)
    requires screen.Valid() && screen.samples != []
    requires screen.cursor < |screen.Days()| - 1
    modifies screen
    ensures screen.samples == old(screen.samples) && screen.cursor == old(screen.cursor)
    ensures screen.Page() == old(screen.Page())
  {
    screen.Next();
    assert screen.cursor == old(screen.cursor) + 1;
    screen.Previous();
  }

  /** A new forecast arriving while a later day is selected: if the forecast
      area is computed between storing the samples and resetting the
      cursor, and the new forecast has no day at the cursor, the page of
      that pass has no date and no samples, and the clamp made in the same
      pass already puts the cursor on the new last day. */
  method StaleCursorAfterShorterForecast(screen: ForecastScreen, list: seq<Sample>) returns (v: ViewState)
    requires list != [] && screen.cursor >= |UniqueDates(list, screen.formatDate)|
    modifies screen
    ensures v.DayPage? && v.date == None && v.samples == []
    ensures screen.samples == list && screen.cursor == |UniqueDates(list, screen.formatDate)| - 1
  {
    screen.ReplaceSamples(Some(list));
    RenderStaleCursor(list, screen.formatDate, screen.cursor);
    v := screen.Render();
  }
}
