/** The price part of `fetch_data`: the historical bars of a ticker are
    reconciled with one live quote scraped from Naver Finance when the ticker
    is listed on a Korean exchange. Dates are day numbers (the bar's timestamp
    with its time of day stripped), and "today" is the caller's current day in
    the Asia/Seoul time zone. */
module PriceReconciler {
  import opened Wrappers
  import opened Text
  import opened Market
  import opened NaverQuote

  /** One row of the price frame: its day, the OHLC prices, the volume and the
      two corporate-action columns. */
  datatype Bar = Bar(day: int, open: real, high: real, low: real, close: real,
                     volume: nat, dividends: real, splits: real)

  /** The live quote once its digit strings are converted to numbers. */
  datatype Quote = Quote(close: nat, open: nat, high: nat, low: nat, volume: nat)

  /** The dates of a series rise strictly from bar to bar. */
  predicate StrictlyIncreasing(bars: seq<Bar>)
  {
    forall i, j :: 0 <= i < j < |bars| ==> bars[i].day < bars[j].day
  }

  /** `_fetch_naver_price(ticker)` followed by `float(...)` of the four prices and
      `int(...)` of the volume: the Naver page is looked up by the ticker's
      market code; `pricePage` maps a code to the text of that page's hidden
      definition list (None when the request raised or the list is missing).
      The scraped values are non-empty digit strings, so no conversion can fail. */
  function LiveQuote(ticker: string, pricePage: string -> Option<string>): (r: Option<Quote>)
    ensures r.Some? <==> FetchNaverPrice(pricePage(MarketCode(ticker))).Some?
    ensures r.Some? ==>
      var text := pricePage(MarketCode(ticker)).value;
      && ExtractValue(CloseLabel, text).Some? && r.value.close == DecimalValue(ExtractValue(CloseLabel, text).value)
      && ExtractValue(OpenLabel, text).Some? && r.value.open == DecimalValue(ExtractValue(OpenLabel, text).value)
      && ExtractValue(HighLabel, text).Some? && r.value.high == DecimalValue(ExtractValue(HighLabel, text).value)
      && ExtractValue(LowLabel, text).Some? && r.value.low == DecimalValue(ExtractValue(LowLabel, text).value)
      && ExtractValue(VolumeLabel, text).Some? && r.value.volume == DecimalValue(ExtractValue(VolumeLabel, text).value)
  {
    match FetchNaverPrice(pricePage(MarketCode(ticker)))
    case None => None
    case Some(f) =>
      Some(Quote(DecimalValue(f.close), DecimalValue(f.open), DecimalValue(f.high),
                 DecimalValue(f.low), DecimalValue(f.volume)))
  }

  /** The row appended for a new trading day: the live values, no dividend, no split. */
  function LiveBar(q: Quote, today: int): Bar
  {
    Bar(today, q.open as real, q.high as real, q.low as real, q.close as real, q.volume, 0.0, 0.0)
  }

  /** The last row refreshed with the live values; its day and corporate-action
      columns stay. */
  function Refreshed(b: Bar, q: Quote): Bar
  {
    b.(open := q.open as real, high := q.high as real, low := q.low as real,
       close := q.close as real, volume := q.volume)
  }

  /** The merge policy of the patch: overwrite a last bar dated today, append a
      bar for a later day, start a one-bar series from nothing, and leave a
      series whose last bar lies after today alone. */
  function Patched(bars: seq<Bar>, q: Quote, today: int): (r: seq<Bar>)
    ensures |r| > 0
    ensures |bars| <= |r| <= |bars| + 1
    ensures forall k :: 0 <= k < |bars| - 1 ==> r[k] == bars[k]
    ensures |r| == |bars| + 1 ==> r[|bars|] == LiveBar(q, today)
  {
    if |bars| == 0 then [LiveBar(q, today)]
    else
      var last := bars[|bars| - 1];
      if last.day == today then bars[|bars| - 1 := Refreshed(last, q)]
      else if last.day < today then bars + [LiveBar(q, today)]
      else bars
  }

  /** The series `fetch_data` goes on with: patched only for a Korean listing
      whose live quote was obtained. */
  function Reconciled(ticker: string, bars: seq<Bar>, quote: Option<Quote>, today: int): (r: seq<Bar>)
    ensures r != bars ==> IsKoreanListing(ticker) && quote.Some?
    ensures IsKoreanListing(ticker) && quote.Some? ==> r == Patched(bars, quote.value, today)
    ensures |bars| <= |r| <= |bars| + 1
  {
    if IsKoreanListing(ticker) && quote.Some? then Patched(bars, quote.value, today) else bars
  }

  /** Same trading day: the length stays, the earlier bars stay, and the last
      bar keeps its day, dividends and splits but takes the live OHLCV. */
  lemma PatchSameDay(bars: seq<Bar>, q: Quote, today: int)
    requires |bars| > 0 && bars[|bars| - 1].day == today
    ensures var p := Patched(bars, q, today); var n := |bars|;
      && |p| == n
      && p[..n - 1] == bars[..n - 1]
      && p[n - 1].day == today
      && p[n - 1].open == q.open as real && p[n - 1].high == q.high as real
      && p[n - 1].low == q.low as real && p[n - 1].close == q.close as real
      && p[n - 1].volume == q.volume
      && p[n - 1].dividends == bars[n - 1].dividends
      && p[n - 1].splits == bars[n - 1].splits
  {
  }

  /** New trading day: exactly one bar is appended, dated today, carrying the
      live OHLCV and neither dividend nor split; the history is its prefix. */
  lemma PatchNewDay(bars: seq<Bar>, q: Quote, today: int)
    requires |bars| > 0 && bars[|bars| - 1].day < today
    ensures var p := Patched(bars, q, today); var n := |bars|;
      && |p| == n + 1
      && p[..n] == bars
      && p[n].day == today
      && p[n].open == q.open as real && p[n].high == q.high as real
      && p[n].low == q.low as real && p[n].close == q.close as real
      && p[n].volume == q.volume
      && p[n].dividends == 0.0 && p[n].splits == 0.0
  {
  }

  /** No history: the live quote alone makes a one-bar series dated today. */
  lemma PatchEmptyHistory(q: Quote, today: int)
    ensures Patched([], q, today) == [LiveBar(q, today)]
    ensures Patched([], q, today)[0].day == today
  {
  }

  /** A last bar dated after today is left alone, with everything before it. */
  lemma PatchStaleClock(bars: seq<Bar>, q: Quote, today: int)
    requires |bars| > 0 && bars[|bars| - 1].day > today
    ensures Patched(bars, q, today) == bars
  {
  }

  /** Unless the clock lags the history, the patched series ends with a bar
      dated today whose close is the live close. */
  lemma PatchEndsWithLiveClose(bars: seq<Bar>, q: Quote, today: int)
    requires |bars| == 0 || bars[|bars| - 1].day <= today
    ensures var p := Patched(bars, q, today);
      |p| > 0 && p[|p| - 1].day == today && p[|p| - 1].close == q.close as real
  {
  }

  /** Patching twice with the same quote on the same day equals patching once:
      the second patch overwrites, it never appends again. */
  lemma PatchIdempotent(bars: seq<Bar>, q: Quote, today: int)
    ensures Patched(Patched(bars, q, today), q, today) == Patched(bars, q, today)
  {
  }

  /** A history whose dates rise strictly keeps that property through the patch. */
  lemma PatchKeepsOrder(bars: seq<Bar>, q: Quote, today: int)
    requires StrictlyIncreasing(bars)
    ensures StrictlyIncreasing(Patched(bars, q, today))
  {
  }

  /** Only a Korean listing with a live quote is touched; every other series
      comes back as it was. */
  lemma ReconciledUnpatched(ticker: string, bars: seq<Bar>, quote: Option<Quote>, today: int)
    requires !IsKoreanListing(ticker) || quote.None?
    ensures Reconciled(ticker, bars, quote, today) == bars
  {
  }

  /** A Korean listing with a live quote never ends in the missing-data error,
      and a strictly rising history stays strictly rising. */
  lemma ReconciledWithQuote(ticker: string, bars: seq<Bar>, q: Quote, today: int)
    requires IsKoreanListing(ticker)
    ensures Reconciled(ticker, bars, Some(q), today) != []
    ensures StrictlyIncreasing(bars) ==> StrictlyIncreasing(Reconciled(ticker, bars, Some(q), today))
  {
  }

  /** The live quote depends on the page served for the ticker's market code and on nothing else. */
  lemma LiveQuoteUsesMarketCode(ticker: string, pricePage: string -> Option<string>,
                                pricePage': string -> Option<string>)
    requires pricePage(MarketCode(ticker)) == pricePage'(MarketCode(ticker))
    ensures LiveQuote(ticker, pricePage) == LiveQuote(ticker, pricePage')
  {
  }

  /** The scraped string "150400" becomes the price 150400. */
  lemma DecimalValueExample()
    ensures DecimalValue("150400") == 150400
  {
    assert "150400"[..5] == "15040" && "15040"[..4] == "1504" && "1504"[..3] == "150";
    assert "150"[..2] == "15" && "15"[..1] == "1" && "1"[..0] == "";
  }

  function NoDataMessage(ticker: string): string
  {
    "No data found for " + ticker
  }

  /** The price frame of one request, owned by `FetchData` and changed in place
      only by the patch. */
  class Series {
    var bars: seq<Bar>

    constructor (history: seq<Bar>)
      ensures bars == history
    {
      bars := history;
    }

    /** The live-quote patch: replace the last row when it is dated today, append
        a row when it is older, create the frame when there is none. */
    method ApplyLiveQuote(q: Quote, today: int)
      modifies this
      ensures bars == Patched(old(bars), q, today)
    {
      if |bars| == 0 {
        bars := [LiveBar(q, today)];
      } else {
        var last := bars[|bars| - 1];
        if last.day == today {
          bars := bars[|bars| - 1 := Refreshed(last, q)];
        } else if last.day < today {
          bars := bars + [LiveBar(q, today)];
        }
      }
    }
  }

  /** `fetch_data(ticker)`: `history` is the provider's frame, or the text of the
      exception its request raised; an empty final frame is reported as missing data. */
  method FetchData(ticker: string, history: Result<seq<Bar>, string>,
                   pricePage: string -> Option<string>, today: int)
    returns (r: Result<seq<Bar>, string>)
    ensures history.Failure? ==> r == Failure(history.error)
    ensures history.Success? ==>
      var bars := Reconciled(ticker, history.value, LiveQuote(ticker, pricePage), today);
      r == if bars == [] then Failure(NoDataMessage(ticker)) else Success(bars)
  {
    if history.Failure? {
      return Failure(history.error);
    }
    var frame := new Series(history.value);
    if IsKoreanListing(ticker) {
      var quote := LiveQuote(ticker, pricePage);
      if quote.Some? {
        frame.ApplyLiveQuote(quote.value, today);
      }
    }
    if frame.bars == [] {
      r := Failure(NoDataMessage(ticker));
    } else {
      r := Success(frame.bars);
    }
  }
}
