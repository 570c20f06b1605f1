# StockAnalyzer core in Dafny

A model of the data-reconciliation and fallback logic of `StockAnalyzer`
(`analyzer.py`), with the properties it promises proved:

- **Ticker resolution** (`get_ticker`): a six-digit code becomes a KOSPI
  ticker; a dotted or short upper-case input is taken as it is; otherwise the
  symbol search decides, and a Hangul name prefers a `.KS`/`.KQ` listing; then
  a short answer from the language model; finally the stripped input.
  (module `TickerResolver`, file `ticker.dfy`)
- **Live-quote scrape** (`_fetch_naver_price`, duplicated as `get_naver_ohlcv`
  in `test_naver_ohlcv.py`): `extract_value` applies `key\s+([\d,]+)` to the
  text of the page's hidden definition list and drops the commas. The five
  labels 현재가/시가/고가/저가/거래량 give Close/Open/High/Low/Volume, and all
  five must be non-empty. (module `NaverQuote`, file `naver_quote.dfy`)
- **Price reconciliation** (`fetch_data`): for a Korean listing, the history
  is patched with the live quote. A last bar dated today is overwritten in
  place. A last bar dated earlier gets a new bar for today appended. An empty
  history gets a single bar. A last bar dated later than today is left alone.
  An empty final series is the error `No data found for <ticker>`. The frame
  is a `Series` object whose `bars` field the patch reassigns. (module
  `PriceReconciler`, file `prices.dfy`)
- **News** (`fetch_news`, `_fetch_naver_news`): Korean listings take the
  first five anchors of the Naver news page, with relative links made
  absolute. Other tickers take the provider's news feed, or the symbol
  search's news when the feed is empty. Those records are flattened by the
  title and link fallback chains, and the placeholder `No Title` is dropped,
  within the first five records. (module `News`, file `news.dfy`)
- Shared pieces: `Wrappers` (Option, Result), `Text` (`strip`, `isdigit`,
  `startswith`/`endswith`, `replace(..., '')`, decimal value of a digit string),
  `Market` (the `.KS`/`.KQ` convention and the market code).

Every network result is an input. The search result is the list of symbols it
returned. The model's reply is an optional string. The price page and the news
page are functions from a market code to the page content, so the model shows
which code is looked up. The provider's history is a `Result` that carries the
text of the exception when the request raised. "Today" is a day number that
the caller supplies. A raised exception that the source swallows becomes an
empty list or `None`.

Behaviour of the code worth knowing when reading the model:
- News titles may be empty. A record whose own `title` key holds `""` passes
  the filter (`News.EmptyTitlePassesThrough`). Square brackets in titles are
  kept as they are.
- A record without any link gets the link `#`.
- For tickers that are not Korean, the fallback news source is the symbol
  search's `news` for the ticker.
- The symbol search receives the stripped name.
- Strictly increasing dates survive the patch when the history already has
  them (`PriceReconciler.PatchKeepsOrder`).
- The extracted live values are non-empty digit strings
  (`NaverQuote.ScrapePrice`), so their conversion to numbers cannot fail.

## Model

| member | source | states |
|---|---|---|
| `Text.Strip` | analyzer.py:22 | the result is the slice of the input left once all whitespace at both ends is removed; neither of its ends is whitespace |
| `Text.StripIdempotent` | analyzer.py:22 | stripping an already stripped string changes nothing |
| `Text.RemoveAll` | analyzer.py:196 | `replace(p, '')` never lengthens a string and keeps only characters of the input |
| `Text.RemoveAllKeepsPrefix` | analyzer.py:196 | a prefix free of the pattern's first character is kept verbatim by `replace(p, '')` |
| `Market.MarketCode` | analyzer.py:196 | the market code is no longer than the ticker and uses only its characters |
| `Market.MarketCodeOfPlainCode` | analyzer.py:230 | a ticker without a dot is its own market code |
| `Market.MarketCodeOfListing` | analyzer.py:196 | `code + ".KS"` and `code + ".KQ"` are Korean listings whose market code is `code`, for any dot-free code |
| `TickerResolver.FirstKoreanListing` | analyzer.py:40-42 | finds the least index whose symbol ends in `.KS`/`.KQ`, and returns None exactly when no symbol does |
| `TickerResolver.SearchPick` | analyzer.py:33-43 | None exactly when the search found nothing; otherwise a symbol of the result: for a Hangul name the first `.KS`/`.KQ` symbol when there is one, else the first symbol |
| `TickerResolver.AiPick` | analyzer.py:47-58 | a pick exactly when a key is present, the name has more than one character, a reply came back and its stripped form has 1 to 10 characters; the pick is that stripped reply |
| `TickerResolver.Resolve` | analyzer.py:18-61 | a six-digit code gives code plus `.KS`; with a non-empty search and no shortcut the answer is a search symbol; the answer is always the stripped input with or without `.KS`, a search symbol, or a stripped reply of 1 to 10 characters |
| `TickerResolver.ResolveNumericCode` | analyzer.py:24-26 | a stripped six-digit input resolves to itself plus `.KS`, which is a Korean listing whose market code is the input |
| `TickerResolver.ResolveTickerShaped` | analyzer.py:28-30 | an input containing `.`, or upper case with 1 to 5 characters, resolves to its stripped self |
| `TickerResolver.ShortcutIgnoresLookups` | analyzer.py:22-30 | in both shortcut cases the answer is the same whatever the search result, API key and model reply are |
| `TickerResolver.ShortcutIsStable` | analyzer.py:22-30 | a ticker produced by a shortcut resolves to itself again |
| `TickerResolver.ResolvePrefersKoreanListing` | analyzer.py:33-42 | for a Hangul name, the first search symbol ending in `.KS`/`.KQ` is the answer, with no influence from the key or the model |
| `TickerResolver.ResolveTakesFirstSymbol` | analyzer.py:38-43 | with a non-empty search result and no Hangul, or no Korean listing among the symbols, the answer is the first symbol |
| `TickerResolver.ResolveFromModel` | analyzer.py:47-61 | with no search result, the stripped reply is taken exactly when a key is present, the name has more than one character and the reply has 1 to 10 characters; otherwise the stripped input is returned |
| `NaverQuote.SpaceRunEnd` | analyzer.py:209 | returns the end of the maximal run of whitespace from a position |
| `NaverQuote.NumberRunEnd` | analyzer.py:209 | returns the end of the maximal run of digits and commas from a position |
| `NaverQuote.MatchesAt` | analyzer.py:209 | `key\s+[\d,]` matches at a position exactly when the key occurs there and is followed by at least one whitespace character and then a digit or comma |
| `NaverQuote.GroupAt` | analyzer.py:209-212 | the captured group starts where the whitespace after the key ends and is the maximal non-empty run of digits and commas there, as the greedy `[\d,]+` takes it |
| `NaverQuote.FirstMatch` | analyzer.py:210 | returns the least matching position, or None exactly when the pattern matches nowhere |
| `NaverQuote.ExtractValue` | analyzer.py:208-213 | None exactly when `key\s+[\d,]+` occurs nowhere in the text; otherwise a string of ASCII digits only (same code at test_naver_ohlcv.py:31-37) |
| `NaverQuote.RemoveCommasLeavesDigits` | analyzer.py:212 | removing the commas from a digit-and-comma run leaves only digits, and leaves nothing exactly when the run was all commas |
| `NaverQuote.ExtractValueAtLeftmostMatch` | test_naver_ohlcv.py:33-36 | the value is the comma-free group of the leftmost match |
| `NaverQuote.CommaOnlyGroupIsEmpty` | test_naver_ohlcv.py:36 | a leftmost match whose group holds only commas extracts `""` |
| `NaverQuote.RemoveCommasExample` | test_naver_ohlcv.py:26 | "150,400" becomes "150400" |
| `NaverQuote.ExtractCloseExample` | test_naver_ohlcv.py:39 | the text "현재가 150,400" yields the current price "150400" |
| `NaverQuote.MarketCapIsNotOpen` | analyzer.py:217 | the label 시가 inside 시가총액 is not a match, since whitespace must follow the label |
| `NaverQuote.ScrapePrice` | analyzer.py:215-224 | a record is returned exactly when all five labels yield a non-empty value; then Close, Open, High, Low and Volume are the values of 현재가, 시가, 고가, 저가 and 거래량, each a non-empty digit string (same check at test_naver_ohlcv.py:39-49) |
| `NaverQuote.FetchNaverPrice` | analyzer.py:193-226 | no page gives None; a served page gives exactly the scrape of that page, so a record exactly when all five labels give non-empty values, each field the digit value its own label extracts |
| `PriceReconciler.LiveQuote` | analyzer.py:72-87 | a quote exactly when the scrape of the ticker's market-code page succeeds; each number is the decimal value of the string its own label (현재가, 시가, 고가, 저가, 거래량) extracts |
| `PriceReconciler.Patched` | analyzer.py:90-123 | the result is non-empty, one bar longer at most and never shorter, keeps every bar but the last, and an added bar is the live bar dated today |
| `PriceReconciler.Reconciled` | analyzer.py:70-123 | a Korean listing with a live quote gets the patched history; any other series is the history unchanged; it grows by at most one bar |
| `PriceReconciler.Series.ApplyLiveQuote` | analyzer.py:90-123 | the frame afterwards is the patch of the frame before |
| `PriceReconciler.FetchData` | analyzer.py:63-134 | a provider exception yields its text; otherwise the history is patched only for a Korean listing with a live quote, and an empty result becomes `No data found for <ticker>` |
| `PriceReconciler.PatchSameDay` | analyzer.py:94-100 | same day: the length and the earlier bars are unchanged; the last bar takes the live OHLCV and keeps its day, dividends and splits |
| `PriceReconciler.PatchNewDay` | analyzer.py:101-112 | later day: exactly one bar is appended after the untouched history, dated today, with the live OHLCV and zero dividends and splits |
| `PriceReconciler.PatchEmptyHistory` | analyzer.py:113-123 | an empty history becomes exactly one live bar dated today |
| `PriceReconciler.PatchStaleClock` | analyzer.py:90-112 | a last bar dated after today leaves the series unchanged |
| `PriceReconciler.PatchEndsWithLiveClose` | verify_patch.py:26 | unless the history runs past today, the patched series ends with a bar dated today whose close is the live close |
| `PriceReconciler.PatchIdempotent` | analyzer.py:94-112 | patching twice with the same quote on the same day equals patching once |
| `PriceReconciler.PatchKeepsOrder` | analyzer.py:101-112 | strictly increasing dates stay strictly increasing |
| `PriceReconciler.ReconciledUnpatched` | analyzer.py:70-73 | a ticker that is not Korean, or a missing live quote, leaves the history unchanged |
| `PriceReconciler.ReconciledWithQuote` | analyzer.py:130-132 | a Korean listing with a live quote never ends in the no-data error, and keeps rising dates rising |
| `PriceReconciler.LiveQuoteUsesMarketCode` | analyzer.py:196-199 | the live quote depends only on the page served for the ticker's market code |
| `PriceReconciler.DecimalValueExample` | analyzer.py:83 | the scraped "150400" is the price 150400 |
| `News.ResolvedTitle` | analyzer.py:179-180 | the title is `content.title`, `content.heading`, the record's own `title`, or `No Title`; it is empty only when the record's own `title` is `""` |
| `News.ResolvedTitleOrder` | analyzer.py:179-180 | the title is a truthy `content.title`; else a truthy `content.heading`; else the record's own `title` verbatim whenever that key exists, even `""`; else `No Title` |
| `News.ResolvedLink` | analyzer.py:179-181 | the link is `content.link`, `content.url`, the record's own `link`, or `#` |
| `News.ResolvedLinkOrder` | analyzer.py:179-181 | the link is a truthy `content.link`; else a truthy `content.url`; else the record's own `link` verbatim whenever that key exists; else `#` |
| `News.Titled` | analyzer.py:177-187 | keeps at most as many items as records, none titled `No Title` |
| `News.TitledAppend` | analyzer.py:178-187 | the filter distributes over concatenation, so it keeps the surviving records in their order |
| `News.TitledSingle` | analyzer.py:183-187 | one record yields its flattened item exactly when its title is not the placeholder |
| `News.RawNews` | analyzer.py:165-175 | a failed feed request gives nothing; a non-empty feed is used as it is; an empty feed gives the search's news, or nothing when the search raised |
| `News.ProviderNews` | analyzer.py:165-191 | the result is the filtered flattening of the first five records of the feed or its fallback: at most five items, none titled `No Title` |
| `News.SearchOnlyForEmptyFeed` | analyzer.py:169-175 | a non-empty provider feed makes the search result irrelevant |
| `News.EmptyTitlePassesThrough` | analyzer.py:180-187 | a record whose `title` key holds `""` comes out with an empty title and the link `#` |
| `News.FlattenNews` | analyzer.py:177-189 | the loop returns the filtered flattening of the first five records |
| `News.Absolute` | analyzer.py:248-249 | every link starts with "http"; a link already starting so is kept, and any other is prefixed with `https://finance.naver.com` |
| `News.AbsoluteIdempotent` | analyzer.py:248-249 | making a link absolute twice is the same as once |
| `News.Linked` | analyzer.py:245-254 | one item per anchor, in page order, with the anchor's text and absolute link |
| `News.NaverNewsOf` | analyzer.py:228-261 | at most five items, all links absolute; empty exactly when the request failed, the page has no anchors, or one of the first five anchors lacks `href`; otherwise the first five anchors in order |
| `News.FirstAnchors` | analyzer.py:255-256 | the visited anchors are the first five, or all of them when there are fewer |
| `News.NaverNews` | analyzer.py:237-261 | a failed request yields nothing; otherwise the result is `NaverNewsOf` of the page |
| `News.LinkAnchors` | analyzer.py:244-258 | the loop, with its break after the fifth item, returns the linked first anchors, or nothing when one of them lacks `href` |
| `News.FetchNews` | analyzer.py:159-191 | a `.KS`/`.KQ` ticker goes only to the Naver page of its market code, and any other ticker only to the provider path |

## Left out

- Network and parsing transport are parameters: `yf.Ticker(...).history` and
  `.news`, `yf.Search`, `requests.get`, the euc-kr decoding, and the
  BeautifulSoup selectors (`dl.blind`, `td.title a`, `get_text`).
- The clock and time zones are parameters. Today's date in Asia/Seoul and
  pandas' `normalize()` become an integer day number supplied by the caller.
  The time zone of the appended index entry is not modelled.
- Floating point is not modelled. Prices, dividends and splits are exact
  reals, and volume is a natural number.
- Unicode breadth is restricted. `isdigit`, `isupper` and `\d` use ASCII
  only, so `isupper` treats only ASCII letters as cased. `strip` and `\s`
  use Python's full whitespace set.
- TickerResolver.Resolve: a search quote without a `symbol` key is not
  modelled. In the source it raises a KeyError, which sends resolution on to
  the model. Here each quote is its symbol.
- News.ProviderNews: record values that are `None` or not strings, and a
  `content` key holding `None`, are not modelled. Each key is either missing
  or a string.
- PriceReconciler.Series.ApplyLiveQuote: the five cell assignments are one
  replacement of the last bar. The field is a sequence, not a pandas frame.
  Columns other than OHLCV, dividends and splits are not modelled.
- `calculate_indicators` is out of scope: it delegates RSI, MACD and
  Bollinger arithmetic to an indicator library.
- `generate_ai_analysis` is out of scope: it consists of language-model calls
  and prompt text.
- `app.py` is out of scope: it is presentation only.
- The debug scripts only call live services and print, so they are not
  modelled.
- Logging with `print` when a patch or the Naver news fetch fails is not
  modelled.
