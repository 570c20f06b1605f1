/** The live-quote scrape of Naver Finance (`_fetch_naver_price` and its copy
    `get_naver_ohlcv`): the text of the page's hidden definition list is searched
    for five Korean labels, each followed by whitespace and a comma-grouped
    number. Fetching the page and selecting the list are left to the caller. */
module NaverQuote {
  import opened Wrappers
  import opened Text

  /** The labels of the current price, the day's open, high, low and volume. */
  const CloseLabel: string := "\U{D604}\U{C7AC}\U{AC00}"   // 현재가
  const OpenLabel: string := "\U{C2DC}\U{AC00}"            // 시가
  const HighLabel: string := "\U{ACE0}\U{AC00}"            // 고가
  const LowLabel: string := "\U{C800}\U{AC00}"             // 저가
  const VolumeLabel: string := "\U{AC70}\U{B798}\U{B7C9}"  // 거래량

  /** The regular expression class `[\d,]`, with ASCII digits. */
  predicate IsDigitOrComma(c: char)
  {
    IsAsciiDigit(c) || c == ','
  }

  /** End of the run of whitespace that starts at `from`. */
  function SpaceRunEnd(text: string, from: nat): (e: nat)
    requires from <= |text|
    ensures from <= e <= |text|
    ensures forall k :: from <= k < e ==> IsSpace(text[k])
    ensures e == |text| || !IsSpace(text[e])
    decreases |text| - from
  {
    if from < |text| && IsSpace(text[from]) then SpaceRunEnd(text, from + 1) else from
  }

  /** End of the run of digits and commas that starts at `from`. */
  function NumberRunEnd(text: string, from: nat): (e: nat)
    requires from <= |text|
    ensures from <= e <= |text|
    ensures forall k :: from <= k < e ==> IsDigitOrComma(text[k])
    ensures e == |text| || !IsDigitOrComma(text[e])
    decreases |text| - from
  {
    if from < |text| && IsDigitOrComma(text[from]) then NumberRunEnd(text, from + 1) else from
  }

  /** The pattern `key\s+([\d,]+)` matches at position `i`: the key, then at
      least one whitespace character, then at least one digit or comma. Since a
      digit or comma is never whitespace, the greedy `\s+` can only stop at the
      end of the whitespace run, so looking just past that run is enough; the
      ensures clause states the pattern with the whitespace run left open. */
  predicate MatchesAt(key: string, text: string, i: nat): (m: bool)
    ensures m <==>
      && i + |key| <= |text|
      && text[i..i + |key|] == key
      && exists j :: PatternTailAt(key, text, i, j)
  {
    var start := i + |key|;
    if start <= |text| then
      var e := SpaceRunEnd(text, start);
      WhitespaceRunIsUnique(key, text, i);
      var tail := e > start && e < |text| && IsDigitOrComma(text[e]);
      assert tail ==> PatternTailAt(key, text, i, e);
      text[i..start] == key && tail
    else false
  }

  /** `\s+[\d,]` read after the key at `i`: whitespace from the end of the key
      up to `j`, at least one character of it, and a digit or comma at `j`. */
  predicate PatternTailAt(key: string, text: string, i: nat, j: int)
  {
    && i + |key| < j < |text|
    && (forall k :: i + |key| <= k < j ==> IsSpace(text[k]))
    && IsDigitOrComma(text[j])
  }

  /** Any way of reading `\s+[\d,]` after the key ends its whitespace where the
      whitespace run ends. */
  lemma WhitespaceRunIsUnique(key: string, text: string, i: nat)
    requires i + |key| <= |text|
    ensures forall j :: PatternTailAt(key, text, i, j) ==> j == SpaceRunEnd(text, i + |key|)
  {
  }

  /** The captured group of a match at `i`: the longest run of digits and
      commas after the whitespace, since `[\d,]+` is greedy. */
  function GroupAt(key: string, text: string, i: nat): (g: string)
    requires MatchesAt(key, text, i)
    ensures |g| > 0
    ensures forall k :: 0 <= k < |g| ==> IsDigitOrComma(g[k])
    ensures var j := SpaceRunEnd(text, i + |key|);
      && PatternTailAt(key, text, i, j)
      && j + |g| <= |text|
      && g == text[j..j + |g|]
      && (j + |g| == |text| || !IsDigitOrComma(text[j + |g|]))
  {
    var j := SpaceRunEnd(text, i + |key|);
    text[j..NumberRunEnd(text, j)]
  }

  /** `re.search`: the leftmost position, at or after `from`, where the pattern matches. */
  function FirstMatch(key: string, text: string, from: nat): (r: Option<nat>)
    requires from <= |text|
    ensures r.None? <==> forall k :: from <= k <= |text| ==> !MatchesAt(key, text, k)
    ensures r.Some? ==>
      && from <= r.value <= |text|
      && MatchesAt(key, text, r.value)
      && forall k :: from <= k < r.value ==> !MatchesAt(key, text, k)
    decreases |text| - from
  {
    if MatchesAt(key, text, from) then Some(from)
    else if from == |text| then None
    else FirstMatch(key, text, from + 1)
  }

  /** `extract_value(key, text)`: the group of the leftmost match with its
      commas removed, or None when the pattern matches nowhere. */
  function ExtractValue(key: string, text: string): (r: Option<string>)
    ensures r.None? <==> forall k :: 0 <= k <= |text| ==> !MatchesAt(key, text, k)
    ensures r.Some? ==> forall k :: 0 <= k < |r.value| ==> IsAsciiDigit(r.value[k])
  {
    match FirstMatch(key, text, 0)
    case None => None
    case Some(i) =>
      var g := GroupAt(key, text, i);
      RemoveCommasLeavesDigits(g);
      Some(RemoveAll(g, ","))
  }

  /** Deleting the commas from a run of digits and commas leaves digits only,
      and leaves nothing exactly when the run held only commas. */
  lemma {:induction false} RemoveCommasLeavesDigits(g: string)
    requires forall k :: 0 <= k < |g| ==> IsDigitOrComma(g[k])
    ensures forall k :: 0 <= k < |RemoveAll(g, ",")| ==> IsAsciiDigit(RemoveAll(g, ",")[k])
    ensures RemoveAll(g, ",") == [] <==> forall k :: 0 <= k < |g| ==> g[k] == ','
    decreases |g|
  {
    if |g| > 0 {
      RemoveCommasLeavesDigits(g[1..]);
      if g[0] == ',' {
        assert StartsWith(g, ",");
        assert RemoveAll(g, ",") == RemoveAll(g[1..], ",");
        assert forall k :: 1 <= k < |g| ==> g[k] == g[1..][k - 1];
      } else {
        assert !StartsWith(g, ",");
        assert RemoveAll(g, ",") == [g[0]] + RemoveAll(g[1..], ",");
      }
    }
  }

  /** The match `re.search` finds is the leftmost one: given any match with no
      match before it, the extracted value is that match's group without commas. */
  lemma ExtractValueAtLeftmostMatch(key: string, text: string, i: nat)
    requires MatchesAt(key, text, i)
    requires forall k :: 0 <= k < i ==> !MatchesAt(key, text, k)
    ensures ExtractValue(key, text) == Some(RemoveAll(GroupAt(key, text, i), ","))
  {
  }

  /** A match whose group holds only commas extracts the empty string. */
  lemma CommaOnlyGroupIsEmpty(key: string, text: string, i: nat)
    requires MatchesAt(key, text, i)
    requires forall k :: 0 <= k < i ==> !MatchesAt(key, text, k)
    requires forall k :: 0 <= k < |GroupAt(key, text, i)| ==> GroupAt(key, text, i)[k] == ','
    ensures ExtractValue(key, text) == Some("")
  {
    ExtractValueAtLeftmostMatch(key, text, i);
    RemoveCommasLeavesDigits(GroupAt(key, text, i));
  }

  /** The five values of a successful scrape, as strings of digits. */
  datatype PriceFields = PriceFields(close: string, open: string, high: string, low: string, volume: string)

  /** A value extracted and non-empty, the test `data[k]` applies. */
  predicate Found(v: Option<string>)
  {
    v.Some? && v.value != ""
  }

  /** The dictionary of the five extractions and the all-five check: a record
      only when every label yields a non-empty value. */
  function ScrapePrice(text: string): (r: Option<PriceFields>)
    ensures r.Some? <==>
      && Found(ExtractValue(CloseLabel, text)) && Found(ExtractValue(OpenLabel, text))
      && Found(ExtractValue(HighLabel, text)) && Found(ExtractValue(LowLabel, text))
      && Found(ExtractValue(VolumeLabel, text))
    ensures r.Some? ==>
      && IsDigits(r.value.close) && IsDigits(r.value.open) && IsDigits(r.value.high)
      && IsDigits(r.value.low) && IsDigits(r.value.volume)
    ensures r.Some? ==>
      && ExtractValue(CloseLabel, text) == Some(r.value.close)
      && ExtractValue(OpenLabel, text) == Some(r.value.open)
      && ExtractValue(HighLabel, text) == Some(r.value.high)
      && ExtractValue(LowLabel, text) == Some(r.value.low)
      && ExtractValue(VolumeLabel, text) == Some(r.value.volume)
  {
    var close := ExtractValue(CloseLabel, text);
    var open := ExtractValue(OpenLabel, text);
    var high := ExtractValue(HighLabel, text);
    var low := ExtractValue(LowLabel, text);
    var volume := ExtractValue(VolumeLabel, text);
    if Found(close) && Found(open) && Found(high) && Found(low) && Found(volume) then
      Some(PriceFields(close.value, open.value, high.value, low.value, volume.value))
    else None
  }

  /** `_fetch_naver_price` once the page is in hand: `page` is the text of the
      hidden definition list, None when the request raised or the list is missing. */
  function FetchNaverPrice(page: Option<string>): (r: Option<PriceFields>)
    ensures page.None? ==> r.None?
    ensures page.Some? ==> r == ScrapePrice(page.value)
    ensures r.Some? ==>
      && page.Some?
      && ExtractValue(CloseLabel, page.value) == Some(r.value.close) && IsDigits(r.value.close)
      && ExtractValue(OpenLabel, page.value) == Some(r.value.open) && IsDigits(r.value.open)
      && ExtractValue(HighLabel, page.value) == Some(r.value.high) && IsDigits(r.value.high)
      && ExtractValue(LowLabel, page.value) == Some(r.value.low) && IsDigits(r.value.low)
      && ExtractValue(VolumeLabel, page.value) == Some(r.value.volume) && IsDigits(r.value.volume)
  {
    match page
    case None => None
    case Some(text) => ScrapePrice(text)
  }

  /** The comma grouping of a price disappears: "150,400" becomes "150400". */
  lemma RemoveCommasExample()
    ensures RemoveAll("150,400", ",") == "150400"
  {
    assert "150,400" == "150" + ",400";
    RemoveAllKeepsPrefix("150", ",400", ",");
    assert StartsWith(",400", ",");
    assert ",400"[1..] == "400";
    RemoveAllKeepsPrefix("400", [], ",");
    assert "400" + [] == "400";
  }

  /** The line "현재가 150,400" of the definition list yields the current price "150400". */
  lemma ExtractCloseExample()
    ensures ExtractValue(CloseLabel, "\U{D604}\U{C7AC}\U{AC00} 150,400") == Some("150400")
  {
    var text := "\U{D604}\U{C7AC}\U{AC00} 150,400";
    assert SpaceRunEnd(text, 3) == 4;
    assert MatchesAt(CloseLabel, text, 0);
    assert NumberRunEnd(text, 4) == 11;
    ExtractValueAtLeftmostMatch(CloseLabel, text, 0);
    assert GroupAt(CloseLabel, text, 0) == "150,400";
    RemoveCommasExample();
  }

  /** The label 시가 (open) inside 시가총액 (market capitalisation) is not a
      match, because whitespace must follow the label directly. */
  lemma MarketCapIsNotOpen()
    ensures !MatchesAt(OpenLabel, "\U{C2DC}\U{AC00}\U{CD1D}\U{C561} 4,000", 0)
  {
  }
}
