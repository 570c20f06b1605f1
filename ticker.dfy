/** `StockAnalyzer.get_ticker`: turns what the user typed into a ticker by a
    chain of short-circuit rules, consulting the symbol search and then the
    language model only when the input does not already look like a ticker.
    The two lookups are inputs: `quotes` holds the symbols of the search
    result in order (empty when the search found nothing or raised), `answer`
    the model's reply text (None when the call raised). */
module TickerResolver {
  import opened Wrappers
  import opened Text
  import opened Market

  /** Longest model reply accepted as a ticker. */
  const MaxAiTickerLength: nat := 10

  predicate IsAsciiUpper(c: char) { 'A' <= c <= 'Z' }
  predicate IsAsciiLower(c: char) { 'a' <= c <= 'z' }

  /** `s.isupper()` with ASCII letters as the only cased characters: at least
      one upper-case letter and no lower-case one. */
  predicate IsUpper(s: string)
  {
    (exists k :: 0 <= k < |s| && IsAsciiUpper(s[k])) &&
    forall k :: 0 <= k < |s| ==> !IsAsciiLower(s[k])
  }

  /** `re.search('[가-힣]', s)`: some Hangul syllable U+AC00..U+D7A3 occurs. */
  predicate HasHangulSyllable(s: string)
  {
    exists k :: 0 <= k < |s| && '\U{AC00}' <= s[k] <= '\U{D7A3}'
  }

  /** Rule 1: a six-digit Korean numeric code. */
  predicate IsNumericCode(name: string)
  {
    IsDigits(name) && |name| == 6
  }

  /** Rule 2: a dotted symbol, or one to five characters that are all upper case. */
  predicate IsTickerShaped(name: string)
  {
    '.' in name || (IsUpper(name) && 1 <= |name| <= 5)
  }

  /** The cases decided without consulting the search or the model. */
  predicate IsShortcut(name: string)
  {
    IsNumericCode(name) || IsTickerShaped(name)
  }

  /** Python truthiness of the optional API key. */
  predicate HasKey(apiKey: Option<string>)
  {
    apiKey.Some? && apiKey.value != ""
  }

  /** Index of the first symbol, at or after `from`, listed on a Korean exchange. */
  function FirstKoreanListing(quotes: seq<string>, from: nat): (r: Option<nat>)
    requires from <= |quotes|
    ensures r.None? <==> forall k :: from <= k < |quotes| ==> !IsKoreanListing(quotes[k])
    ensures r.Some? ==>
      && from <= r.value < |quotes|
      && IsKoreanListing(quotes[r.value])
      && forall k :: from <= k < r.value ==> !IsKoreanListing(quotes[k])
    decreases |quotes| - from
  {
    if from == |quotes| then None
    else if IsKoreanListing(quotes[from]) then Some(from)
    else FirstKoreanListing(quotes, from + 1)
  }

  /** Rule 3: the pick among the search result, None when it is empty. */
  function SearchPick(name: string, quotes: seq<string>): (r: Option<string>)
    ensures r.None? <==> |quotes| == 0
    ensures r.Some? ==> r.value in quotes
    ensures r.Some? && HasHangulSyllable(name) && (exists k :: 0 <= k < |quotes| && IsKoreanListing(quotes[k])) ==>
      && IsKoreanListing(r.value)
      && exists i :: 0 <= i < |quotes| && quotes[i] == r.value && forall k :: 0 <= k < i ==> !IsKoreanListing(quotes[k])
    ensures r.Some? && !(HasHangulSyllable(name) && exists k :: 0 <= k < |quotes| && IsKoreanListing(quotes[k])) ==>
      r.value == quotes[0]
  {
    if |quotes| == 0 then None
    else if HasHangulSyllable(name) then
      match FirstKoreanListing(quotes, 0)
      case Some(k) => Some(quotes[k])
      case None => Some(quotes[0])
    else Some(quotes[0])
  }

  /** Rule 4: the stripped model reply, when a key is present, the name is longer
      than one character and the reply is non-empty and short enough. */
  function AiPick(name: string, apiKey: Option<string>, answer: Option<string>): (r: Option<string>)
    ensures r.Some? <==>
      HasKey(apiKey) && |name| > 1 && answer.Some? && 1 <= |Strip(answer.value)| <= MaxAiTickerLength
    ensures r.Some? ==> r.value == Strip(answer.value)
  {
    if HasKey(apiKey) && |name| > 1 && answer.Some? then
      var ticker := Strip(answer.value);
      if ticker != "" && |ticker| <= MaxAiTickerLength then Some(ticker) else None
    else None
  }

  /** The whole chain of `get_ticker`; rule 5 returns the stripped input. */
  function Resolve(raw: string, quotes: seq<string>, apiKey: Option<string>, answer: Option<string>): (r: string)
    ensures IsNumericCode(Strip(raw)) ==> r == Strip(raw) + KospiSuffix
    ensures !IsShortcut(Strip(raw)) && |quotes| > 0 ==> r in quotes
    ensures || r == Strip(raw) + KospiSuffix
            || r == Strip(raw)
            || r in quotes
            || (answer.Some? && r == Strip(answer.value) && 1 <= |r| <= MaxAiTickerLength)
  {
    var name := Strip(raw);
    if IsNumericCode(name) then name + KospiSuffix
    else if IsTickerShaped(name) then name
    else match SearchPick(name, quotes)
      case Some(symbol) => symbol
      case None =>
        match AiPick(name, apiKey, answer)
        case Some(ticker) => ticker
        case None => name
  }

  /** A six-digit code is listed on KOSPI, whatever the lookups would have said,
      and its market code is the code itself. */
  lemma ResolveNumericCode(raw: string, quotes: seq<string>, apiKey: Option<string>, answer: Option<string>)
    requires IsNumericCode(Strip(raw))
    ensures Resolve(raw, quotes, apiKey, answer) == Strip(raw) + ".KS"
    ensures IsKoreanListing(Resolve(raw, quotes, apiKey, answer))
    ensures MarketCode(Resolve(raw, quotes, apiKey, answer)) == Strip(raw)
  {
    var name := Strip(raw);
    assert '.' !in name by {
      forall k | 0 <= k < |name| ensures name[k] != '.' {
        assert IsAsciiDigit(name[k]);
      }
    }
    MarketCodeOfListing(name, KospiSuffix);
  }

  /** An input already shaped like a ticker comes back stripped and otherwise unchanged. */
  lemma ResolveTickerShaped(raw: string, quotes: seq<string>, apiKey: Option<string>, answer: Option<string>)
    requires IsTickerShaped(Strip(raw))
    ensures Resolve(raw, quotes, apiKey, answer) == Strip(raw)
  {
  }

  /** In both shortcut cases neither the search result nor the model's reply
      (nor the key) has any influence on the answer. */
  lemma ShortcutIgnoresLookups(raw: string,
                               quotes: seq<string>, apiKey: Option<string>, answer: Option<string>,
                               quotes': seq<string>, apiKey': Option<string>, answer': Option<string>)
    requires IsShortcut(Strip(raw))
    ensures Resolve(raw, quotes, apiKey, answer) == Resolve(raw, quotes', apiKey', answer')
  {
  }

  /** A ticker produced by a shortcut resolves to itself again. */
  lemma ShortcutIsStable(raw: string, quotes: seq<string>, apiKey: Option<string>, answer: Option<string>,
                         quotes': seq<string>, apiKey': Option<string>, answer': Option<string>)
    requires IsShortcut(Strip(raw))
    ensures var t := Resolve(raw, quotes, apiKey, answer);
      Resolve(t, quotes', apiKey', answer') == t
  {
    var name := Strip(raw);
    var t := Resolve(raw, quotes, apiKey, answer);
    if IsNumericCode(name) {
      assert t == name + KospiSuffix;
      assert t[|t| - 1] == 'S' && t[0] == name[0];
      assert IsAsciiDigit(name[0]);
      StripTrimmed(t);
      assert t[|name|] == '.';
      assert !IsNumericCode(t) by { assert !IsAsciiDigit(t[|name|]); }
    } else {
      assert t == name;
      StripIdempotent(raw);
    }
  }

  /** For a name containing Hangul, the first search symbol listed on a Korean
      exchange wins, and the model is never consulted. */
  lemma ResolvePrefersKoreanListing(raw: string, quotes: seq<string>, i: nat,
                                    apiKey: Option<string>, answer: Option<string>)
    requires !IsShortcut(Strip(raw)) && HasHangulSyllable(Strip(raw))
    requires i < |quotes| && IsKoreanListing(quotes[i])
    requires forall k :: 0 <= k < i ==> !IsKoreanListing(quotes[k])
    ensures Resolve(raw, quotes, apiKey, answer) == quotes[i]
  {
    var r := FirstKoreanListing(quotes, 0);
    assert r.Some?;
  }

  /** Otherwise a non-empty search result yields its first symbol, and the model
      is never consulted. */
  lemma ResolveTakesFirstSymbol(raw: string, quotes: seq<string>,
                                apiKey: Option<string>, answer: Option<string>)
    requires !IsShortcut(Strip(raw)) && |quotes| > 0
    requires !HasHangulSyllable(Strip(raw)) || forall k :: 0 <= k < |quotes| ==> !IsKoreanListing(quotes[k])
    ensures Resolve(raw, quotes, apiKey, answer) == quotes[0]
  {
  }

  /** With an empty search result the stripped model reply is taken exactly when
      a key is present, the name has more than one character and the stripped
      reply has one to ten characters; otherwise the stripped input comes back. */
  lemma ResolveFromModel(raw: string, apiKey: Option<string>, answer: Option<string>)
    requires !IsShortcut(Strip(raw))
    ensures var t := Resolve(raw, [], apiKey, answer);
      if HasKey(apiKey) && |Strip(raw)| > 1 && answer.Some?
         && 1 <= |Strip(answer.value)| <= MaxAiTickerLength
      then t == Strip(answer.value)
      else t == Strip(raw)
  {
  }
}
