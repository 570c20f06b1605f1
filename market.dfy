/** The suffix convention that marks a ticker as listed on a Korean exchange
    (".KS" for KOSPI, ".KQ" for KOSDAQ) and the bare market code that Naver
    Finance pages are keyed by. */
module Market {
  import opened Text

  const KospiSuffix: string := ".KS"
  const KosdaqSuffix: string := ".KQ"

  /** `ticker.endswith(('.KS', '.KQ'))`. */
  predicate IsKoreanListing(ticker: string)
  {
    EndsWith(ticker, KospiSuffix) || EndsWith(ticker, KosdaqSuffix)
  }

  /** `ticker.replace('.KS', '').replace('.KQ', '')`: every ".KS" and then every
      ".KQ" is deleted, wherever it stands in the ticker. */
  function MarketCode(ticker: string): (code: string)
    ensures |code| <= |ticker|
    ensures forall k :: 0 <= k < |code| ==> code[k] in ticker
  {
    RemoveAll(RemoveAll(ticker, KospiSuffix), KosdaqSuffix)
  }

  /** A ticker without a dot is its own market code. */
  lemma MarketCodeOfPlainCode(code: string)
    requires '.' !in code
    ensures MarketCode(code) == code
  {
    RemoveAllKeepsPrefix(code, [], KospiSuffix);
    assert code + [] == code;
    RemoveAllKeepsPrefix(code, [], KosdaqSuffix);
  }

  /** Listing a dot-free code on either Korean exchange and then asking for its
      market code gives the code back. */
  lemma MarketCodeOfListing(code: string, suffix: string)
    requires '.' !in code
    requires suffix == KospiSuffix || suffix == KosdaqSuffix
    ensures IsKoreanListing(code + suffix)
    ensures MarketCode(code + suffix) == code
  {
    assert (code + suffix)[|code + suffix| - |suffix|..] == suffix;
    RemoveAllKeepsPrefix(code, suffix, KospiSuffix);
    RemoveAllKeepsPrefix(code, [], KosdaqSuffix);
    assert code + [] == code;
    if suffix == KospiSuffix {
      assert RemoveAll(suffix, KospiSuffix) == [] by {
        assert StartsWith(suffix, KospiSuffix);
        assert suffix[|KospiSuffix|..] == [];
      }
      assert RemoveAll(code + suffix, KospiSuffix) == code;
    } else {
      assert RemoveAll(suffix, KospiSuffix) == suffix by {
        assert !StartsWith(suffix, KospiSuffix);
        assert !StartsWith(suffix[1..], KospiSuffix);
        assert !StartsWith(suffix[2..], KospiSuffix);
        assert suffix[1..][1..] == suffix[2..];
        assert suffix[2..][1..] == [];
      }
      RemoveAllKeepsPrefix(code, suffix, KosdaqSuffix);
      assert RemoveAll(suffix, KosdaqSuffix) == [] by {
        assert StartsWith(suffix, KosdaqSuffix);
        assert suffix[|KosdaqSuffix|..] == [];
      }
    }
  }
}
