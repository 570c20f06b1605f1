/** `fetch_news` and `_fetch_naver_news`: a Korean listing takes its headlines
    from the Naver Finance news page of its market code; any other ticker takes
    the provider's news feed, or the symbol search's news when that feed is
    empty. Records of either source are flattened to a title and a link, and
    at most five are kept. */
module News {
  import opened Wrappers
  import opened Text
  import opened Market

  const MaxItems: nat := 5
  const NoTitle: string := "No Title"
  const NoLink: string := "#"
  const NaverOrigin: string := "https://finance.naver.com"

  /** The keys of a provider news record that the flattening reads; None is a
      missing key. */
  datatype Fields = Fields(title: Option<string>, heading: Option<string>,
                           link: Option<string>, url: Option<string>)

  /** A provider news record: its optional nested `content` record and its own keys. */
  datatype RawItem = RawItem(content: Option<Fields>, fields: Fields)

  /** One headline handed to the page. */
  datatype NewsItem = NewsItem(title: string, link: string)

  /** One anchor `td.title a` of the Naver news page: its stripped text and its
      `href` attribute, None when the anchor has none. */
  datatype Anchor = Anchor(text: string, href: Option<string>)

  function Min(a: nat, b: nat): nat { if a <= b then a else b }

  /** Python truthiness of a looked-up value: present and not the empty string. */
  predicate Truthy(v: Option<string>)
  {
    v.Some? && v.value != ""
  }

  /** `item.get('content', item)`. */
  function Content(item: RawItem): Fields
  {
    if item.content.Some? then item.content.value else item.fields
  }

  /** `content.get('title') or content.get('heading') or item.get('title', 'No Title')`. */
  function ResolvedTitle(item: RawItem): (t: string)
    ensures t == NoTitle
         || Some(t) == Content(item).title || Some(t) == Content(item).heading
         || Some(t) == item.fields.title
    ensures t == "" ==> item.fields.title == Some("")
  {
    var c := Content(item);
    if Truthy(c.title) then c.title.value
    else if Truthy(c.heading) then c.heading.value
    else if item.fields.title.Some? then item.fields.title.value
    else NoTitle
  }

  /** `content.get('link') or content.get('url') or item.get('link', '#')`. */
  function ResolvedLink(item: RawItem): (l: string)
    ensures l == NoLink
         || Some(l) == Content(item).link || Some(l) == Content(item).url
         || Some(l) == item.fields.link
  {
    var c := Content(item);
    if Truthy(c.link) then c.link.value
    else if Truthy(c.url) then c.url.value
    else if item.fields.link.Some? then item.fields.link.value
    else NoLink
  }

  /** The title fallback order: a truthy content title, else a truthy content
      heading, else the record's own title verbatim whenever the key exists
      (even when it is empty), else the placeholder. */
  lemma ResolvedTitleOrder(item: RawItem)
    ensures Truthy(Content(item).title) ==> ResolvedTitle(item) == Content(item).title.value
    ensures !Truthy(Content(item).title) && Truthy(Content(item).heading) ==>
      ResolvedTitle(item) == Content(item).heading.value
    ensures !Truthy(Content(item).title) && !Truthy(Content(item).heading) && item.fields.title.Some? ==>
      ResolvedTitle(item) == item.fields.title.value
    ensures !Truthy(Content(item).title) && !Truthy(Content(item).heading) && item.fields.title.None? ==>
      ResolvedTitle(item) == NoTitle
  {
  }

  /** The link fallback order: a truthy content link, else a truthy content
      url, else the record's own link verbatim whenever the key exists, else "#". */
  lemma ResolvedLinkOrder(item: RawItem)
    ensures Truthy(Content(item).link) ==> ResolvedLink(item) == Content(item).link.value
    ensures !Truthy(Content(item).link) && Truthy(Content(item).url) ==>
      ResolvedLink(item) == Content(item).url.value
    ensures !Truthy(Content(item).link) && !Truthy(Content(item).url) && item.fields.link.Some? ==>
      ResolvedLink(item) == item.fields.link.value
    ensures !Truthy(Content(item).link) && !Truthy(Content(item).url) && item.fields.link.None? ==>
      ResolvedLink(item) == NoLink
  {
  }

  predicate Kept(item: RawItem)
  {
    ResolvedTitle(item) != NoTitle
  }

  function Flattened(item: RawItem): NewsItem
  {
    NewsItem(ResolvedTitle(item), ResolvedLink(item))
  }

  /** The flattened records, in order, of those whose title resolves to
      something other than the placeholder. */
  function Titled(items: seq<RawItem>): (r: seq<NewsItem>)
    ensures |r| <= |items|
    ensures forall n :: n in r ==> n.title != NoTitle
    decreases |items|
  {
    if |items| == 0 then []
    else
      var last := items[|items| - 1];
      Titled(items[..|items| - 1]) + (if Kept(last) then [Flattened(last)] else [])
  }

  /** Filtering commutes with concatenation; together with the one-record case
      this says `Titled` keeps exactly the kept records, in their order. */
  lemma {:induction false} TitledAppend(a: seq<RawItem>, b: seq<RawItem>)
    ensures Titled(a + b) == Titled(a) + Titled(b)
    decreases |b|
  {
    if |b| == 0 {
      assert a + b == a;
    } else {
      var last := b[|b| - 1];
      assert (a + b)[..|a + b| - 1] == a + b[..|b| - 1];
      assert (a + b)[|a + b| - 1] == last;
      TitledAppend(a, b[..|b| - 1]);
    }
  }

  lemma TitledSingle(item: RawItem)
    ensures Titled([item]) == if Kept(item) then [Flattened(item)] else []
  {
  }

  /** The records the provider path processes: None when the feed request
      raised (the whole call then yields nothing); the search's news when the
      feed is empty; nothing when that search raised too. */
  function RawNews(primary: Option<seq<RawItem>>, search: Option<seq<RawItem>>): (r: seq<RawItem>)
    ensures primary.None? ==> r == []
    ensures primary.Some? && primary.value != [] ==> r == primary.value
    ensures primary == Some([]) ==> r == (if search.Some? then search.value else [])
    ensures r != [] ==> primary.Some? && (r == primary.value || (primary.value == [] && search == Some(r)))
  {
    match primary
    case None => []
    case Some(feed) =>
      if |feed| > 0 then feed
      else match search
        case None => []
        case Some(found) => found
  }

  /** The provider path of `fetch_news`: the first five records, flattened and filtered. */
  function ProviderNews(primary: Option<seq<RawItem>>, search: Option<seq<RawItem>>): (r: seq<NewsItem>)
    ensures |r| <= MaxItems
    ensures forall n :: n in r ==> n.title != NoTitle
    ensures var raw := RawNews(primary, search); r == Titled(raw[..Min(|raw|, MaxItems)])
  {
    var raw := RawNews(primary, search);
    Titled(raw[..Min(|raw|, MaxItems)])
  }

  /** The search is consulted only when the provider's own feed is empty. */
  lemma SearchOnlyForEmptyFeed(feed: seq<RawItem>, search: Option<seq<RawItem>>, search': Option<seq<RawItem>>)
    requires |feed| > 0
    ensures ProviderNews(Some(feed), search) == ProviderNews(Some(feed), search')
  {
  }

  /** A record whose only title is an empty `title` key comes through with an
      empty title: only the placeholder is filtered out. */
  lemma EmptyTitlePassesThrough()
    ensures var item := RawItem(None, Fields(Some(""), None, None, None));
      ProviderNews(Some([item]), None) == [NewsItem("", NoLink)]
  {
  }

  /** The loop of `fetch_news` over `raw_news[:5]`. */
  method FlattenNews(raw: seq<RawItem>) returns (news: seq<NewsItem>)
    ensures news == Titled(raw[..Min(|raw|, MaxItems)])
  {
    var items := raw[..Min(|raw|, MaxItems)];
    news := [];
    for i := 0 to |items|
      invariant news == Titled(items[..i])
    {
      var item := items[i];
      var title := ResolvedTitle(item);
      var link := ResolvedLink(item);
      assert items[..i + 1][..i] == items[..i];
      if title != NoTitle {
        news := news + [NewsItem(title, link)];
      }
    }
    assert items[..|items|] == items;
  }

  /** A Naver link made absolute: anything not starting with "http" is a path on
      the Naver Finance origin. */
  function Absolute(href: string): (link: string)
    ensures StartsWith(link, "http")
    ensures StartsWith(href, "http") ==> link == href
    ensures !StartsWith(href, "http") ==> link == NaverOrigin + href
  {
    if StartsWith(href, "http") then href else NaverOrigin + href
  }

  lemma AbsoluteIdempotent(href: string)
    ensures Absolute(Absolute(href)) == Absolute(href)
  {
  }

  predicate AllLinked(anchors: seq<Anchor>)
  {
    forall k :: 0 <= k < |anchors| ==> anchors[k].href.Some?
  }

  /** One headline per anchor, in page order, with its link made absolute. */
  function Linked(anchors: seq<Anchor>): (r: seq<NewsItem>)
    requires AllLinked(anchors)
    ensures |r| == |anchors|
    ensures forall k :: 0 <= k < |r| ==>
      r[k] == NewsItem(anchors[k].text, Absolute(anchors[k].href.value))
    decreases |anchors|
  {
    if |anchors| == 0 then []
    else
      var a := anchors[|anchors| - 1];
      Linked(anchors[..|anchors| - 1]) + [NewsItem(a.text, Absolute(a.href.value))]
  }

  /** The anchors `_fetch_naver_news` visits: it stops after the fifth headline. */
  function FirstAnchors(anchors: seq<Anchor>): (first: seq<Anchor>)
    ensures |first| == Min(|anchors|, MaxItems)
    ensures first == anchors[..|first|]
  {
    anchors[..Min(|anchors|, MaxItems)]
  }

  /** `_fetch_naver_news` once the page is in hand (`page` is None when the
      request raised): the first five anchors as headlines, or nothing at all
      when one of them has no `href`, since the KeyError abandons the list. */
  function NaverNewsOf(page: Option<seq<Anchor>>): (r: seq<NewsItem>)
    ensures |r| <= MaxItems
    ensures forall k :: 0 <= k < |r| ==> StartsWith(r[k].link, "http")
    ensures page.None? ==> r == []
    ensures page.Some? ==>
      var first := FirstAnchors(page.value);
      && (r == [] <==> first == [] || !AllLinked(first))
      && (r != [] ==> |r| == |first| && forall k :: 0 <= k < |r| ==>
            first[k].href.Some? && r[k] == NewsItem(first[k].text, Absolute(first[k].href.value)))
  {
    match page
    case None => []
    case Some(anchors) =>
      var first := FirstAnchors(anchors);
      if AllLinked(first) then Linked(first) else []
  }

  /** `_fetch_naver_news`: nothing when the request raised, else the loop over the anchors. */
  method NaverNews(page: Option<seq<Anchor>>) returns (news: seq<NewsItem>)
    ensures news == NaverNewsOf(page)
  {
    if page.None? {
      return [];
    }
    news := LinkAnchors(page.value);
  }

  /** The loop of `_fetch_naver_news`: one headline per anchor, stopping after
      the fifth; an anchor without `href` raises and the result is empty. */
  method LinkAnchors(anchors: seq<Anchor>) returns (news: seq<NewsItem>)
    ensures var first := FirstAnchors(anchors);
      news == if AllLinked(first) then Linked(first) else []
  {
    ghost var first := FirstAnchors(anchors);
    news := [];
    var i := 0;
    while i < |anchors|
      invariant 0 <= i <= |anchors| && i < MaxItems
      invariant AllLinked(anchors[..i])
      invariant news == Linked(anchors[..i])
    {
      var href := anchors[i].href;
      if href.None? {
        assert first[i] == anchors[i];
        return [];
      }
      assert anchors[..i + 1][..i] == anchors[..i];
      news := news + [NewsItem(anchors[i].text, Absolute(href.value))];
      if |news| >= MaxItems {
        assert anchors[..i + 1] == first;
        return;
      }
      i := i + 1;
    }
    assert anchors[..i] == first;
  }

  /** `fetch_news(ticker)`: Korean listings go to the Naver page of their market
      code only; every other ticker goes to the provider path only. `newsPage`
      maps a market code to the anchors of its news page; `primary` is the
      provider's feed and `search` the symbol search's news (None when the
      request raised). */
  method FetchNews(ticker: string, newsPage: string -> Option<seq<Anchor>>,
                   primary: Option<seq<RawItem>>, search: Option<seq<RawItem>>)
    returns (news: seq<NewsItem>)
    ensures IsKoreanListing(ticker) ==> news == NaverNewsOf(newsPage(MarketCode(ticker)))
    ensures !IsKoreanListing(ticker) ==> news == ProviderNews(primary, search)
  {
    if IsKoreanListing(ticker) {
      news := NaverNews(newsPage(MarketCode(ticker)));
      return;
    }
    if primary.None? {
      return [];
    }
    var raw := primary.value;
    if raw == [] && search.Some? {
      raw := search.value;
    }
    news := FlattenNews(raw);
  }
}
