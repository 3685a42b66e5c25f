/** The list endpoint of main.py: every parsed entry is resolved to a Spotify link or to an
    "artist - title" string, the results are kept in entry order with falsy ones dropped, and
    every failure becomes an HTTP 500. The scraper is a parameter: a total function from a URL
    to what the scrape of that URL produced. */
module ListProcessing {
  import opened Wrappers
  import opened ParseHtml
  import Decimal

  /** What scraping one URL produced: the text of the exception it raised, or the page. */
  datatype Fetch = ScrapeFailed(error: string) | Scraped(doc: Document)

  /** The endpoint's outcome: the success body, or the HTTPException it raised. */
  datatype Response = Processed(data: seq<string>, message: string) | Raised(status: int, detail: string)

  const InternalErrorPrefix: string := "An internal server error occurred: "
  const NoItemsDetail: string :=
    "No items found on the list page. The page might be empty or a CAPTCHA was not solved."
  const SuccessPrefix: string := "Successfully processed "
  const SuccessSuffix: string := " items."

  /** Python truthiness of an optional string: present and not empty. */
  predicate Truthy(s: Option<string>) {
    s.Some? && s.value != ""
  }

  /** The entries that are looked up on the web: albums with a truthy `title_link`. */
  predicate IsLinkedAlbum(item: Item) {
    item.kind == AlbumType && Truthy(item.titleLink)
  }

  /** The entries `process_item` resolves to something: linked albums and songs. */
  predicate IsResolvable(item: Item) {
    IsLinkedAlbum(item) || item.kind == SongType
  }

  /** The "artist - title" text that stands for an entry without a link. */
  function Fallback(item: Item): string {
    item.artist + " - " + item.title
  }

  /** `process_item`: a linked album becomes the truthy Spotify link of its page, or its fallback
      text when the page has none or the scrape raised; a song becomes its fallback text; any
      other entry becomes nothing. */
  function ProcessItem(item: Item, scrape: string -> Fetch): (r: Option<string>)
    ensures r.Some? <==> IsResolvable(item)
    ensures r.Some? ==> r.value != ""
    ensures item.kind == SongType ==> r == Some(Fallback(item))
    ensures IsLinkedAlbum(item) && scrape(item.titleLink.value).ScrapeFailed? ==>
      r == Some(Fallback(item))
    ensures IsLinkedAlbum(item) && scrape(item.titleLink.value).Scraped? ==>
      var link := ParseAlbumPageForSpotifyLink(scrape(item.titleLink.value).doc);
      r == if Truthy(link) then link else Some(Fallback(item))
  {
    if IsLinkedAlbum(item) then
      match scrape(item.titleLink.value)
      case ScrapeFailed(_) => Some(Fallback(item))
      case Scraped(albumHtml) =>
        var spotifyLink := ParseAlbumPageForSpotifyLink(albumHtml);
        if Truthy(spotifyLink) then spotifyLink else Some(Fallback(item))
    else if item.kind == SongType then
      Some(Fallback(item))
    else
      None
  }

  /** `process_item` consults the scraper at the entry's own `title_link` and nowhere else, and
      only for linked albums: two scrapers that agree there give the same result. */
  lemma ProcessItemReadsOnlyItsLink(item: Item, s1: string -> Fetch, s2: string -> Fetch)
    requires IsLinkedAlbum(item) ==> s1(item.titleLink.value) == s2(item.titleLink.value)
    ensures ProcessItem(item, s1) == ProcessItem(item, s2)
  {
  }

  /** The per-entry results, one for each entry, in entry order (what `asyncio.gather` returns). */
  function ResolveAll(items: seq<Item>, scrape: string -> Fetch): (rs: seq<Option<string>>)
    ensures |rs| == |items|
    ensures forall i :: 0 <= i < |items| ==> rs[i] == ProcessItem(items[i], scrape)
  {
    seq(|items|, i requires 0 <= i < |items| => ProcessItem(items[i], scrape))
  }

  /** `[res for res in results if res]`: the truthy results, in their order. */
  function FilterTruthy(rs: seq<Option<string>>): (r: seq<string>)
    ensures |r| <= |rs|
    ensures forall s :: s in r <==> Some(s) in rs && s != ""
  {
    if rs == [] then []
    else if Truthy(rs[0]) then [rs[0].value] + FilterTruthy(rs[1..])
    else FilterTruthy(rs[1..])
  }

  /** Filtering keeps order: the filter of `a + b` is the filter of `a` followed by that of `b`. */
  lemma {:induction false} FilterTruthyAppend(a: seq<Option<string>>, b: seq<Option<string>>)
    ensures FilterTruthy(a + b) == FilterTruthy(a) + FilterTruthy(b)
  {
    if a == [] {
      assert a + b == b;
    } else {
      assert (a + b)[0] == a[0];
      assert (a + b)[1..] == a[1..] + b;
      FilterTruthyAppend(a[1..], b);
    }
  }

  /** When every result is truthy nothing is dropped: the filter just unwraps each result. */
  lemma {:induction false} FilterTruthyKeepsAll(rs: seq<Option<string>>)
    requires forall i :: 0 <= i < |rs| ==> Truthy(rs[i])
    ensures |FilterTruthy(rs)| == |rs|
    ensures forall i :: 0 <= i < |rs| ==> Some(FilterTruthy(rs)[i]) == rs[i]
  {
    if rs != [] {
      assert forall i :: 0 <= i < |rs[1..]| ==> rs[1..][i] == rs[i + 1];
      FilterTruthyKeepsAll(rs[1..]);
    }
  }

  /** The message of a successful response, which reports the number of results. */
  function SuccessMessage(count: nat): string {
    SuccessPrefix + Decimal.FromNat(count) + SuccessSuffix
  }

  /** The count a success message reports, read back out of its text. */
  function ReportedCount(message: string): nat {
    if |message| >= |SuccessPrefix| + |SuccessSuffix| then
      Decimal.ToNat(message[|SuccessPrefix|..|message| - |SuccessSuffix|])
    else 0
  }

  /** The success message states its count faithfully: reading it back gives the count. */
  lemma SuccessMessageReportsCount(count: nat)
    ensures ReportedCount(SuccessMessage(count)) == count
  {
    var m := SuccessMessage(count);
    assert m[|SuccessPrefix|..|m| - |SuccessSuffix|] == Decimal.FromNat(count);
    Decimal.RoundTrip(count);
  }

  /** The text of an exception raised while parsing the list, as `str()` renders it. */
  function ParseErrorText(e: ParseError): string {
    match e
    case NoTbody => "'NoneType' object has no attribute 'find_all'"
    case MissingHref => "'href'"
  }

  /** The catch-all handler: any exception becomes a 500 whose detail embeds its text. */
  function InternalError(text: string): (r: Response)
    ensures r.Raised? && r.status == 500
    ensures InternalErrorPrefix <= r.detail && r.detail[|InternalErrorPrefix|..] == text
  {
    Raised(500, InternalErrorPrefix + text)
  }

  /** `process_rym_list`: scrape and parse the list, refuse an empty one, resolve every entry,
      keep the truthy results in order and report how many there are. */
  function ProcessRymList(url: string, scrape: string -> Fetch): (r: Response)
    ensures r.Raised? ==> r.status == 500 && InternalErrorPrefix <= r.detail
    ensures r.Processed? <==>
      scrape(url).Scraped? && ListItems(scrape(url).doc).Success? && ListItems(scrape(url).doc).value != []
    ensures r.Processed? ==>
      r.data == FilterTruthy(ResolveAll(ListItems(scrape(url).doc).value, scrape))
    ensures r.Processed? ==> r.message == SuccessMessage(|r.data|)
    ensures scrape(url).ScrapeFailed? ==> r == InternalError(scrape(url).error)
    ensures scrape(url).Scraped? && ListItems(scrape(url).doc).Failure? ==>
      r == InternalError(ParseErrorText(ListItems(scrape(url).doc).error))
    ensures scrape(url).Scraped? && ListItems(scrape(url).doc) == Success([]) ==>
      r == InternalError("404: " + NoItemsDetail)
  {
    match scrape(url)
    case ScrapeFailed(e) => InternalError(e)
    case Scraped(listHtml) =>
      match ListItems(listHtml)
      case Failure(e) => InternalError(ParseErrorText(e))
      case Success(items) =>
        if items == [] then
          InternalError("404: " + NoItemsDetail)
        else
          var finalList := FilterTruthy(ResolveAll(items, scrape));
          Processed(finalList, SuccessMessage(|finalList|))
  }

  /** The data of a successful response never outnumbers the parsed entries, and matches them one
      for one, in order, when every entry is a linked album or a song. */
  lemma ProcessedDataMatchesItems(url: string, scrape: string -> Fetch)
    requires ProcessRymList(url, scrape).Processed?
    ensures var items := ListItems(scrape(url).doc).value;
      && |ProcessRymList(url, scrape).data| <= |items|
      && ((forall i :: 0 <= i < |items| ==> IsResolvable(items[i])) ==>
           && |ProcessRymList(url, scrape).data| == |items|
           && forall i :: 0 <= i < |items| ==>
                Some(ProcessRymList(url, scrape).data[i]) == ProcessItem(items[i], scrape))
  {
    var items := ListItems(scrape(url).doc).value;
    var rs := ResolveAll(items, scrape);
    if forall i :: 0 <= i < |items| ==> IsResolvable(items[i]) {
      FilterTruthyKeepsAll(rs);
    }
  }

  /** Every entry the list parser emits is resolvable, so on a successful response no entry was
      dropped by the falsy filter: there is one result per parsed entry. */
  lemma ParsedItemsAreNeverDropped(url: string, scrape: string -> Fetch)
    requires ProcessRymList(url, scrape).Processed?
    ensures |ProcessRymList(url, scrape).data| == |ListItems(scrape(url).doc).value|
  {
    var items := ListItems(scrape(url).doc).value;
    forall i | 0 <= i < |items| ensures IsResolvable(items[i]) {
      assert WellFormed(items[i]);
      if items[i].kind == AlbumType {
        assert BaseUrl <= items[i].titleLink.value;
        assert |items[i].titleLink.value| >= |BaseUrl|;
      }
    }
    ProcessedDataMatchesItems(url, scrape);
  }

  /** Every string in a successful response is either the Spotify link of some linked album's
      page or the fallback text of some resolvable entry. */
  lemma ProcessedDataComesFromItems(url: string, scrape: string -> Fetch, s: string)
    requires ProcessRymList(url, scrape).Processed?
    requires s in ProcessRymList(url, scrape).data
    ensures var items := ListItems(scrape(url).doc).value;
      exists i :: 0 <= i < |items| && IsResolvable(items[i]) && ProcessItem(items[i], scrape) == Some(s)
  {
  }
}

/** A worked list: two albums and a song. The first album's page carries a Spotify link, the
    second album's scrape raises; the response keeps the entry order. */
module ListProcessingExample {
  import opened Wrappers
  import opened ParseHtml
  import opened ListProcessing

  function AlbumRow(artist: string, title: string, href: string): Row {
    Row(Some(MainEntry(
      Some(ArtistHeading(Some(Anchor(artist, None)))),
      Some(AlbumHeading(Some(Anchor(title, Some(href))))),
      None, None)))
  }

  function SongRow(artist: string, title: string): Row {
    Row(Some(MainEntry(
      None, None,
      Some(SongHeading(Some(Anchor(title, None)))),
      Some(SongHeading(Some(Anchor(artist, None)))))))
  }

  const ListUrl: string := "https://rateyourmusic.com/list/u/l/"
  const ListPage: Document :=
    Document(Some(Table(Some([AlbumRow("A", "X", "/a"), Row(None), AlbumRow("B", "Y", "/b"),
                              SongRow("C", "Z")]))), None)

  /** The list page at its URL; the first album page with link "L"; every other scrape raises. */
  function Web(url: string): Fetch {
    if url == ListUrl then Scraped(ListPage)
    else if url == BaseUrl + "/a" then Scraped(Document(None, Some(Anchor("Spotify", Some("L")))))
    else ScrapeFailed("timeout")
  }

  const ExampleItems: seq<Item> :=
    [Item(AlbumType, "A", "X", Some(BaseUrl + "/a")),
     Item(AlbumType, "B", "Y", Some(BaseUrl + "/b")),
     Item(SongType, "C", "Z", None)]

  /** The list page yields its three entries; the row without a main-entry cell is skipped. */
  lemma ExampleParse()
    ensures ListItems(ListPage) == Success(ExampleItems)
  {
    var rows := ListPage.userList.value.tbody.value;
    var items := ExampleItems;
    assert ClassifyRow(rows[0]) == Emitted(items[0]);
    assert ClassifyRow(rows[1]) == Skipped;
    assert ClassifyRow(rows[2]) == Emitted(items[1]);
    assert ClassifyRow(rows[3]) == Emitted(items[2]);
    assert rows == [rows[0]] + [rows[1]] + [rows[2]] + [rows[3]];
    ItemsOfSingle(rows[0]);
    ItemsOfSingle(rows[1]);
    ItemsOfSingle(rows[2]);
    ItemsOfSingle(rows[3]);
    ItemsOfAppend([rows[0]], [rows[1]]);
    ItemsOfAppend([rows[0]] + [rows[1]], [rows[2]]);
    ItemsOfAppend([rows[0]] + [rows[1]] + [rows[2]], [rows[3]]);
    assert [items[0]] + [] + [items[1]] + [items[2]] == items;
  }

  /** The first album resolves to its link, the second falls back, the song falls back. */
  lemma ExampleResolve()
    ensures ResolveAll(ExampleItems, Web) == [Some("L"), Some("B - Y"), Some("C - Z")]
  {
    var items := ExampleItems;
    assert BaseUrl + "/b" != BaseUrl + "/a" by {
      assert (BaseUrl + "/b")[|BaseUrl| + 1] != (BaseUrl + "/a")[|BaseUrl| + 1];
    }
    assert BaseUrl + "/b" != ListUrl by {
      assert (BaseUrl + "/b")[|BaseUrl| + 1] != ListUrl[|BaseUrl| + 1];
    }
    assert BaseUrl + "/a" != ListUrl by {
      assert (BaseUrl + "/a")[|BaseUrl| + 1] != ListUrl[|BaseUrl| + 1];
    }
    var rs := ResolveAll(items, Web);
    assert rs[0] == Some("L");
    assert rs[1] == Some("B - Y") by { assert Fallback(items[1]) == "B - Y"; }
    assert rs[2] == Some("C - Z") by { assert Fallback(items[2]) == "C - Z"; }
  }

  /** The response lists the link and the two fallback texts, in list order, and counts three. */
  lemma ExampleResponse()
    ensures ProcessRymList(ListUrl, Web) == Processed(["L", "B - Y", "C - Z"], SuccessMessage(3))
  {
    ExampleParse();
    ExampleResolve();
    FilterTruthyKeepsAll(ResolveAll(ExampleItems, Web));
  }
}
