# rym2spotify list processing, modelled in Dafny

rym2spotify turns a Rate Your Music user list into a list of Spotify links. One HTTP endpoint
(`process_rym_list` in main.py) scrapes the list page and parses it into album and song entries
(src/parse_html.py). It then resolves every entry. An album that has a detail link is looked up
on its own page for a Spotify link. It falls back to the text "artist - title" when the page has
no link or the lookup raises. A song always becomes "artist - title". The endpoint returns the
truthy results in list order with a count, or an HTTP 500 for any failure.

This project models that pipeline and proves its properties:

- `ParseHtml` (parse_html.dfy) models the decision rules of both parsers. It works on an abstract
  `Document`: the first `table#user_list`, its optional `tbody` and rows, and the first
  `a.spotify_link`. Each row is reduced to the elements the parser looks for in its
  `td.main_entry` cell. The list parser is a method with a loop, as in the source. It is proved
  equal to the recursive specification `ItemsOf` over the rows. Lemmas about `ItemsOf` cover:
  - order (`ItemsOfAppend`);
  - skipped rows (`SkippedRowIsInvisible`);
  - when the parse fails (`ItemsOfFails`);
  - one item per row (`EveryRowEmits`).
- `ListProcessing` (main.dfy) models `process_item` and `process_rym_list` as functions. The
  scraper is a parameter: a total function from a URL to a `Fetch`, which is either the page or
  the text of the exception the scrape raised.
- `Decimal` (decimal.dfy) renders the count in the success message and reads it back.
- `ListProcessingExample` (main.dfy) works through one list end to end: two albums, a row
  without a main-entry cell, and a song.

The endpoint does all its work within the request and answers with the result or a 500. Every
album entry with a link is looked up. Two behaviours follow from the source as written:

- An empty item list raises a 404 inside the `try`. The catch-all handler turns it into a 500
  whose detail embeds the rendering "404: No items found …".
- A failed scrape of the list page and an exception from the list parser also give a 500.

## Model

| member | source | states |
|---|---|---|
| ParseHtml.ParseAlbumPageForSpotifyLink | src/parse_html.py:3-9 | a link is returned exactly when the first `a.spotify_link` exists and has an `href`, and it is that `href` unchanged (possibly empty) |
| ParseHtml.ClassifyRow | src/parse_html.py:22-55 | a row without a main-entry cell gives nothing; the album pattern wins over the song pattern; an album carries the artist text, the album text and `https://rateyourmusic.com` + href; an album anchor without `href` raises; a song needs both headings and an `a` in each, and carries title and artist but no link |
| ParseHtml.ItemsOf | src/parse_html.py:22-57 | the parsed items number at most the rows; every item is a well-formed album (link on the site's origin) or song (no link); the only error a row can raise is the missing `href` |
| ParseHtml.ListItems | src/parse_html.py:11-20 | a page without `table#user_list` yields an empty list; a table without `tbody` raises instead of yielding an empty list |
| ParseHtml.ItemsOfSingle | src/parse_html.py:22-55 | one row contributes exactly its own item, nothing, or its failure |
| ParseHtml.ItemsOfAppend | src/parse_html.py:22-57 | output order follows row order: the items of two consecutive stretches of rows are the items of the first followed by those of the second, and the first failure wins |
| ParseHtml.SkippedRowIsInvisible | src/parse_html.py:22-25 | a row that contributes nothing (for one, a row without `td.main_entry`) can be removed from anywhere in the table without changing the result |
| ParseHtml.ItemsOfFails | src/parse_html.py:33-39 | the row loop raises if and only if some row matches the album pattern with an album anchor that has no `href` |
| ParseHtml.EveryRowEmits | src/parse_html.py:22-57 | when every row yields an item, the list holds exactly one item per row, the i-th being the i-th row's |
| ParseHtml.ParseListPageForItems | src/parse_html.py:11-57 | the loop over the rows computes exactly the specification `ListItems` of the document, errors included |
| ListProcessing.ProcessItem | main.py:32-53 | a result exists if and only if the entry is an album with a truthy `title_link` or a song, and it is never empty; a song gives "artist - title"; a linked album gives its page's truthy Spotify link, otherwise "artist - title", including when the scrape raised |
| ListProcessing.ProcessItemReadsOnlyItsLink | main.py:37-41 | the result depends on the scraper only at the entry's own `title_link`, and not at all for entries other than linked albums, so songs never trigger a fetch |
| ListProcessing.ResolveAll | main.py:79-80 | one result per entry, the i-th being `process_item` of the i-th entry |
| ListProcessing.FilterTruthy | main.py:83 | the filtered list is no longer than the results; a string is in it if and only if it is a present, non-empty result |
| ListProcessing.FilterTruthyAppend | main.py:83 | filtering keeps order: filtering a concatenation concatenates the filtered parts |
| ListProcessing.FilterTruthyKeepsAll | main.py:83 | when every result is truthy, filtering drops nothing and keeps each result in place |
| ListProcessing.InternalError | main.py:88-90 | every caught exception becomes status 500 with the detail "An internal server error occurred: " followed by the exception's text |
| ListProcessing.ProcessRymList | main.py:57-90 | the response succeeds if and only if the list scrape succeeds and parses to a non-empty list; its data is the filtered per-entry results in entry order, and its message reports their number; a failed scrape, a parse error and an empty list each give a 500, the last with the embedded "404: No items found …" text |
| ListProcessing.SuccessMessageReportsCount | main.py:86 | the count written into the success message reads back as the number of returned items |
| ListProcessing.ProcessedDataMatchesItems | main.py:79-86 | a successful response has at most as many strings as parsed entries, and exactly one per entry, in order, when every entry is a linked album or a song |
| ListProcessing.ParsedItemsAreNeverDropped | main.py:79-83 | every entry the list parser emits resolves to a non-empty string, so the falsy filter never drops one: one result per parsed entry |
| ListProcessing.ProcessedDataComesFromItems | main.py:79-83 | every returned string is the resolution of some parsed entry that is a linked album or a song |
| Decimal.FromNat | main.py:86 | the rendered count is a non-empty string of digits without a leading zero |
| Decimal.RoundTrip | main.py:86 | reading the rendered count gives back the count |
| Decimal.FromNatInjective | main.py:86 | distinct counts are rendered differently |
| ListProcessingExample.ExampleParse | src/parse_html.py:22-57 | the example list page (two albums, a row without a main-entry cell, a song) parses to its three entries in order |
| ListProcessingExample.ExampleResolve | main.py:32-53 | in the example, the first album resolves to its page's link, the album whose scrape raises falls back, and the song falls back |
| ListProcessingExample.ExampleResponse | main.py:57-90 | the example response is the link and the two fallback texts, in list order, with the count 3 |

## Left out

- The scrape itself (src/scrape.py: browser automation, the fixed wait, the profile directory and its cleanup) is not part of this model. It is the scraper parameter, which gives either a page or the text of the exception it raised.
- Scrape outcomes are fixed per URL: the scraper parameter is a function of the URL, so every scrape of the same URL has the same outcome, and two entries with the same `title_link` resolve alike. In the source every call starts a fresh browser and waits a fixed time, so two scrapes of one URL can differ (one times out, the other succeeds).
- The concurrency of `run_in_executor` and `asyncio.gather` is not modelled. The entries are resolved as an in-order map, since `gather` returns the results in the order of its arguments.
- The FastAPI application, the CORS middleware and the pydantic `HttpUrl` validation are not modelled. The URL reaches the scraper as an opaque string, and a request body that fails validation is not modelled.
- HTML parsing and `get_text(strip=True)` are not modelled. A document is given as the elements the parsers find, with texts already stripped. The fields of a main-entry cell are independent, so the model does not tie the first `h2` to `h2.list_song` when they are the same element.
- ListProcessing.ProcessItem: it takes entries as records with all four fields. A dictionary missing `artist` or `title` raises a KeyError in the source, which is not modelled. The list parser never produces such a dictionary. A missing `type` key behaves like any type other than "album" or "song".
- ListProcessing.ProcessItem: it models no exception from the album-page parser. In the source, the `except` at main.py:48 would also absorb such an exception, but only a failed scrape reaches it here.
- The logging with `print` is not modelled.
- The texts of the parser's exceptions, in `ParseErrorText`, follow CPython's messages for an AttributeError on `None` and a KeyError on `'href'`. The "404: …" text follows Starlette's rendering of an HTTPException as a string.
- run.py (the process launcher) is not part of this model.
