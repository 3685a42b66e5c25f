/** The decision rules of the two page parsers in src/parse_html.py, over an abstract view of
    an HTML document: the parts that BeautifulSoup's `find` calls would return. Texts are taken
    as already stripped of surrounding whitespace. */
module ParseHtml {
  import opened Wrappers

  /** Origin prepended to every album link found on a list page. */
  const BaseUrl: string := "https://rateyourmusic.com"

  const AlbumType: string := "album"
  const SongType: string := "song"

  /** An `a` element: its stripped text and its `href` attribute, when it has one. */
  datatype Anchor = Anchor(text: string, href: Option<string>)

  /** The first `h2` of a main-entry cell, seen through its first `a.list_artist`. */
  datatype ArtistHeading = ArtistHeading(listArtist: Option<Anchor>)

  /** The first `h3` of a main-entry cell, seen through its first `a.list_album`. */
  datatype AlbumHeading = AlbumHeading(listAlbum: Option<Anchor>)

  /** An `h2.list_song` or `h3.list_song_artists`, seen through the first `a` inside it. */
  datatype SongHeading = SongHeading(firstLink: Option<Anchor>)

  /** A `td.main_entry` cell, through the four elements the list parser looks for in it. */
  datatype MainEntry = MainEntry(
    h2: Option<ArtistHeading>,
    h3: Option<AlbumHeading>,
    songH2: Option<SongHeading>,
    songArtistsH3: Option<SongHeading>)

  /** A `tr` of the list table, through its first `td.main_entry`. */
  datatype Row = Row(mainEntry: Option<MainEntry>)

  /** The `table#user_list`, through its `tbody` and that body's rows in document order. */
  datatype Table = Table(tbody: Option<seq<Row>>)

  /** A scraped page: its first `table#user_list` and its first `a.spotify_link`. The same view
      serves for list pages and album pages, since both come from the same scraper. */
  datatype Document = Document(userList: Option<Table>, spotifyLink: Option<Anchor>)

  /** One list entry. The source builds it as a dictionary with the keys `type`, `artist`,
      `title` and, for albums only, `title_link`. */
  datatype Item = Item(kind: string, artist: string, title: string, titleLink: Option<string>)

  /** The exceptions the list parser raises: `find_all` called on the missing `tbody`
      (an AttributeError), and `['href']` on an album anchor without one (a KeyError). */
  datatype ParseError = NoTbody | MissingHref

  /** What one row contributes to the list. */
  datatype RowResult = Skipped | Emitted(item: Item) | Failed(error: ParseError)

  /** `parse_album_page_for_spotify_link`: the `href` of the first `a.spotify_link`, and nothing
      when there is no such anchor or it carries no `href`. The `href` is returned as it stands,
      even when it is empty. */
  function ParseAlbumPageForSpotifyLink(doc: Document): (r: Option<string>)
    ensures r.Some? <==> doc.spotifyLink.Some? && doc.spotifyLink.value.href.Some?
    ensures r.Some? ==> r == doc.spotifyLink.value.href
  {
    match doc.spotifyLink
    case Some(tag) => if tag.href.Some? then Some(tag.href.value) else None
    case None => None
  }

  /** `a.list_artist` inside the cell's first `h2`, if both exist. */
  function ArtistLinkTag(cell: MainEntry): Option<Anchor> {
    if cell.h2.Some? then cell.h2.value.listArtist else None
  }

  /** `a.list_album` inside the cell's first `h3`, if both exist. */
  function AlbumLinkTag(cell: MainEntry): Option<Anchor> {
    if cell.h3.Some? then cell.h3.value.listAlbum else None
  }

  /** The album pattern: an artist link in the first `h2` and an album link in the first `h3`. */
  predicate IsAlbumEntry(cell: MainEntry) {
    ArtistLinkTag(cell).Some? && AlbumLinkTag(cell).Some?
  }

  /** The song pattern: `h2.list_song` and `h3.list_song_artists` both present, each with an `a`. */
  predicate IsSongEntry(cell: MainEntry) {
    && cell.songH2.Some? && cell.songH2.value.firstLink.Some?
    && cell.songArtistsH3.Some? && cell.songArtistsH3.value.firstLink.Some?
  }

  /** The shape of every item the list parser emits: an album whose link is on the site's
      origin, or a song without a link. */
  predicate WellFormed(item: Item) {
    || (item.kind == AlbumType && item.titleLink.Some? && BaseUrl <= item.titleLink.value)
    || (item.kind == SongType && item.titleLink.None?)
  }

  /** What one row contributes: nothing without a main-entry cell; an album when the album
      pattern matches (checked first, so it wins over the song pattern), failing when the album
      anchor has no `href`; otherwise a song when the song pattern matches; otherwise nothing. */
  function ClassifyRow(row: Row): (r: RowResult)
    ensures row.mainEntry.None? ==> r == Skipped
    ensures r.Emitted? ==> WellFormed(r.item)
    ensures r.Failed? <==>
      row.mainEntry.Some? && IsAlbumEntry(row.mainEntry.value)
      && AlbumLinkTag(row.mainEntry.value).value.href.None?
    ensures r.Failed? ==> r.error == MissingHref
    ensures (r.Emitted? && r.item.kind == AlbumType) <==>
      row.mainEntry.Some? && IsAlbumEntry(row.mainEntry.value)
      && AlbumLinkTag(row.mainEntry.value).value.href.Some?
    ensures (r.Emitted? && r.item.kind == SongType) <==>
      row.mainEntry.Some? && !IsAlbumEntry(row.mainEntry.value) && IsSongEntry(row.mainEntry.value)
    ensures r.Emitted? && r.item.kind == AlbumType ==>
      var cell := row.mainEntry.value;
      && r.item.artist == ArtistLinkTag(cell).value.text
      && r.item.title == AlbumLinkTag(cell).value.text
      && r.item.titleLink == Some(BaseUrl + AlbumLinkTag(cell).value.href.value)
    ensures r.Emitted? && r.item.kind == SongType ==>
      var cell := row.mainEntry.value;
      && r.item.title == cell.songH2.value.firstLink.value.text
      && r.item.artist == cell.songArtistsH3.value.firstLink.value.text
  {
    match row.mainEntry
    case None => Skipped
    case Some(cell) =>
      if IsAlbumEntry(cell) then
        var album := AlbumLinkTag(cell).value;
        if album.href.None? then Failed(MissingHref)
        else Emitted(Item(AlbumType, ArtistLinkTag(cell).value.text, album.text,
                          Some(BaseUrl + album.href.value)))
      else if IsSongEntry(cell) then
        Emitted(Item(SongType, cell.songArtistsH3.value.firstLink.value.text,
                     cell.songH2.value.firstLink.value.text, None))
      else
        Skipped
  }

  /** The items of a sequence of rows, in row order; the first failing row aborts the parse. */
  function ItemsOf(rows: seq<Row>): (r: Result<seq<Item>, ParseError>)
    ensures r.Success? ==> |r.value| <= |rows|
    ensures r.Success? ==> forall k :: 0 <= k < |r.value| ==> WellFormed(r.value[k])
    ensures r.Failure? ==> r.error == MissingHref
  {
    if rows == [] then Success([])
    else
      match ClassifyRow(rows[0])
      case Skipped => ItemsOf(rows[1..])
      case Failed(e) => Failure(e)
      case Emitted(item) =>
        match ItemsOf(rows[1..])
        case Success(rest) => Success([item] + rest)
        case Failure(e) => Failure(e)
  }

  /** The results of two consecutive stretches of rows, joined: the first failure wins. */
  function Join(a: Result<seq<Item>, ParseError>, b: Result<seq<Item>, ParseError>): Result<seq<Item>, ParseError> {
    match a
    case Failure(e) => Failure(e)
    case Success(x) =>
      match b
      case Success(y) => Success(x + y)
      case Failure(e) => Failure(e)
  }

  /** `parse_list_page_for_items`, as a function of the document: no list table gives no
      items, a table without `tbody` raises, and otherwise the rows decide. */
  function ListItems(doc: Document): (r: Result<seq<Item>, ParseError>)
    ensures doc.userList.None? ==> r == Success([])
    ensures doc.userList.Some? && doc.userList.value.tbody.None? ==> r == Failure(NoTbody)
  {
    match doc.userList
    case None => Success([])
    case Some(table) =>
      match table.tbody
      case None => Failure(NoTbody)
      case Some(rows) => ItemsOf(rows)
  }

  /** Row order is kept: the items of `a + b` are those of `a` followed by those of `b`. */
  lemma {:induction false} ItemsOfAppend(a: seq<Row>, b: seq<Row>)
    ensures ItemsOf(a + b) == Join(ItemsOf(a), ItemsOf(b))
  {
    if a != [] {
      assert (a + b)[0] == a[0];
      assert (a + b)[1..] == a[1..] + b;
      ItemsOfAppend(a[1..], b);
      if ClassifyRow(a[0]).Emitted? && ItemsOf(a[1..]).Success? && ItemsOf(b).Success? {
        var x, y := ItemsOf(a[1..]).value, ItemsOf(b).value;
        assert [ClassifyRow(a[0]).item] + (x + y) == ([ClassifyRow(a[0]).item] + x) + y;
      }
    } else {
      assert a + b == b;
      if ItemsOf(b).Success? {
        assert [] + ItemsOf(b).value == ItemsOf(b).value;
      }
    }
  }

  /** A single row contributes its own item, nothing, or its failure. */
  lemma ItemsOfSingle(row: Row)
    ensures ItemsOf([row]) == match ClassifyRow(row)
      case Skipped => Success([])
      case Emitted(item) => Success([item])
      case Failed(e) => Failure(e)
  {
    assert [row][1..] == [];
    if ClassifyRow(row).Emitted? {
      assert [ClassifyRow(row).item] + [] == [ClassifyRow(row).item];
    }
  }

  /** A row that contributes nothing can be dropped from anywhere in the table. */
  lemma SkippedRowIsInvisible(a: seq<Row>, row: Row, b: seq<Row>)
    requires ClassifyRow(row) == Skipped
    ensures ItemsOf(a + [row] + b) == ItemsOf(a + b)
  {
    ItemsOfAppend(a + [row], b);
    ItemsOfAppend(a, [row]);
    ItemsOfAppend(a, b);
    assert ItemsOf([row]) == Success([]) by { assert [row][1..] == []; }
    if ItemsOf(a).Success? {
      assert ItemsOf(a).value + [] == ItemsOf(a).value;
    }
    assert a + [row] + b == (a + [row]) + b;
  }

  /** The parse fails exactly when some row matches the album pattern with an anchor that has
      no `href`. */
  lemma {:induction false} ItemsOfFails(rows: seq<Row>)
    ensures ItemsOf(rows).Failure? <==> exists i :: 0 <= i < |rows| && ClassifyRow(rows[i]).Failed?
  {
    if rows != [] {
      ItemsOfFails(rows[1..]);
      if ItemsOf(rows[1..]).Failure? {
        var i :| 0 <= i < |rows[1..]| && ClassifyRow(rows[1..][i]).Failed?;
        assert ClassifyRow(rows[i + 1]).Failed?;
      }
      if exists i :: 0 <= i < |rows| && ClassifyRow(rows[i]).Failed? {
        var i :| 0 <= i < |rows| && ClassifyRow(rows[i]).Failed?;
        if i > 0 {
          assert ClassifyRow(rows[1..][i - 1]).Failed?;
        }
      }
    }
  }

  /** When every row yields an item, the list has exactly one item per row, each the row's own. */
  lemma {:induction false} EveryRowEmits(rows: seq<Row>)
    requires forall i :: 0 <= i < |rows| ==> ClassifyRow(rows[i]).Emitted?
    ensures ItemsOf(rows).Success?
    ensures |ItemsOf(rows).value| == |rows|
    ensures forall i :: 0 <= i < |rows| ==> ItemsOf(rows).value[i] == ClassifyRow(rows[i]).item
  {
    if rows != [] {
      assert forall i :: 0 <= i < |rows[1..]| ==> ClassifyRow(rows[1..][i]) == ClassifyRow(rows[i + 1]);
      EveryRowEmits(rows[1..]);
    }
  }

  /** The imperative parser of the source: it walks the rows once, appending each row's item. */
  method ParseListPageForItems(doc: Document) returns (r: Result<seq<Item>, ParseError>)
    ensures r == ListItems(doc)
  {
    var results: seq<Item> := [];
    if doc.userList.None? {
      return Success(results);
    }
    var table := doc.userList.value;
    if table.tbody.None? {
      return Failure(NoTbody);
    }
    var rows := table.tbody.value;
    for i := 0 to |rows|
      invariant ItemsOf(rows[..i]) == Success(results)
    {
      ItemsOfAppend(rows[..i], [rows[i]]);
      ItemsOfSingle(rows[i]);
      assert rows[..i + 1] == rows[..i] + [rows[i]];
      assert results + [] == results;
      var row := rows[i];
      if row.mainEntry.None? {
        continue;
      }
      var cell := row.mainEntry.value;
      var artistLinkTag := if cell.h2.Some? then cell.h2.value.listArtist else None;
      var albumLinkTag := if cell.h3.Some? then cell.h3.value.listAlbum else None;
      if artistLinkTag.Some? && albumLinkTag.Some? {
        if albumLinkTag.value.href.None? {
          ItemsOfFails(rows);
          assert ClassifyRow(rows[i]).Failed?;
          return Failure(MissingHref);
        }
        var item := Item(AlbumType, artistLinkTag.value.text, albumLinkTag.value.text,
                         Some(BaseUrl + albumLinkTag.value.href.value));
        results := results + [item];
        continue;
      }
      if cell.songH2.Some? && cell.songArtistsH3.Some? {
        var songLinkTag := cell.songH2.value.firstLink;
        var songArtistLinkTag := cell.songArtistsH3.value.firstLink;
        if songLinkTag.Some? && songArtistLinkTag.Some? {
          var item := Item(SongType, songArtistLinkTag.value.text, songLinkTag.value.text, None);
          results := results + [item];
        }
      }
    }
    assert rows[..|rows|] == rows;
    return Success(results);
  }
}
