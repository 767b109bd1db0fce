/** The records of a case export and the extractors that turn the parsed rows
    of each record file into tables (src/hunchly.ts, lines 8-28 and 248-368).
    Reading the file and `JSON.parse` are not modelled: a file arrives as a
    `Payload`, which is either unreadable (missing, unreadable or not JSON), a
    JSON value that is not an array, or an array of rows. */
module Records {
  import opened Tables

  datatype Page = Page(title: string, url: string, date: string, hash: string)

  datatype Note = Note(note: string, date: string, pageid: int)

  datatype Photo = Photo(caption: string, date: string, pageid: int, photourl: string, photohash: string, photopath: string)

  datatype Payload<T> = Unreadable | NotAnArray | Rows(items: seq<T>)

  /** A row of `pages.json`: `id`, `title`, `url`, `timestamp_created`, `content_hash`. */
  datatype PageRow = PageRow(id: int, title: string, url: string, timestampCreated: string, contentHash: string)

  /** A row of `notes.json`: `ID`, `Note`, `NoteDate`, `PageId`. */
  datatype NoteRow = NoteRow(id: int, note: string, noteDate: string, pageId: int)

  /** A row of `tagged_photos.json`: `ID`, `Caption`, `PhotoTimestamp`, `PageId`, `PhotoUrl`, `PhotoHash`, `LocalFile`. */
  datatype PhotoRow = PhotoRow(id: int, caption: string, photoTimestamp: string, pageId: int,
                               photoUrl: string, photoHash: string, localFile: string)

  /** A row of `selectors.json`: `ID`, `Selector`. */
  datatype SelectorRow = SelectorRow(id: int, selector: string)

  /** A row of `selector_hits.json`: `PageID`, `SelectorID`. */
  datatype HitRow = HitRow(pageId: int, selectorId: int)

  function PageEntries(rows: seq<PageRow>): seq<(int, Page)> {
    seq(|rows|, i requires 0 <= i < |rows| =>
      (rows[i].id, Page(rows[i].title, rows[i].url, rows[i].timestampCreated, rows[i].contentHash)))
  }

  function NoteEntries(rows: seq<NoteRow>): seq<(int, Note)> {
    seq(|rows|, i requires 0 <= i < |rows| =>
      (rows[i].id, Note(rows[i].note, rows[i].noteDate, rows[i].pageId)))
  }

  function PhotoEntries(rows: seq<PhotoRow>): seq<(int, Photo)> {
    seq(|rows|, i requires 0 <= i < |rows| =>
      (rows[i].id, Photo(rows[i].caption, rows[i].photoTimestamp, rows[i].pageId,
                         rows[i].photoUrl, rows[i].photoHash, rows[i].localFile)))
  }

  function SelectorEntries(rows: seq<SelectorRow>): seq<(int, string)> {
    seq(|rows|, i requires 0 <= i < |rows| => (rows[i].id, rows[i].selector))
  }

  /** The table an extractor returns: empty unless the file is an array of rows. */
  function TableOf<R, V>(file: Payload<R>, entries: seq<R> -> seq<(int, V)>): Table<V> {
    match file
    case Rows(items) => Build(entries(items))
    case _ => Empty()
  }

  function PagesTable(file: Payload<PageRow>): Table<Page> { TableOf(file, PageEntries) }
  function NotesTable(file: Payload<NoteRow>): Table<Note> { TableOf(file, NoteEntries) }
  function PhotosTable(file: Payload<PhotoRow>): Table<Photo> { TableOf(file, PhotoEntries) }
  function SelectorsTable(file: Payload<SelectorRow>): Table<string> { TableOf(file, SelectorEntries) }

  /** `extractPages`: one entry per page id, the last row for an id winning. */
  method ExtractPages(file: Payload<PageRow>) returns (results: Table<Page>)
    ensures results == PagesTable(file)
  {
    results := Empty();
    if file.Rows? {
      var items := file.items;
      for i := 0 to |items|
        invariant results == Build(PageEntries(items)[..i])
      {
        var item := items[i];
        var temp := Page(item.title, item.url, item.timestampCreated, item.contentHash);
        assert PageEntries(items)[..i + 1][..i] == PageEntries(items)[..i];
        results := results.Set(item.id, temp);
      }
      assert PageEntries(items)[..|items|] == PageEntries(items);
    }
  }

  /** `extractNotes`. */
  method ExtractNotes(file: Payload<NoteRow>) returns (results: Table<Note>)
    ensures results == NotesTable(file)
  {
    results := Empty();
    if file.Rows? {
      var items := file.items;
      for i := 0 to |items|
        invariant results == Build(NoteEntries(items)[..i])
      {
        var item := items[i];
        var temp := Note(item.note, item.noteDate, item.pageId);
        assert NoteEntries(items)[..i + 1][..i] == NoteEntries(items)[..i];
        results := results.Set(item.id, temp);
      }
      assert NoteEntries(items)[..|items|] == NoteEntries(items);
    }
  }

  /** `extractPhotos`. */
  method ExtractPhotos(file: Payload<PhotoRow>) returns (results: Table<Photo>)
    ensures results == PhotosTable(file)
  {
    results := Empty();
    if file.Rows? {
      var items := file.items;
      for i := 0 to |items|
        invariant results == Build(PhotoEntries(items)[..i])
      {
        var item := items[i];
        var temp := Photo(item.caption, item.photoTimestamp, item.pageId, item.photoUrl, item.photoHash, item.localFile);
        assert PhotoEntries(items)[..i + 1][..i] == PhotoEntries(items)[..i];
        results := results.Set(item.id, temp);
      }
      assert PhotoEntries(items)[..|items|] == PhotoEntries(items);
    }
  }

  /** `extractSelectors`: selector id to label. */
  method ExtractSelectors(file: Payload<SelectorRow>) returns (results: Table<string>)
    ensures results == SelectorsTable(file)
  {
    results := Empty();
    if file.Rows? {
      var items := file.items;
      for i := 0 to |items|
        invariant results == Build(SelectorEntries(items)[..i])
      {
        var item := items[i];
        assert SelectorEntries(items)[..i + 1][..i] == SelectorEntries(items)[..i];
        results := results.Set(item.id, item.selector);
      }
      assert SelectorEntries(items)[..|items|] == SelectorEntries(items);
    }
  }

  /** The selector ids of the hits on page `p`, in row order. */
  function HitsOn(rows: seq<HitRow>, p: int): seq<int>
    decreases |rows|
  {
    if rows == [] then []
    else HitsOn(rows[..|rows| - 1], p)
         + (if rows[|rows| - 1].pageId == p then [rows[|rows| - 1].selectorId] else [])
  }

  /** The grouping `extractSelectorsHits` performs: a row for a page already
      present extends its list, any other row starts one. */
  function GroupHits(rows: seq<HitRow>): Table<seq<int>>
    decreases |rows|
  {
    if rows == [] then Empty()
    else
      var groups := GroupHits(rows[..|rows| - 1]);
      var hit := rows[|rows| - 1];
      if hit.pageId in groups.entries then groups.Set(hit.pageId, groups.entries[hit.pageId] + [hit.selectorId])
      else groups.Set(hit.pageId, [hit.selectorId])
  }

  function HitsTable(file: Payload<HitRow>): Table<seq<int>> {
    match file
    case Rows(items) => GroupHits(items)
    case _ => Empty()
  }

  /** Grouping loses and reorders nothing: a page has a list exactly when some
      row names it, and that list is the selector ids of its rows in file order. */
  lemma {:induction false} GroupHitsByPage(rows: seq<HitRow>, p: int)
    ensures p in GroupHits(rows).entries <==> HitsOn(rows, p) != []
    ensures p in GroupHits(rows).entries ==> GroupHits(rows).entries[p] == HitsOn(rows, p)
    decreases |rows|
  {
    if rows != [] {
      GroupHitsByPage(rows[..|rows| - 1], p);
    }
  }

  /** `extractSelectorsHits`. */
  method ExtractSelectorsHits(file: Payload<HitRow>) returns (results: Table<seq<int>>)
    ensures results == HitsTable(file)
  {
    results := Empty();
    if file.Rows? {
      var items := file.items;
      for i := 0 to |items|
        invariant results == GroupHits(items[..i])
      {
        var item := items[i];
        assert items[..i + 1][..i] == items[..i];
        if item.pageId in results.entries {
          var temp := results.entries[item.pageId];
          temp := temp + [item.selectorId];
          results := results.Set(item.pageId, temp);
        } else {
          results := results.Set(item.pageId, [item.selectorId]);
        }
      }
      assert items[..|items|] == items;
    }
  }
}
