/** The importer proper (src/hunchly.ts:32-233): each note and each tagged
    photo whose page is known becomes Markdown in the vault's
    `hunchly_notes` folder. A record either creates the document named after
    its page title, category and id, with a header of frontmatter and
    selector tags, or (when consolidating and its page URL already has a
    document in this category) appends its body to that document.

    `Step` and `Run` state what one record and a sequence of records do to
    the vault and the URL map; the class `Hunchly` carries the importer's
    loops, each proved to compute `Run`. */
module Import {
  import opened Strings
  import opened Names
  import opened Tables
  import opened Records
  import opened Content
  import opened Vaults

  /** A record that becomes part of a document: a note or a tagged photo. */
  datatype Record = NoteRecord(note: Note) | PhotoRecord(photo: Photo) {

    function Kind(): Category {
      match this
      case NoteRecord(_) => NotesCategory
      case PhotoRecord(_) => PhotosCategory
    }

    function PageId(): int {
      match this
      case NoteRecord(n) => n.pageid
      case PhotoRecord(p) => p.pageid
    }

    /** The text that goes through the wikilink pass: a note's text or a photo's caption. */
    function Text(): string {
      match this
      case NoteRecord(n) => n.note
      case PhotoRecord(p) => p.caption
    }
  }

  /** A record with the id it is keyed by in its table. */
  datatype Item = Item(key: int, record: Record)

  /** What a run of the importer reads besides the records: the page, selector
      and selector-hit tables, the image files present in the extracted
      export (as `<folder>/<file name>` paths), the vault folder chosen for
      the import, and the consolidate setting. */
  datatype Context = Context(pages: Table<Page>, selectors: Table<string>, hits: Table<seq<int>>,
                             extracted: set<string>, location: string, consolidate: bool)

  /** The vault and the URL map of the category being processed. */
  datatype RunState = RunState(vault: VaultState, urlMap: map<string, string>)

  const NOTES_FOLDER: string := "hunchly_notes"

  /** `path.join` of two segments, without normalisation. */
  function JoinPath(a: string, b: string): string {
    if a == "" then b else a + "/" + b
  }

  /** The vault path of the document called `name`. */
  function DocPath(location: string, name: string): string {
    JoinPath(JoinPath(location, NOTES_FOLDER), name)
  }

  /** The record's page is in the page table. */
  predicate Attached(ctx: Context, item: Item) {
    item.record.PageId() in ctx.pages.entries
  }

  function PageOf(ctx: Context, item: Item): Page
    requires Attached(ctx, item)
  {
    ctx.pages.entries[item.record.PageId()]
  }

  /** The URL that the URL map keys on: always the page's URL. */
  function UrlOf(ctx: Context, item: Item): string
    requires Attached(ctx, item)
  {
    PageOf(ctx, item).url
  }

  /** The name of the document a record creates. */
  function NameOf(ctx: Context, item: Item): string
    requires Attached(ctx, item)
  {
    DocumentName(item.record.Kind(), PageOf(ctx, item).title, item.key)
  }

  /** The frontmatter: `Date` and `URL` lines between `---` rules; a photo
      gives its own URL rather than the page's, and adds its `HASH`. */
  function Frontmatter(record: Record, page: Page): string {
    match record
    case NoteRecord(n) =>
      "---\n" + "Date: " + n.date + "\n" + "URL: " + page.url + "\n" + "---\n"
    case PhotoRecord(p) =>
      "---\n" + "Date: " + p.date + "\n" + "URL: " + p.photourl + "\n" + "HASH: " + p.photohash + "\n" + "---\n"
  }

  /** What a document starts with: the frontmatter, then the selector block
      when the page has selector hits. */
  function Header(ctx: Context, item: Item): string
    requires Attached(ctx, item)
  {
    Frontmatter(item.record, PageOf(ctx, item)) + Selectors(ctx.selectors, ctx.hits, item.record.PageId())
  }

  /** The selector block of a page, or nothing when it has no selector hits. */
  function Selectors(selectors: Table<string>, hits: Table<seq<int>>, pageId: int): string {
    if pageId in hits.entries then SelectorBlock(hits.entries[pageId], selectors) else ""
  }

  /** The folder of the extracted export that holds a category's images. */
  function ImageFolder(c: Category): string {
    match c
    case NotesCategory => "note_screenshots"
    case PhotosCategory => "tagged_photos"
  }

  /** The image file that goes with a record: `<id>.jpeg` for a note, the photo's own file otherwise. */
  function ImageName(item: Item): string {
    match item.record
    case NoteRecord(_) => IntToString(item.key) + ".jpeg"
    case PhotoRecord(p) => p.photopath
  }

  /** A record's contribution to its document: the rewritten text, a blank
      line, the image embed when the image exists, and a closing rule. The
      wikilink pass sees the vault's Markdown files as listed by `paths`. */
  function Body(extracted: set<string>, item: Item, paths: seq<string>): string {
    Rewrite(item.record.Text(), MarkdownNames(paths)) + "\n\n"
    + Embed(extracted, ImageFolder(item.record.Kind()), ImageName(item)) + "\n---\n"
  }

  /** The record's URL already has a document and consolidation is on: the record appends. */
  predicate Appends(ctx: Context, s: RunState, item: Item)
    requires Attached(ctx, item)
  {
    UrlOf(ctx, item) in s.urlMap && ctx.consolidate
  }

  /** One iteration of the loop over a table (src/hunchly.ts:108-141, 147-181). */
  function Step(ctx: Context, s: RunState, item: Item): RunState {
    if !Attached(ctx, item) then s
    else
      var body := Body(ctx.extracted, item, s.vault.paths);
      var url := UrlOf(ctx, item);
      if Appends(ctx, s, item) then
        RunState(s.vault.Append(DocPath(ctx.location, s.urlMap[url]), body), s.urlMap)
      else
        var name := NameOf(ctx, item);
        RunState(s.vault.Create(DocPath(ctx.location, name), Header(ctx, item) + body), s.urlMap[url := name])
  }

  /** The loop over a table: one step per record, in table order. */
  function Run(ctx: Context, s: RunState, items: seq<Item>): RunState
    decreases |items|
  {
    if items == [] then s else Step(ctx, Run(ctx, s, items[..|items| - 1]), items[|items| - 1])
  }

  /** The records of a table, in the order a `for ... of` loop visits them. */
  function NoteItems(notes: Table<Note>): seq<Item>
    requires notes.Valid()
  {
    assert forall i :: 0 <= i < |notes.keys| ==> notes.keys[i] in notes.entries by {
      forall i | 0 <= i < |notes.keys|
        ensures notes.keys[i] in notes.entries
      {
        assert notes.keys[i] in notes.keys;
      }
    }
    seq(|notes.keys|, i requires 0 <= i < |notes.keys| => Item(notes.keys[i], NoteRecord(notes.entries[notes.keys[i]])))
  }

  function PhotoItems(photos: Table<Photo>): seq<Item>
    requires photos.Valid()
  {
    assert forall i :: 0 <= i < |photos.keys| ==> photos.keys[i] in photos.entries by {
      forall i | 0 <= i < |photos.keys|
        ensures photos.keys[i] in photos.entries
      {
        assert photos.keys[i] in photos.keys;
      }
    }
    seq(|photos.keys|, i requires 0 <= i < |photos.keys| => Item(photos.keys[i], PhotoRecord(photos.entries[photos.keys[i]])))
  }

  /** The vault after a whole import: the notes first, then the photos, each
      category with a URL map of its own. */
  function Imported(ctx: Context, notes: Table<Note>, photos: Table<Photo>, vault: VaultState): VaultState
    requires notes.Valid() && photos.Valid()
  {
    var afterNotes := Run(ctx, RunState(vault, map[]), NoteItems(notes)).vault;
    Run(ctx, RunState(afterNotes, map[]), PhotoItems(photos)).vault
  }

  class Hunchly {
    const vault: Vault
    const hunchlyLocation: string
    const consolidate: bool

    constructor (vault: Vault, vaultLocation: string, consolidate: string)
      ensures this.vault == vault && hunchlyLocation == vaultLocation
      ensures this.consolidate <==> consolidate == "true"
    {
      this.vault := vault;
      hunchlyLocation := vaultLocation;
      if consolidate == "true" {
        this.consolidate := true;
      } else {
        this.consolidate := false;
      }
    }

    function ContextFor(pages: Table<Page>, selectors: Table<string>, hits: Table<seq<int>>, extracted: set<string>): Context
    {
      Context(pages, selectors, hits, extracted, hunchlyLocation, consolidate)
    }

    /** `process` from the parsed files on: build the tables, then import the
        notes and then the photos. `extracted` is the set of files present in
        the extracted export. */
    method Process(pagesFile: Payload<PageRow>, notesFile: Payload<NoteRow>, photosFile: Payload<PhotoRow>,
                   selectorsFile: Payload<SelectorRow>, hitsFile: Payload<HitRow>, extracted: set<string>)
      modifies vault
      ensures
        var ctx := ContextFor(PagesTable(pagesFile), SelectorsTable(selectorsFile), HitsTable(hitsFile), extracted);
        NotesTable(notesFile).Valid() && PhotosTable(photosFile).Valid()
        && vault.State() == Imported(ctx, NotesTable(notesFile), PhotosTable(photosFile), old(vault.State()))
    {
      var pages := ExtractPages(pagesFile);
      var notes := ExtractNotes(notesFile);
      var photos := ExtractPhotos(photosFile);
      var selectors := ExtractSelectors(selectorsFile);
      var selectorHits := ExtractSelectorsHits(hitsFile);
      if notesFile.Rows? {
        BuildValid(NoteEntries(notesFile.items));
      }
      if photosFile.Rows? {
        BuildValid(PhotoEntries(photosFile.items));
      }
      ProcessNotes(notes, pages, selectors, selectorHits, extracted);
      ProcessImages(photos, pages, selectors, selectorHits, extracted);
    }

    /** `processNotes`: every note whose page is known creates or extends a document. */
    method ProcessNotes(notes: Table<Note>, pages: Table<Page>, selectors: Table<string>,
                        selectorHits: Table<seq<int>>, extracted: set<string>)
      requires notes.Valid()
      modifies vault
      ensures vault.State() ==
        Run(ContextFor(pages, selectors, selectorHits, extracted), RunState(old(vault.State()), map[]), NoteItems(notes)).vault
    {
      ghost var ctx := ContextFor(pages, selectors, selectorHits, extracted);
      ghost var s0 := RunState(vault.State(), map[]);
      ghost var items := NoteItems(notes);
      var urlMap: map<string, string> := map[];
      for i := 0 to |notes.keys|
        invariant RunState(vault.State(), urlMap) == Run(ctx, s0, items[..i])
      {
        assert items[..i + 1][..i] == items[..i];
        var key := notes.keys[i];
        urlMap := ProcessNote(key, notes.entries[key], pages, selectors, selectorHits, extracted, urlMap);
      }
      assert items[..|notes.keys|] == items;
    }

    /** One pass of the loop of `processNotes`, for the note `value` with id `key`. */
    method ProcessNote(key: int, value: Note, pages: Table<Page>, selectors: Table<string>,
                       selectorHits: Table<seq<int>>, extracted: set<string>, urlMap: map<string, string>)
      returns (urlMap': map<string, string>)
      modifies vault
      ensures RunState(vault.State(), urlMap') ==
        Step(ContextFor(pages, selectors, selectorHits, extracted), RunState(old(vault.State()), urlMap), Item(key, NoteRecord(value)))
    {
      ghost var ctx := ContextFor(pages, selectors, selectorHits, extracted);
      ghost var item := Item(key, NoteRecord(value));
      ghost var s := RunState(vault.State(), urlMap);
      urlMap' := urlMap;
      if value.pageid in pages.entries {
        var page := pages.entries[value.pageid];
        var title := SanitiseTitle(page.title, 65);
        title := title + "-notes-" + IntToString(key);
        var fileContent := "";
        if !(page.url in urlMap && consolidate) {
          fileContent := NoteHeader(value, page, selectors, selectorHits);
        }
        var body := NoteBody(key, value, extracted);
        fileContent := fileContent + body;
        if page.url in urlMap && consolidate {
          assert Appends(ctx, s, item);
          assert fileContent == Body(ctx.extracted, item, s.vault.paths);
          assert Step(ctx, s, item) ==
            RunState(s.vault.Append(DocPath(hunchlyLocation, urlMap[page.url]), fileContent), urlMap);
          UpdateNoteFile(urlMap[page.url], fileContent);
        } else {
          assert title + ".md" == NameOf(ctx, item);
          assert !Appends(ctx, s, item);
          assert fileContent == Header(ctx, item) + Body(ctx.extracted, item, s.vault.paths);
          assert Step(ctx, s, item) ==
            RunState(s.vault.Create(DocPath(hunchlyLocation, title + ".md"), fileContent), urlMap[page.url := title + ".md"]);
          CreateNoteFile(title + ".md", fileContent);
          urlMap' := urlMap[page.url := title + ".md"];
        }
      } else {
        assert Step(ctx, s, item) == s;
      }
    }

    /** The body of a note (src/hunchly.ts:127-129): its text with wikilinks, a
        blank line, the image embed when the image exists, and a closing rule. */
    method NoteBody(key: int, value: Note, extracted: set<string>) returns (body: string)
      ensures body == Body(extracted, Item(key, NoteRecord(value)), vault.paths)
    {
      var text := ProcessNoteContent(value.note);
      body := text + "\n\n";
      body := AddImages("note_screenshots", IntToString(key) + ".jpeg", body, extracted);
      body := body + "\n---\n";
    }

    /** `processImages`: every tagged photo whose page is known creates or extends a document. */
    method ProcessImages(photos: Table<Photo>, pages: Table<Page>, selectors: Table<string>,
                         selectorHits: Table<seq<int>>, extracted: set<string>)
      requires photos.Valid()
      modifies vault
      ensures vault.State() ==
        Run(ContextFor(pages, selectors, selectorHits, extracted), RunState(old(vault.State()), map[]), PhotoItems(photos)).vault
    {
      ghost var ctx := ContextFor(pages, selectors, selectorHits, extracted);
      ghost var s0 := RunState(vault.State(), map[]);
      ghost var items := PhotoItems(photos);
      var urlMap: map<string, string> := map[];
      for i := 0 to |photos.keys|
        invariant RunState(vault.State(), urlMap) == Run(ctx, s0, items[..i])
      {
        assert items[..i + 1][..i] == items[..i];
        var key := photos.keys[i];
        urlMap := ProcessImage(key, photos.entries[key], pages, selectors, selectorHits, extracted, urlMap);
      }
      assert items[..|photos.keys|] == items;
    }

    /** One pass of the loop of `processImages`, for the photo `value` with id `key`. */
    method ProcessImage(key: int, value: Photo, pages: Table<Page>, selectors: Table<string>,
                       selectorHits: Table<seq<int>>, extracted: set<string>, urlMap: map<string, string>)
      returns (urlMap': map<string, string>)
      modifies vault
      ensures RunState(vault.State(), urlMap') ==
        Step(ContextFor(pages, selectors, selectorHits, extracted), RunState(old(vault.State()), urlMap), Item(key, PhotoRecord(value)))
    {
      ghost var ctx := ContextFor(pages, selectors, selectorHits, extracted);
      ghost var item := Item(key, PhotoRecord(value));
      ghost var s := RunState(vault.State(), urlMap);
      urlMap' := urlMap;
      if value.pageid in pages.entries {
        var page := pages.entries[value.pageid];
        var title := SanitiseTitle(page.title, 50);
        title := title + "-captioned-image-" + IntToString(key);
        var fileContent := "";
        if !(page.url in urlMap && consolidate) {
          fileContent := PhotoHeader(value, page, selectors, selectorHits);
        }
        var body := PhotoBody(key, value, extracted);
        fileContent := fileContent + body;
        if page.url in urlMap && consolidate {
          assert Appends(ctx, s, item);
          assert fileContent == Body(ctx.extracted, item, s.vault.paths);
          assert Step(ctx, s, item) ==
            RunState(s.vault.Append(DocPath(hunchlyLocation, urlMap[page.url]), fileContent), urlMap);
          UpdateNoteFile(urlMap[page.url], fileContent);
        } else {
          assert title + ".md" == NameOf(ctx, item);
          assert !Appends(ctx, s, item);
          assert fileContent == Header(ctx, item) + Body(ctx.extracted, item, s.vault.paths);
          assert Step(ctx, s, item) ==
            RunState(s.vault.Create(DocPath(hunchlyLocation, title + ".md"), fileContent), urlMap[page.url := title + ".md"]);
          CreateNoteFile(title + ".md", fileContent);
          urlMap' := urlMap[page.url := title + ".md"];
        }
      } else {
        assert Step(ctx, s, item) == s;
      }
    }

    /** The body of a photo (src/hunchly.ts:167-169): its text with wikilinks, a
        blank line, the image embed when the image exists, and a closing rule. */
    method PhotoBody(key: int, value: Photo, extracted: set<string>) returns (body: string)
      ensures body == Body(extracted, Item(key, PhotoRecord(value)), vault.paths)
    {
      var text := ProcessNoteContent(value.caption);
      body := text + "\n\n";
      body := AddImages("tagged_photos", value.photopath, body, extracted);
      body := body + "\n---\n";
    }

    /** The header of a new note document (src/hunchly.ts:117-125). */
    method NoteHeader(value: Note, page: Page, selectors: Table<string>, selectorHits: Table<seq<int>>)
      returns (fileContent: string)
      ensures fileContent == Frontmatter(NoteRecord(value), page) + Selectors(selectors, selectorHits, value.pageid)
    {
      fileContent := "---\n";
      fileContent := fileContent + "Date: " + value.date + "\n";
      fileContent := fileContent + "URL: " + page.url + "\n";
      fileContent := fileContent + "---\n";
      if value.pageid in selectorHits.entries {
        fileContent := AddSelectors(selectorHits.entries[value.pageid], selectors, fileContent);
      }
    }

    /** The header of a new photo document (src/hunchly.ts:156-165). */
    method PhotoHeader(value: Photo, page: Page, selectors: Table<string>, selectorHits: Table<seq<int>>)
      returns (fileContent: string)
      ensures fileContent == Frontmatter(PhotoRecord(value), page) + Selectors(selectors, selectorHits, value.pageid)
    {
      fileContent := "---\n";
      fileContent := fileContent + "Date: " + value.date + "\n";
      fileContent := fileContent + "URL: " + value.photourl + "\n";
      fileContent := fileContent + "HASH: " + value.photohash + "\n";
      fileContent := fileContent + "---\n";
      if value.pageid in selectorHits.entries {
        fileContent := AddSelectors(selectorHits.entries[value.pageid], selectors, fileContent);
      }
    }

    /** `processNoteContent`: each Markdown file of the vault, in listing
        order, turns every occurrence of its name into a wikilink. */
    method ProcessNoteContent(note: string) returns (r: string)
      ensures r == Rewrite(note, MarkdownNames(vault.paths))
    {
      var files := MarkdownNames(vault.paths);
      r := note;
      for i := 0 to |files|
        invariant r == Rewrite(note, files[..i])
      {
        assert files[..i + 1][..i] == files[..i];
        var searchMask := Mask(files[i]);
        var replaceMask := Link(searchMask);
        r := ReplaceAllCI(r, searchMask, replaceMask);
      }
      assert files[..|files|] == files;
    }

    /** `addImages`, content part: the embed is added exactly when the image
        file is present in the export. */
    method AddImages(source: string, fileName: string, fileContent: string, extracted: set<string>) returns (r: string)
      ensures r == fileContent + Embed(extracted, source, fileName)
      ensures source + "/" + fileName in extracted ==> r == fileContent + "![[" + fileName + "]]\n"
      ensures source + "/" + fileName !in extracted ==> r == fileContent
    {
      if source + "/" + fileName in extracted {
        return fileContent + "![[" + fileName + "]]\n";
      }
      return fileContent;
    }

    /** `createNoteFile`: create the document, or nothing when its path is taken. */
    method CreateNoteFile(fileName: string, content: string)
      modifies vault
      ensures vault.State() == old(vault.State()).Create(DocPath(hunchlyLocation, fileName), content)
    {
      var notePath := DocPath(hunchlyLocation, fileName);
      vault.Create(notePath, content);
    }

    /** `updateNoteFile`: append to the document, or nothing when there is none at its path. */
    method UpdateNoteFile(fileName: string, content: string)
      modifies vault
      ensures vault.State() == old(vault.State()).Append(DocPath(hunchlyLocation, fileName), content)
    {
      var notePath := DocPath(hunchlyLocation, fileName);
      vault.Append(notePath, content);
    }
  }
}
