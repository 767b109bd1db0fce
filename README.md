# Hunchly case import, modelled in Dafny

This project models the record-to-document core of the Hunchly importer for
Obsidian (`src/hunchly.ts`). A Hunchly case export holds tables of captured
pages, notes, tagged photos, selectors and selector hits. The importer turns
each note and each tagged photo whose page is known into Markdown in the
vault's `hunchly_notes` folder. A record's document is named after its page
title, cut to 65 characters for notes and 50 for photos, with forbidden
characters replaced by `_`, followed by `-notes-<id>` or
`-captioned-image-<id>` and `.md`. A new document starts with a header:
frontmatter (`Date`, `URL`, and for photos also `HASH`), then a block of
selector tags when the page has selector hits. Every record then contributes
a body:

- its text after the wikilink pass: one replacement per Markdown file of the vault, in listing
  order, of each occurrence of the file's title by a link to it;
- a blank line;
- an embed of its image when the image exists;
- a closing `---` rule.

With the `consolidate` setting on, a record whose page URL already has a
document in its category appends its body to that document instead of
creating a new one.

Modules:

- `Strings` (strings.dfy): case-insensitive global replacement, the first-occurrence removal used on
  file names, base names, and decimal rendering of ids with its parse-back.
- `Names` (names.dfy): title and selector-label sanitisation and document names, with a parser
  that reads a name back into category, title part and id.
- `Tables` (tables.dfy): a JavaScript `Map` keyed by integer ids, which keeps insertion order;
  setting an existing key keeps its position.
- `Records` (extract.dfy): the record types and the five extractors, from parsed rows to tables.
- `Vaults` (vault.dfy): the vault, as a listing of paths in creation order and the file contents,
  with `create` and `append`; a class `Vault` updates it in place.
- `Content` (content.dfy): the wikilink pass, the selector block and the image embed.
- `Import` (hunchly.dfy): `Step` and `Run`, which specify what one record and a sequence of
  records do to the vault and to the URL map, and the class `Hunchly`, whose loops are proved
  to compute them.
- `StepParts` (parts.dfy): one step of the importer with what it computes about a record (page
  known, URL, document name, header, body) left abstract, and the proof that `Run` is the run of
  those parts, so laws about runs can be proved without unfolding names and contents.
- `ImportLaws` (laws.dfy): what a run guarantees (orphan drop, only extending the vault,
  consolidation routing, who owns a URL, distinct document paths).
- `DocumentLaws` (documents.dfy): what a run leaves in the vault document by document, with and
  without consolidation (frontmatter once).

## Model

| member | source | states |
|---|---|---|
| Import.Hunchly.constructor | src/hunchly.ts:44-56 | the consolidate flag is on exactly when the setting string is `"true"`; the location is the vault folder given |
| Import.Hunchly.Process | src/hunchly.ts:71-78 | the tables are built from the parsed files, then the notes and then the photos are imported, each with a fresh URL map; the vault ends as `Imported` of the old vault |
| Import.Hunchly.ProcessNotes | src/hunchly.ts:105-142 | the loop over the notes table, in table order, leaves the vault as `Run` over the notes from an empty URL map |
| Import.Hunchly.ProcessNote | src/hunchly.ts:108-141 | one note: the new vault and URL map are `Step` of the old ones (orphan: unchanged; consolidating with a known URL: append the body at the recorded name; otherwise create header and body under the new name and record it) |
| Import.Hunchly.NoteHeader | src/hunchly.ts:117-125 | a new note document starts `---`, `Date:` the note date, `URL:` the page URL, `---`, then the selector block when the page has hits |
| Import.Hunchly.NoteBody | src/hunchly.ts:127-129 | a note's body is its rewritten text, `\n\n`, the `<id>.jpeg` embed when that screenshot exists, then `\n---\n` |
| Import.Hunchly.ProcessImages | src/hunchly.ts:144-182 | the loop over the photos table leaves the vault as `Run` over the photos from an empty URL map |
| Import.Hunchly.ProcessImage | src/hunchly.ts:147-181 | one photo: the new vault and URL map are `Step` of the old ones |
| Import.Hunchly.PhotoHeader | src/hunchly.ts:156-165 | a new photo document's frontmatter gives the photo's date, the photo's own URL and its hash, then the selector block when the page has hits |
| Import.Hunchly.PhotoBody | src/hunchly.ts:167-169 | a photo's body is its rewritten caption, `\n\n`, the embed of its local file when it exists, then `\n---\n` |
| Import.Hunchly.ProcessNoteContent | src/hunchly.ts:192-200 | the text after one replacement pass per Markdown file of the vault, in listing order |
| Import.Hunchly.AddImages | src/hunchly.ts:202-210 | the embed line `![[name]]` is added exactly when the image file exists in the export, else the content is unchanged |
| Import.Hunchly.CreateNoteFile | src/hunchly.ts:212-219 | the document is created under `<location>/hunchly_notes/`, or nothing happens when the path is taken |
| Import.Hunchly.UpdateNoteFile | src/hunchly.ts:221-232 | the content is appended to the document at the path, or nothing happens when there is no file there |
| Vaults.Vault.Create | src/hunchly.ts:215 | a taken path leaves the vault unchanged; a free one is added at the end of the listing with the content |
| Vaults.Vault.Append | src/hunchly.ts:226-227 | the listing is unchanged; an existing file gets the content added at its end; otherwise nothing changes |
| Vaults.CreateAppendValid | src/hunchly.ts:215-227 | create and append keep the listing and the files consistent; append never changes the listing |
| Vaults.CreateAllFresh | src/hunchly.ts:215 | creating distinct new paths adds them to the listing in order, each with its own content, and leaves existing files alone |
| Vaults.AppendAllExisting | src/hunchly.ts:227 | appending texts in turn to an existing file extends it by their concatenation and changes nothing else |
| Vaults.OpenThenAppend | src/hunchly.ts:215-227 | a document created and then appended to holds the opening content followed by the appended texts |
| Content.AddSelectors | src/hunchly.ts:237-246 | the result is the input, `#### Selectors\n\n`, one `#label\t` tag per hit with a non-empty label in hit order, then `\n\n---\n` |
| Content.TagsReadBack | src/hunchly.ts:239-244 | cutting the tags at `#` gives back exactly the shown labels in hit order, each followed by a tab |
| Content.RewriteUnchangedIff | src/hunchly.ts:193-198 | the wikilink pass leaves a text unchanged exactly when no vault title occurs in it, ignoring ASCII case |
| Content.RewriteNeverShrinks | src/hunchly.ts:193-198 | the wikilink pass never shortens a text |
| Content.RewriteGrows | src/hunchly.ts:193-198 | the wikilink pass lengthens a text in which some vault title occurs |
| Content.RewriteIdentity | src/hunchly.ts:193-198 | a text in which no vault title occurs is left as it is |
| Strings.ReplaceAllUnchangedIff | src/hunchly.ts:195-197 | one global case-insensitive replacement by a longer text changes nothing exactly when the pattern does not occur |
| Strings.RemoveFirstAtEnd | src/hunchly.ts:194 | removing the first `.md` from `<stem>.md`, where the stem holds no `.`, gives the stem |
| Strings.BasenameAfterSlash | src/hunchly.ts:194 | a file's name is what follows the last `/` of its path |
| Strings.NatToStringRoundTrip | src/hunchly.ts:115 | the decimal rendering of an id reads back to the id |
| Names.SanitisedTitleShape | src/hunchly.ts:114 | the sanitised title has at most the category's 65 or 50 characters, holds no forbidden character, keeps every allowed character in place and has `_` where a forbidden one was |
| Names.SanitiseTitleIdempotent | src/hunchly.ts:152 | sanitising a sanitised title changes nothing |
| Names.SanitiseIdempotent | src/hunchly.ts:114 | replacing forbidden characters by an allowed one is idempotent |
| Names.SanitisedLabelShape | src/hunchly.ts:242 | a sanitised selector label keeps its length, holds none of the label's forbidden characters (those of a title and `=`) and keeps the others in place |
| Names.FileNameRoundTrip | src/hunchly.ts:115 | every document name `<title>-notes-<id>.md` or `<title>-captioned-image-<id>.md` reads back to its category, title part and id |
| Names.FileNameInjective | src/hunchly.ts:153 | two document names are equal only when category, title part and id all are |
| Names.DocumentNamesDistinct | src/hunchly.ts:137 | records with different ids, or of different categories, get different document names, whatever their titles |
| Names.DocumentNameCharacters | src/hunchly.ts:177 | a document name is a stem and `.md`, and the stem holds no `.` and no `/` |
| Tables.BuildValid | src/hunchly.ts:286 | a table built from rows lists each id once, and exactly the ids it has entries for |
| Tables.BuildHasKey | src/hunchly.ts:313 | an id is in the table exactly when some row carries it |
| Tables.BuildLastWins | src/hunchly.ts:337 | the table holds, for each id, the value of its last row |
| Tables.BuildFirstSeenOrder | src/hunchly.ts:361 | ids are listed in the order of their first rows |
| Records.ExtractPages | src/hunchly.ts:347-368 | the pages table is built from the rows of an array file, one page per `id`, from `title`, `url`, `timestamp_created` and `content_hash`; anything else gives an empty table |
| Records.ExtractNotes | src/hunchly.ts:323-345 | the notes table is built from the rows of an array file from `Note`, `NoteDate` and `PageId`, keyed by `ID`; anything else gives an empty table |
| Records.ExtractPhotos | src/hunchly.ts:296-321 | the tagged-photos table is built from the rows of an array file from `Caption`, `PhotoTimestamp`, `PageId`, `PhotoUrl`, `PhotoHash` and `LocalFile`, keyed by `ID`; anything else gives an empty table |
| Records.ExtractSelectors | src/hunchly.ts:276-294 | the selectors table maps each `ID` to its `Selector`, built from the rows of an array file; anything else gives an empty table |
| Records.ExtractSelectorsHits | src/hunchly.ts:248-274 | the hits are grouped by `PageID`, with a row for a known page extending its list; anything but an array file gives an empty table |
| Records.GroupHitsByPage | src/hunchly.ts:256-267 | a page has a list exactly when some row names it, and the list is the `SelectorID`s of its rows in file order, none lost |
| ImportLaws.OrphanDrop | src/hunchly.ts:109-111 | a run gives the same vault and URL map as a run over only the records whose page is known |
| ImportLaws.RunSplit | src/hunchly.ts:108 | a run over two sequences of records is the run over the first followed by the run over the second |
| ImportLaws.StepOnlyExtends | src/hunchly.ts:131-139 | one record keeps the vault consistent, removes no file and only adds text at the end of an existing one |
| ImportLaws.RunOnlyExtends | src/hunchly.ts:108-181 | a run keeps the vault consistent, removes no file and only adds text at the ends of files |
| ImportLaws.RunUrlMap | src/hunchly.ts:131-139 | the URL map after a run depends only on the URLs, names and the consolidate setting, not on the vault |
| ImportLaws.UrlMapKeys | src/hunchly.ts:138 | after a run, the URL map has the URLs it started with and exactly the page URLs of the records with a known page |
| ImportLaws.UrlsMember | src/hunchly.ts:178 | a URL is among the run's URLs exactly when some record with a known page has it |
| ImportLaws.CreatesIffFirst | src/hunchly.ts:117 | when consolidating from an empty URL map, a record takes the create branch (and gets frontmatter) exactly when it is the first record of its URL |
| ImportLaws.UrlMapOwner | src/hunchly.ts:171-179 | from an empty URL map, the name recorded for a URL is that of the first record with it when consolidating, and of the last one otherwise |
| ImportLaws.DocPathNames | src/hunchly.ts:214 | a document path ends in `.md`, its file name is the document name, and the search text made from that name is the title stem |
| ImportLaws.CreatedDocumentIsLinkTarget | src/hunchly.ts:193-194 | the created name joins the end of the Markdown listing and is searched for by its title stem |
| ImportLaws.DocPathsDistinct | src/hunchly.ts:137 | records with different ids have different document paths |
| DocumentLaws.UnconsolidatedDocuments | src/hunchly.ts:176-179 | without consolidation, each record gets its own document, added to the listing in record order and holding its header and body, and existing files are untouched |
| DocumentLaws.PartsConsolidatedRun | src/hunchly.ts:131-139 | when consolidating, a run over the records of one new URL is the first record's create followed by appends of the other bodies |
| DocumentLaws.ConsolidatedDocument | src/hunchly.ts:117-139 | when consolidating, a run made only of the records of one new URL ends with a single new document: the first record's header and body, then the other bodies in order, with no second header; the URL maps to that document. Runs in which records of other pages come in between are covered by `CreatesIffFirst` and `UrlMapOwner`, not by this lemma |

## Left out

- Zip extraction, the temporary directory and its delayed cleanup are I/O and timing; the model starts
  from the parsed rows of each file.
- Reading files and `JSON.parse` are I/O: each file is a `Payload`, either unreadable, not an array, or
  an array of rows. Rows are taken as well formed. A row whose fields are missing or of another type is
  not modelled. Nor is a failure part way through the rows, which in the source leaves the rows before
  it in the table.
- Whether an image exists (`fs.access`) is an input set of paths in the extracted export. `copyImages`,
  `createDirectoryIfNotExists` and `updateStatus` have no effect on document content and are not
  modelled.
- Everything is sequential. `async`/`await` and the `vault.append` that is not awaited are not
  modelled.
- Import.Hunchly.ProcessNoteContent: the source builds a regular expression from each file name.
  The model takes the name as literal text, matched with ASCII case folding only, globally and left to
  right. Regular-expression metacharacters in titles, an invalid pattern throwing, `$` patterns in the
  replacement and non-ASCII case folding are not captured.
- Import.Hunchly.ProcessNoteContent: `getMarkdownFiles` is modelled as the vault's files ending in
  `.md`, in creation order; Obsidian's own listing order and its notion of a Markdown file are not
  modelled.
- Import.Hunchly.ProcessNoteContent: the replacements run one after another on the text already
  rewritten, so a title listed earlier that occurs inside a later title, or inside link text
  already inserted, is replaced first and can keep the later title from matching (for instance
  `Example` before `Example-notes-10`). The model keeps this behaviour and does not promise that
  every title becomes a link.
- Strings.RemoveFirst: `file.name.replace(".md", "")` removes the first `.md` anywhere in the name,
  not only the extension; the model does the same.
- `path.join` and Obsidian's path normalisation are modelled as joining with `/` with no
  normalisation.
- Names.SanitiseTitle: `substring(0, n)` counts UTF-16 code units; the model counts characters.
- Strings.IntToString: ids are rendered in plain decimal. The exponent form JavaScript uses from
  1e21 on, and ids that are not integers, are not modelled.
- The `plugin`, `vaultPath`, `hunchlyExportPath` fields and the unused `pages`, `notes`, `selector`,
  `selectorHits` and `taggedPhotos` fields are not modelled, nor is `checkFileOrFolderExistence`'s
  status message.
- `main.ts` (plugin lifecycle, ribbon and settings) and `fileModal.ts` (the file dialog) are user
  interface and are not part of this model.
- Import.Hunchly.ProcessNote: the source checks that the recorded name is non-empty before appending.
  A recorded name is never empty, so the model has no such branch.
