/** What a run of the importer guarantees: records without a page are
    dropped, a document is only ever created or extended, each URL's entry
    in the URL map is decided by the first (consolidating) or last
    (not consolidating) record with that URL, and the documents a run
    writes hold exactly the header and bodies the records contribute. */
module ImportLaws {
  import opened Strings
  import opened Names
  import opened Content
  import opened Vaults
  import opened Import
  import opened StepParts

  lemma {:induction false} RunSplit(ctx: Context, s: RunState, a: seq<Item>, b: seq<Item>)
    ensures Run(ctx, s, a + b) == Run(ctx, Run(ctx, s, a), b)
    decreases |b|
  {
    if b == [] {
      assert a + b == a;
    } else {
      var init := b[..|b| - 1];
      assert (a + b)[..|a + b| - 1] == a + init;
      RunSplit(ctx, s, a, init);
    }
  }

  /** The records whose page is known, in order. */
  function AttachedItems(ctx: Context, items: seq<Item>): seq<Item>
    decreases |items|
  {
    if items == [] then []
    else
      var item := items[|items| - 1];
      AttachedItems(ctx, items[..|items| - 1]) + (if Attached(ctx, item) then [item] else [])
  }

  /** Orphan drop: a record whose page is not in the page table changes
      nothing, so a run gives the same vault and URL map as the run over the
      attached records alone. */
  lemma {:induction false} OrphanDrop(ctx: Context, s: RunState, items: seq<Item>)
    ensures Run(ctx, s, items) == Run(ctx, s, AttachedItems(ctx, items))
    decreases |items|
  {
    if items != [] {
      var init := items[..|items| - 1];
      var item := items[|items| - 1];
      OrphanDrop(ctx, s, init);
      if Attached(ctx, item) {
        RunSplit(ctx, s, AttachedItems(ctx, init), [item]);
        assert [item][..0] == [];
      } else {
        assert AttachedItems(ctx, items) == AttachedItems(ctx, init);
      }
    }
  }

  /** `b` extends `a`. */
  predicate IsPrefix(a: string, b: string) {
    |a| <= |b| && b[..|a|] == a
  }

  /** `v` is `u` with files possibly added at the end of the listing and
      contents possibly extended, and nothing else. */
  ghost predicate Extends(u: VaultState, v: VaultState) {
    && |u.paths| <= |v.paths| && v.paths[..|u.paths|] == u.paths
    && forall p :: p in u.files ==> p in v.files && IsPrefix(u.files[p], v.files[p])
  }

  lemma ExtendsTransitive(u: VaultState, v: VaultState, w: VaultState)
    requires Extends(u, v) && Extends(v, w)
    ensures Extends(u, w)
  {
    assert w.paths[..|v.paths|][..|u.paths|] == w.paths[..|u.paths|];
    forall p | p in u.files
      ensures p in w.files && IsPrefix(u.files[p], w.files[p])
    {
      assert w.files[p][..|v.files[p]|][..|u.files[p]|] == w.files[p][..|u.files[p]|];
    }
  }

  lemma PartStepOnlyExtends(w: Parts, s: RunState, item: Item)
    requires s.vault.Valid()
    ensures PartStep(w, s, item).vault.Valid() && Extends(s.vault, PartStep(w, s, item).vault)
  {
    if w.attached(item) {
      var body := w.body(item, s.vault.paths);
      if w.url(item) in s.urlMap && w.consolidate {
        var p := DocPath(w.location, s.urlMap[w.url(item)]);
        CreateAppendValid(s.vault, p, body);
        if p in s.vault.files {
          assert IsPrefix(s.vault.files[p], s.vault.files[p] + body);
        }
      } else {
        CreateAppendValid(s.vault, PathOf(w, item), w.header(item) + body);
      }
    }
  }

  lemma StepOnlyExtends(ctx: Context, s: RunState, item: Item)
    requires s.vault.Valid()
    ensures Step(ctx, s, item).vault.Valid() && Extends(s.vault, Step(ctx, s, item).vault)
  {
    StepIsPartStep(ctx, s, item);
    PartStepOnlyExtends(PartsOf(ctx), s, item);
  }

  /** A run keeps the vault consistent, never removes or reorders a file,
      and only ever extends a file's content: what a file held before the run
      is a prefix of what it holds after. */
  lemma {:induction false} RunOnlyExtends(ctx: Context, s: RunState, items: seq<Item>)
    requires s.vault.Valid()
    ensures Run(ctx, s, items).vault.Valid() && Extends(s.vault, Run(ctx, s, items).vault)
    decreases |items|
  {
    if items != [] {
      var init := items[..|items| - 1];
      var mid := Run(ctx, s, init);
      RunOnlyExtends(ctx, s, init);
      StepOnlyExtends(ctx, mid, items[|items| - 1]);
      ExtendsTransitive(s.vault, mid.vault, Run(ctx, s, items).vault);
    }
  }

  /** The URL map after one record, on its own. */
  function UrlStep(w: Parts, m: map<string, string>, item: Item): map<string, string> {
    if !w.attached(item) || (w.url(item) in m && w.consolidate) then m
    else m[w.url(item) := w.name(item)]
  }

  function UrlRun(w: Parts, m: map<string, string>, items: seq<Item>): map<string, string>
    decreases |items|
  {
    if items == [] then m else UrlStep(w, UrlRun(w, m, items[..|items| - 1]), items[|items| - 1])
  }

  lemma {:induction false} PartRunUrlMap(w: Parts, s: RunState, items: seq<Item>)
    ensures PartRun(w, s, items).urlMap == UrlRun(w, s.urlMap, items)
    decreases |items|
  {
    if items != [] {
      PartRunUrlMap(w, s, items[..|items| - 1]);
    }
  }

  /** The URL map of a run depends on the records' pages, ids and URLs only,
      never on the vault. */
  lemma RunUrlMap(ctx: Context, s: RunState, items: seq<Item>)
    ensures Run(ctx, s, items).urlMap == UrlRun(PartsOf(ctx), s.urlMap, items)
  {
    RunIsPartRun(ctx, s, items);
    PartRunUrlMap(PartsOf(ctx), s, items);
  }

  /** The URLs of the attached records. */
  function Urls(w: Parts, items: seq<Item>): set<string>
    decreases |items|
  {
    if items == [] then {}
    else
      var item := items[|items| - 1];
      Urls(w, items[..|items| - 1]) + (if w.attached(item) then {w.url(item)} else {})
  }

  lemma {:induction false} UrlRunKeys(w: Parts, m: map<string, string>, items: seq<Item>)
    ensures UrlRun(w, m, items).Keys == m.Keys + Urls(w, items)
    decreases |items|
  {
    if items != [] {
      UrlRunKeys(w, m, items[..|items| - 1]);
    }
  }

  lemma {:induction false} UrlsMember(w: Parts, items: seq<Item>, u: string)
    ensures u in Urls(w, items) <==> exists j :: 0 <= j < |items| && w.attached(items[j]) && w.url(items[j]) == u
    decreases |items|
  {
    if items != [] {
      var init := items[..|items| - 1];
      UrlsMember(w, init, u);
      if exists j :: 0 <= j < |init| && w.attached(init[j]) && w.url(init[j]) == u {
        var j :| 0 <= j < |init| && w.attached(init[j]) && w.url(init[j]) == u;
        assert items[j] == init[j];
      }
      if exists j :: 0 <= j < |items| && w.attached(items[j]) && w.url(items[j]) == u {
        var j :| 0 <= j < |items| && w.attached(items[j]) && w.url(items[j]) == u;
        if j < |init| {
          assert init[j] == items[j];
        }
      }
    }
  }

  /** After a run the URL map holds a URL exactly when it held it before or
      an attached record has it. */
  lemma UrlMapKeys(ctx: Context, s: RunState, items: seq<Item>, u: string)
    ensures u in Run(ctx, s, items).urlMap <==>
      u in s.urlMap || exists j :: 0 <= j < |items| && Attached(ctx, items[j]) && UrlOf(ctx, items[j]) == u
  {
    var w := PartsOf(ctx);
    RunUrlMap(ctx, s, items);
    UrlRunKeys(w, s.urlMap, items);
    UrlsMember(w, items, u);
    if exists j :: 0 <= j < |items| && w.attached(items[j]) && w.url(items[j]) == u {
      var j :| 0 <= j < |items| && w.attached(items[j]) && w.url(items[j]) == u;
      assert Attached(ctx, items[j]) && UrlOf(ctx, items[j]) == u;
    }
    if exists j :: 0 <= j < |items| && Attached(ctx, items[j]) && UrlOf(ctx, items[j]) == u {
      var j :| 0 <= j < |items| && Attached(ctx, items[j]) && UrlOf(ctx, items[j]) == u;
      assert w.attached(items[j]) && w.url(items[j]) == u;
    }
  }

  /** Consolidation routing: with consolidation on and a URL map that starts
      empty, a record creates a document (and writes the frontmatter and
      selector block) exactly when no attached record before it has its
      URL; every later record with that URL appends. */
  lemma CreatesIffFirst(ctx: Context, items: seq<Item>, s: RunState, i: nat)
    requires ctx.consolidate && s.urlMap == map[]
    requires i < |items| && Attached(ctx, items[i])
    ensures !Appends(ctx, Run(ctx, s, items[..i]), items[i]) <==>
      forall j :: 0 <= j < i && Attached(ctx, items[j]) ==> UrlOf(ctx, items[j]) != UrlOf(ctx, items[i])
  {
    var u := UrlOf(ctx, items[i]);
    var before := items[..i];
    UrlMapKeys(ctx, s, before, u);
    if exists j :: 0 <= j < i && Attached(ctx, items[j]) && UrlOf(ctx, items[j]) == u {
      var j :| 0 <= j < i && Attached(ctx, items[j]) && UrlOf(ctx, items[j]) == u;
      assert before[j] == items[j];
    }
    if exists j :: 0 <= j < |before| && Attached(ctx, before[j]) && UrlOf(ctx, before[j]) == u {
      var j :| 0 <= j < |before| && Attached(ctx, before[j]) && UrlOf(ctx, before[j]) == u;
      assert before[j] == items[j];
    }
  }

  /** The record at `i` is the first attached record with its URL. */
  predicate FirstWithUrl(w: Parts, items: seq<Item>, i: nat)
    requires i < |items|
  {
    && w.attached(items[i])
    && forall j :: 0 <= j < i && w.attached(items[j]) ==> w.url(items[j]) != w.url(items[i])
  }

  /** The record at `i` is the last attached record with its URL. */
  predicate LastWithUrl(w: Parts, items: seq<Item>, i: nat)
    requires i < |items|
  {
    && w.attached(items[i])
    && forall j :: i < j < |items| && w.attached(items[j]) ==> w.url(items[j]) != w.url(items[i])
  }

  lemma {:induction false} UrlRunFirstOwner(w: Parts, items: seq<Item>, u: string)
    requires w.consolidate
    requires u in UrlRun(w, map[], items)
    ensures exists i ::
      && 0 <= i < |items| && FirstWithUrl(w, items, i) && w.url(items[i]) == u
      && UrlRun(w, map[], items)[u] == w.name(items[i])
    decreases |items|
  {
    var init := items[..|items| - 1];
    var last := |items| - 1;
    var mid := UrlRun(w, map[], init);
    if u in mid {
      UrlRunFirstOwner(w, init, u);
      var i :| 0 <= i < |init| && FirstWithUrl(w, init, i) && w.url(init[i]) == u && mid[u] == w.name(init[i]);
      assert items[i] == init[i];
      forall j | 0 <= j < i && w.attached(items[j])
        ensures w.url(items[j]) != u
      {
        assert init[j] == items[j];
      }
      assert FirstWithUrl(w, items, i);
    } else {
      UrlRunKeys(w, map[], init);
      UrlsMember(w, init, u);
      forall j | 0 <= j < last && w.attached(items[j])
        ensures w.url(items[j]) != u
      {
        assert init[j] == items[j];
      }
      assert FirstWithUrl(w, items, last);
    }
  }

  lemma {:induction false} UrlRunLastOwner(w: Parts, items: seq<Item>, u: string)
    requires !w.consolidate
    requires u in UrlRun(w, map[], items)
    ensures exists i ::
      && 0 <= i < |items| && LastWithUrl(w, items, i) && w.url(items[i]) == u
      && UrlRun(w, map[], items)[u] == w.name(items[i])
    decreases |items|
  {
    var init := items[..|items| - 1];
    var last := |items| - 1;
    if w.attached(items[last]) && w.url(items[last]) == u {
      assert LastWithUrl(w, items, last);
    } else {
      var mid := UrlRun(w, map[], init);
      UrlRunLastOwner(w, init, u);
      var i :| 0 <= i < |init| && LastWithUrl(w, init, i) && w.url(init[i]) == u && mid[u] == w.name(init[i]);
      assert items[i] == init[i];
      forall j | i < j < |items| && w.attached(items[j])
        ensures w.url(items[j]) != u
      {
        if j < last {
          assert init[j] == items[j];
        }
      }
      assert LastWithUrl(w, items, i);
    }
  }

  /** Which record owns a URL: from an empty URL map, the map sends each URL
      to the document name of an attached record with that URL, which is the
      first such record when consolidating and the last one otherwise. */
  lemma UrlMapOwner(ctx: Context, s: RunState, items: seq<Item>, u: string)
    requires s.urlMap == map[]
    requires u in Run(ctx, s, items).urlMap
    ensures exists i ::
      && 0 <= i < |items| && Attached(ctx, items[i]) && UrlOf(ctx, items[i]) == u
      && Run(ctx, s, items).urlMap[u] == NameOf(ctx, items[i])
      && if ctx.consolidate then forall j :: 0 <= j < i && Attached(ctx, items[j]) ==> UrlOf(ctx, items[j]) != u
         else forall j :: i < j < |items| && Attached(ctx, items[j]) ==> UrlOf(ctx, items[j]) != u
  {
    var w := PartsOf(ctx);
    RunUrlMap(ctx, s, items);
    if ctx.consolidate {
      UrlRunFirstOwner(w, items, u);
      var i :| 0 <= i < |items| && FirstWithUrl(w, items, i) && w.url(items[i]) == u && UrlRun(w, map[], items)[u] == w.name(items[i]);
      OwnerOf(ctx, items, i);
    } else {
      UrlRunLastOwner(w, items, u);
      var i :| 0 <= i < |items| && LastWithUrl(w, items, i) && w.url(items[i]) == u && UrlRun(w, map[], items)[u] == w.name(items[i]);
      OwnerOf(ctx, items, i);
    }
  }

  /** The first and last records of a URL, read through the importer's parts. */
  lemma OwnerOf(ctx: Context, items: seq<Item>, i: nat)
    requires i < |items| && PartsOf(ctx).attached(items[i])
    ensures Attached(ctx, items[i])
    ensures PartsOf(ctx).url(items[i]) == UrlOf(ctx, items[i]) && PartsOf(ctx).name(items[i]) == NameOf(ctx, items[i])
    ensures FirstWithUrl(PartsOf(ctx), items, i) <==>
      forall j :: 0 <= j < i && Attached(ctx, items[j]) ==> UrlOf(ctx, items[j]) != UrlOf(ctx, items[i])
    ensures LastWithUrl(PartsOf(ctx), items, i) <==>
      forall j :: i < j < |items| && Attached(ctx, items[j]) ==> UrlOf(ctx, items[j]) != UrlOf(ctx, items[i])
  {
  }

  /** The vault path of the document an attached record creates. */
  function DocPathOf(ctx: Context, item: Item): string
    requires Attached(ctx, item)
  {
    DocPath(ctx.location, NameOf(ctx, item))
  }

  lemma StepCreates(ctx: Context, s: RunState, item: Item)
    requires Attached(ctx, item) && !Appends(ctx, s, item)
    ensures Step(ctx, s, item) ==
      RunState(s.vault.Create(DocPathOf(ctx, item), Header(ctx, item) + Body(ctx.extracted, item, s.vault.paths)),
               s.urlMap[UrlOf(ctx, item) := NameOf(ctx, item)])
  {
  }

  lemma StepAppends(ctx: Context, s: RunState, item: Item)
    requires Attached(ctx, item) && Appends(ctx, s, item)
    ensures Step(ctx, s, item) ==
      RunState(s.vault.Append(DocPath(ctx.location, s.urlMap[UrlOf(ctx, item)]), Body(ctx.extracted, item, s.vault.paths)), s.urlMap)
  {
  }

  /** A document path names its document after the last `/`. */
  lemma DocPathNames(location: string, c: Category, title: string, key: int)
    ensures var name := DocumentName(c, title, key);
      var stem := SanitiseTitle(title, MaxTitle(c)) + Suffix(c) + IntToString(key);
      && EndsWith(DocPath(location, name), ".md")
      && Basename(DocPath(location, name)) == name
      && Mask(name) == stem
  {
    DocumentNameCharacters(c, title, key);
    MarkdownAfterSlash(JoinPath(location, NOTES_FOLDER), SanitiseTitle(title, MaxTitle(c)) + Suffix(c) + IntToString(key),
                       DocumentName(c, title, key));
  }

  /** `dir/<stem>.md` ends with `.md`, is called `<stem>.md`, and is searched
      for by `stem`, when `stem` holds no `.` and no `/`. */
  lemma MarkdownAfterSlash(dir: string, stem: string, name: string)
    requires name == stem + ".md"
    requires forall i :: 0 <= i < |stem| ==> stem[i] != '.' && stem[i] != '/'
    ensures EndsWith(dir + "/" + name, ".md") && Basename(dir + "/" + name) == name && Mask(name) == stem
  {
    forall i | 0 <= i < |name|
      ensures name[i] != '/'
    {
      if i < |stem| {
        assert name[i] == stem[i];
      }
    }
    BasenameAfterSlash(dir, name);
    var path := dir + "/" + name;
    assert path[|path| - 3..] == name[|name| - 3..] == ".md";
    RemoveFirstAtEnd(stem, ".md");
  }

  /** Creating a document adds its name at the end of the Markdown listing,
      and the text that name is searched for by in later bodies is its title
      stem (the name without `.md`). Titles listed earlier are replaced first,
      so one that occurs inside this stem can keep the stem from matching. */
  lemma CreatedDocumentIsLinkTarget(ctx: Context, s: RunState, item: Item)
    requires Attached(ctx, item) && !Appends(ctx, s, item)
    requires DocPathOf(ctx, item) !in s.vault.files
    ensures MarkdownNames(Step(ctx, s, item).vault.paths) == MarkdownNames(s.vault.paths) + [NameOf(ctx, item)]
    ensures Mask(NameOf(ctx, item)) ==
      SanitiseTitle(PageOf(ctx, item).title, MaxTitle(item.record.Kind())) + Suffix(item.record.Kind()) + IntToString(item.key)
  {
    StepCreates(ctx, s, item);
    DocPathNames(ctx.location, item.record.Kind(), PageOf(ctx, item).title, item.key);
    var paths := Step(ctx, s, item).vault.paths;
    assert paths == s.vault.paths + [DocPathOf(ctx, item)];
    assert paths[..|paths| - 1] == s.vault.paths;
  }

  /** Document paths of records with different ids differ. */
  lemma DocPathsDistinct(ctx: Context, a: Item, b: Item)
    requires Attached(ctx, a) && Attached(ctx, b) && a.key != b.key
    ensures DocPathOf(ctx, a) != DocPathOf(ctx, b)
  {
    DocumentNamesDistinct(a.record.Kind(), PageOf(ctx, a).title, a.key, b.record.Kind(), PageOf(ctx, b).title, b.key);
    var dir := JoinPath(ctx.location, NOTES_FOLDER);
    assert DocPathOf(ctx, a) == dir + "/" + NameOf(ctx, a);
    assert DocPathOf(ctx, b) == dir + "/" + NameOf(ctx, b);
    AfterSlashInjective(dir, NameOf(ctx, a), NameOf(ctx, b));
  }

  lemma AfterSlashInjective(dir: string, a: string, b: string)
    ensures dir + "/" + a == dir + "/" + b ==> a == b
  {
    assert (dir + "/" + a)[|dir| + 1..] == a;
    assert (dir + "/" + b)[|dir| + 1..] == b;
  }
}
