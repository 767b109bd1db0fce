/** What a run leaves in the vault, document by document. The proofs work
    on arbitrary step parts; the statements about the importer come last. */
module DocumentLaws {
  import opened Vaults
  import opened Import
  import opened StepParts
  import opened ImportLaws

  /** The paths of the documents the records create, in order. */
  function PartPaths(w: Parts, items: seq<Item>): (ps: seq<string>)
    ensures |ps| == |items|
    decreases |items|
  {
    if items == [] then [] else PartPaths(w, items[..|items| - 1]) + [PathOf(w, items[|items| - 1])]
  }

  lemma {:induction false} PartPathsAt(w: Parts, items: seq<Item>)
    ensures forall i :: 0 <= i < |items| ==> PartPaths(w, items)[i] == PathOf(w, items[i])
    decreases |items|
  {
    if items != [] {
      var n := |items| - 1;
      PartPathsAt(w, items[..n]);
      forall i | 0 <= i < n
        ensures PartPaths(w, items)[i] == PathOf(w, items[i])
      {
        assert items[..n][i] == items[i];
      }
    }
  }

  /** The documents the records create when none appends: each record's header
      and body, the body seeing the listing `paths` plus the documents created
      before it. */
  function PartDocuments(w: Parts, paths: seq<string>, items: seq<Item>): (ds: seq<string>)
    ensures |ds| == |items|
    decreases |items|
  {
    if items == [] then []
    else
      var init := items[..|items| - 1];
      var item := items[|items| - 1];
      PartDocuments(w, paths, init) + [w.header(item) + w.body(item, paths + PartPaths(w, init))]
  }

  lemma {:induction false} PartDocumentAt(w: Parts, paths: seq<string>, items: seq<Item>, i: nat)
    requires i < |items|
    ensures PartDocuments(w, paths, items)[i] == w.header(items[i]) + w.body(items[i], paths + PartPaths(w, items[..i]))
    decreases |items|
  {
    var n := |items| - 1;
    var init := items[..n];
    if i == n {
      assert items[..i] == init;
    } else {
      PartDocumentAt(w, paths, init, i);
      assert init[i] == items[i] && init[..i] == items[..i];
    }
  }

  /** A creating step extends the vault built by creating in turn. */
  lemma CreatingStep(w: Parts, mid: RunState, v: VaultState, ps: seq<string>, ds: seq<string>, item: Item)
    requires !w.consolidate && w.attached(item)
    requires |ps| == |ds| && mid.vault == CreateAll(v, ps, ds)
    ensures PartStep(w, mid, item).vault ==
      CreateAll(v, ps + [PathOf(w, item)], ds + [w.header(item) + w.body(item, mid.vault.paths)])
  {
    CreateAllSnoc(v, ps, ds, PathOf(w, item), w.header(item) + w.body(item, mid.vault.paths));
  }

  /** Without consolidation, attached records with distinct new document paths
      create their documents in turn. */
  lemma {:induction false} PartsUnconsolidatedRun(w: Parts, s: RunState, items: seq<Item>)
    requires !w.consolidate
    requires forall i :: 0 <= i < |items| ==> w.attached(items[i])
    requires forall i, j :: 0 <= i < j < |items| ==> PathOf(w, items[i]) != PathOf(w, items[j])
    requires forall i :: 0 <= i < |items| ==> PathOf(w, items[i]) !in s.vault.files
    ensures var r := PartRun(w, s, items).vault;
      && r == CreateAll(s.vault, PartPaths(w, items), PartDocuments(w, s.vault.paths, items))
      && r.paths == s.vault.paths + PartPaths(w, items)
    decreases |items|
  {
    if items != [] {
      var n := |items| - 1;
      var init := items[..n];
      forall i | 0 <= i < n
        ensures init[i] == items[i]
      {
      }
      PartsUnconsolidatedRun(w, s, init);
      var mid := PartRun(w, s, init);
      CreatingStep(w, mid, s.vault, PartPaths(w, init), PartDocuments(w, s.vault.paths, init), items[n]);
      PartPathsAt(w, items);
      CreateAllFresh(s.vault, PartPaths(w, items), PartDocuments(w, s.vault.paths, items));
    }
  }

  /** Without consolidation, attached records with distinct new document
      paths each create their own document, in order, and leave the files
      already there alone. */
  lemma PartsUnconsolidatedDocuments(w: Parts, s: RunState, items: seq<Item>)
    requires !w.consolidate
    requires forall i :: 0 <= i < |items| ==> w.attached(items[i])
    requires forall i, j :: 0 <= i < j < |items| ==> PathOf(w, items[i]) != PathOf(w, items[j])
    requires forall i :: 0 <= i < |items| ==> PathOf(w, items[i]) !in s.vault.files
    ensures var v := PartRun(w, s, items).vault;
      && v.paths == s.vault.paths + PartPaths(w, items)
      && (forall p :: p in s.vault.files ==> p in v.files && v.files[p] == s.vault.files[p])
      && (forall i :: 0 <= i < |items| ==>
            && PathOf(w, items[i]) in v.files
            && v.files[PathOf(w, items[i])] == w.header(items[i]) + w.body(items[i], s.vault.paths + PartPaths(w, items[..i])))
  {
    var ps := PartPaths(w, items);
    var ds := PartDocuments(w, s.vault.paths, items);
    PartsUnconsolidatedRun(w, s, items);
    PartPathsAt(w, items);
    CreateAllFresh(s.vault, ps, ds);
    forall i | 0 <= i < |items|
      ensures ds[i] == w.header(items[i]) + w.body(items[i], s.vault.paths + PartPaths(w, items[..i]))
    {
      PartDocumentAt(w, s.vault.paths, items, i);
    }
  }

  /** The bodies of the records, each seeing the same listing. */
  function PartBodies(w: Parts, items: seq<Item>, paths: seq<string>): (bs: seq<string>)
    ensures |bs| == |items|
    decreases |items|
  {
    if items == [] then [] else PartBodies(w, items[..|items| - 1], paths) + [w.body(items[|items| - 1], paths)]
  }

  lemma {:induction false} PartBodiesAt(w: Parts, items: seq<Item>, paths: seq<string>)
    ensures forall i :: 0 <= i < |items| ==> PartBodies(w, items, paths)[i] == w.body(items[i], paths)
    decreases |items|
  {
    if items != [] {
      var n := |items| - 1;
      PartBodiesAt(w, items[..n], paths);
      forall i | 0 <= i < n
        ensures PartBodies(w, items, paths)[i] == w.body(items[i], paths)
      {
        assert items[..n][i] == items[i];
      }
    }
  }

  /** The first record of a URL creates its document and enters the URL map. */
  lemma PartsFirstOfUrl(w: Parts, s: RunState, item: Item)
    requires w.consolidate && w.attached(item)
    requires w.url(item) !in s.urlMap && PathOf(w, item) !in s.vault.files
    ensures PartStep(w, s, item) ==
      RunState(VaultState(s.vault.paths + [PathOf(w, item)], s.vault.files[PathOf(w, item) := w.header(item) + w.body(item, s.vault.paths)]),
               s.urlMap[w.url(item) := w.name(item)])
  {
  }

  /** A later record of a mapped URL appends its body, and the listing stays. */
  lemma PartsAppendingStep(w: Parts, m: map<string, string>, v: VaultState, p: string, cs: seq<string>, item: Item)
    requires w.consolidate && w.attached(item)
    requires w.url(item) in m && DocPath(w.location, m[w.url(item)]) == p && p in v.files
    ensures PartStep(w, RunState(AppendAll(v, p, cs), m), item) == RunState(AppendAll(v, p, cs + [w.body(item, v.paths)]), m)
  {
    AppendAllExisting(v, p, cs);
    assert (cs + [w.body(item, v.paths)])[..|cs|] == cs;
  }

  /** With consolidation, records sharing a new URL give one document: the
      first creates it, the rest append their bodies, all seeing the listing
      left by the first. */
  lemma {:induction false} PartsConsolidatedRun(w: Parts, s: RunState, items: seq<Item>, u: string)
    requires w.consolidate && items != []
    requires forall i :: 0 <= i < |items| ==> w.attached(items[i]) && w.url(items[i]) == u
    requires u !in s.urlMap && PathOf(w, items[0]) !in s.vault.files
    ensures var first := PartStep(w, s, items[0]);
      PartRun(w, s, items) ==
      RunState(AppendAll(first.vault, PathOf(w, items[0]), PartBodies(w, items[1..], first.vault.paths)), first.urlMap)
    decreases |items|
  {
    var n := |items| - 1;
    var first := PartStep(w, s, items[0]);
    var p := PathOf(w, items[0]);
    PartsFirstOfUrl(w, s, items[0]);
    if n == 0 {
      assert items[..0] == [] && items[1..] == [];
      assert PartRun(w, s, [items[0]]) == PartStep(w, PartRun(w, s, []), items[0]);
    } else {
      var init := items[..n];
      assert init[0] == items[0] && init[1..] == items[1..][..n - 1];
      forall i | 0 <= i < n
        ensures init[i] == items[i]
      {
      }
      PartsConsolidatedRun(w, s, init, u);
      PartsAppendingStep(w, first.urlMap, first.vault, p, PartBodies(w, init[1..], first.vault.paths), items[n]);
    }
  }

  /** The document paths of a sequence of attached records. */
  function DocPaths(ctx: Context, items: seq<Item>): (ps: seq<string>)
    requires forall i :: 0 <= i < |items| ==> Attached(ctx, items[i])
    ensures |ps| == |items| && forall i :: 0 <= i < |items| ==> ps[i] == DocPathOf(ctx, items[i])
  {
    seq(|items|, i requires 0 <= i < |items| => DocPathOf(ctx, items[i]))
  }

  lemma DocPathsArePartPaths(ctx: Context, items: seq<Item>)
    requires forall i :: 0 <= i < |items| ==> Attached(ctx, items[i])
    ensures PartPaths(PartsOf(ctx), items) == DocPaths(ctx, items)
  {
    PartPathsAt(PartsOf(ctx), items);
  }

  /** The parts of a context create documents at distinct paths for records with distinct ids. */
  lemma PartPathsDistinct(ctx: Context, items: seq<Item>)
    requires forall i :: 0 <= i < |items| ==> Attached(ctx, items[i])
    requires forall i, j :: 0 <= i < j < |items| ==> items[i].key != items[j].key
    ensures forall i, j :: 0 <= i < j < |items| ==> PathOf(PartsOf(ctx), items[i]) != PathOf(PartsOf(ctx), items[j])
  {
    forall i, j | 0 <= i < j < |items|
      ensures PathOf(PartsOf(ctx), items[i]) != PathOf(PartsOf(ctx), items[j])
    {
      DocPathsDistinct(ctx, items[i], items[j]);
    }
  }

  /** Without consolidation, attached records with distinct ids whose
      documents do not exist yet each create their own document, in order:
      its header, then its body as the wikilink pass sees the listing at that
      point (the paths there were, plus the documents created before it). */
  lemma UnconsolidatedDocuments(ctx: Context, s: RunState, items: seq<Item>)
    requires !ctx.consolidate
    requires forall i :: 0 <= i < |items| ==> Attached(ctx, items[i])
    requires forall i, j :: 0 <= i < j < |items| ==> items[i].key != items[j].key
    requires forall i :: 0 <= i < |items| ==> DocPathOf(ctx, items[i]) !in s.vault.files
    ensures var v := Run(ctx, s, items).vault;
      && v.paths == s.vault.paths + DocPaths(ctx, items)
      && (forall p :: p in s.vault.files ==> p in v.files && v.files[p] == s.vault.files[p])
      && (forall i :: 0 <= i < |items| ==>
            && DocPathOf(ctx, items[i]) in v.files
            && v.files[DocPathOf(ctx, items[i])] ==
               Header(ctx, items[i]) + Body(ctx.extracted, items[i], s.vault.paths + DocPaths(ctx, items[..i])))
  {
    RunIsPartRun(ctx, s, items);
    UnconsolidatedVault(ctx, s, items, Run(ctx, s, items).vault);
  }

  lemma UnconsolidatedVault(ctx: Context, s: RunState, items: seq<Item>, v: VaultState)
    requires !ctx.consolidate
    requires forall i :: 0 <= i < |items| ==> Attached(ctx, items[i])
    requires forall i, j :: 0 <= i < j < |items| ==> items[i].key != items[j].key
    requires forall i :: 0 <= i < |items| ==> DocPathOf(ctx, items[i]) !in s.vault.files
    requires v == PartRun(PartsOf(ctx), s, items).vault
    ensures v.paths == s.vault.paths + DocPaths(ctx, items)
    ensures forall p :: p in s.vault.files ==> p in v.files && v.files[p] == s.vault.files[p]
    ensures forall i :: 0 <= i < |items| ==>
            && DocPathOf(ctx, items[i]) in v.files
            && v.files[DocPathOf(ctx, items[i])] ==
               Header(ctx, items[i]) + Body(ctx.extracted, items[i], s.vault.paths + DocPaths(ctx, items[..i]))
  {
    var w := PartsOf(ctx);
    DocPathsArePartPaths(ctx, items);
    PartPathsDistinct(ctx, items);
    PartsUnconsolidatedDocuments(w, s, items);
    forall i | 0 <= i < |items|
      ensures DocPathOf(ctx, items[i]) in v.files
      ensures v.files[DocPathOf(ctx, items[i])] ==
              Header(ctx, items[i]) + Body(ctx.extracted, items[i], s.vault.paths + DocPaths(ctx, items[..i]))
    {
      UnconsolidatedFile(ctx, s.vault.paths, items, v, i);
    }
  }

  /** The file a record's parts created is the importer's document for it. */
  lemma UnconsolidatedFile(ctx: Context, paths: seq<string>, items: seq<Item>, v: VaultState, i: nat)
    requires forall j :: 0 <= j < |items| ==> Attached(ctx, items[j])
    requires i < |items|
    requires PathOf(PartsOf(ctx), items[i]) in v.files
    requires v.files[PathOf(PartsOf(ctx), items[i])] ==
             PartsOf(ctx).header(items[i]) + PartsOf(ctx).body(items[i], paths + PartPaths(PartsOf(ctx), items[..i]))
    ensures DocPathOf(ctx, items[i]) in v.files
    ensures v.files[DocPathOf(ctx, items[i])] == Header(ctx, items[i]) + Body(ctx.extracted, items[i], paths + DocPaths(ctx, items[..i]))
  {
    DocPathsArePartPaths(ctx, items[..i]);
    PartsAgree(ctx, items[i], paths + DocPaths(ctx, items[..i]));
  }

  /** The parts of a context compute what the importer does for an attached record. */
  lemma PartsAgree(ctx: Context, item: Item, paths: seq<string>)
    requires Attached(ctx, item)
    ensures PathOf(PartsOf(ctx), item) == DocPathOf(ctx, item)
    ensures PartsOf(ctx).header(item) + PartsOf(ctx).body(item, paths) == Header(ctx, item) + Body(ctx.extracted, item, paths)
  {
  }

  /** The bodies of records, each seeing the listing `paths`. */
  function Bodies(ctx: Context, items: seq<Item>, paths: seq<string>): (bs: seq<string>)
    ensures |bs| == |items| && forall i :: 0 <= i < |items| ==> bs[i] == Body(ctx.extracted, items[i], paths)
  {
    seq(|items|, i requires 0 <= i < |items| => Body(ctx.extracted, items[i], paths))
  }

  /** With consolidation, attached records sharing a URL that has no document
      yet give a single document, named after the first of them: its header
      and body, then the body of each later record in order. Every body sees
      the listing as it stands once that document exists, and the URL map
      sends the URL to the first record's document name. */
  lemma ConsolidatedDocument(ctx: Context, s: RunState, items: seq<Item>, u: string)
    requires ctx.consolidate && items != []
    requires forall i :: 0 <= i < |items| ==> Attached(ctx, items[i]) && UrlOf(ctx, items[i]) == u
    requires u !in s.urlMap && DocPathOf(ctx, items[0]) !in s.vault.files
    ensures var r := Run(ctx, s, items);
      var p := DocPathOf(ctx, items[0]);
      && r.urlMap == s.urlMap[u := NameOf(ctx, items[0])]
      && r.vault.paths == s.vault.paths + [p]
      && r.vault.files == s.vault.files[p := Header(ctx, items[0]) + Body(ctx.extracted, items[0], s.vault.paths)
                                             + Concat(Bodies(ctx, items[1..], s.vault.paths + [p]))]
  {
    var w := PartsOf(ctx);
    var p := DocPathOf(ctx, items[0]);
    var opening := Header(ctx, items[0]) + Body(ctx.extracted, items[0], s.vault.paths);
    RunIsPartRun(ctx, s, items);
    PartsConsolidatedRun(w, s, items, u);
    PartsFirstOfUrl(w, s, items[0]);
    var first := PartStep(w, s, items[0]);
    assert first.vault == s.vault.Create(p, opening);
    var later := PartBodies(w, items[1..], first.vault.paths);
    PartBodiesAt(w, items[1..], first.vault.paths);
    assert later == Bodies(ctx, items[1..], s.vault.paths + [p]);
    OpenThenAppend(s.vault, p, opening, later);
  }
}
