/** The importer's step (src/hunchly.ts:108-141 and 147-181) with what it
    computes about a record (whether its page is known, its URL, its
    document name, header and body) taken as given functions. `PartsOf`
    fills them in from a context, and `Run` is the run of its parts, so a
    fact proved for arbitrary parts holds of the importer. Proved this way,
    facts about a run do not depend on how names and contents are spelled. */
module StepParts {
  import opened Vaults
  import opened Import

  /** One step of the importer, with what it computes about a record left abstract. */
  datatype Parts = Parts(attached: Item -> bool, url: Item -> string, name: Item -> string,
                         header: Item -> string, body: (Item, seq<string>) -> string,
                         location: string, consolidate: bool)

  function PartsOf(ctx: Context): Parts {
    Parts(item => Attached(ctx, item),
          item => if Attached(ctx, item) then UrlOf(ctx, item) else "",
          item => if Attached(ctx, item) then NameOf(ctx, item) else "",
          item => if Attached(ctx, item) then Header(ctx, item) else "",
          (item, paths) => Body(ctx.extracted, item, paths),
          ctx.location, ctx.consolidate)
  }

  function PathOf(w: Parts, item: Item): string {
    DocPath(w.location, w.name(item))
  }

  function PartStep(w: Parts, s: RunState, item: Item): RunState {
    if !w.attached(item) then s
    else
      var body := w.body(item, s.vault.paths);
      var url := w.url(item);
      if url in s.urlMap && w.consolidate then
        RunState(s.vault.Append(DocPath(w.location, s.urlMap[url]), body), s.urlMap)
      else
        RunState(s.vault.Create(PathOf(w, item), w.header(item) + body), s.urlMap[url := w.name(item)])
  }

  function PartRun(w: Parts, s: RunState, items: seq<Item>): RunState
    decreases |items|
  {
    if items == [] then s else PartStep(w, PartRun(w, s, items[..|items| - 1]), items[|items| - 1])
  }

  lemma StepIsPartStep(ctx: Context, s: RunState, item: Item)
    ensures Step(ctx, s, item) == PartStep(PartsOf(ctx), s, item)
  {
  }

  /** The importer's run is the run of its parts. */
  lemma {:induction false} RunIsPartRun(ctx: Context, s: RunState, items: seq<Item>)
    ensures Run(ctx, s, items) == PartRun(PartsOf(ctx), s, items)
    decreases |items|
  {
    if items != [] {
      var init := items[..|items| - 1];
      RunIsPartRun(ctx, s, init);
      StepIsPartStep(ctx, Run(ctx, s, init), items[|items| - 1]);
    }
  }
}
