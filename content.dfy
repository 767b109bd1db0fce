/** The pieces a document is assembled from: body text with vault titles
    turned into wikilinks (`processNoteContent`, src/hunchly.ts:192-200), the
    selector block (`addSelectors`, src/hunchly.ts:237-246) and the image
    embed (`addImages`, src/hunchly.ts:202-210). */
module Content {
  import opened Strings
  import opened Names
  import opened Tables

  /** The link that replaces an occurrence of a vault title. */
  function Link(mask: string): string {
    " [[" + mask + "]] "
  }

  /** The search text made from a vault file name: the name with its first `.md` removed. */
  function Mask(fileName: string): string {
    RemoveFirst(fileName, ".md")
  }

  /** The names of the markdown files of a vault listing, in listing order
      (`vault.getMarkdownFiles()` and `file.name`). */
  function MarkdownNames(paths: seq<string>): seq<string>
    decreases |paths|
  {
    if paths == [] then []
    else
      var path := paths[|paths| - 1];
      MarkdownNames(paths[..|paths| - 1]) + (if EndsWith(path, ".md") then [Basename(path)] else [])
  }

  /** `text` after one replacement per file name, in order, each applied to
      the result of the previous ones. */
  function Rewrite(text: string, names: seq<string>): string
    decreases |names|
  {
    if names == [] then text
    else
      var mask := Mask(names[|names| - 1]);
      ReplaceAllCI(Rewrite(text, names[..|names| - 1]), mask, Link(mask))
  }

  lemma {:induction false} RewriteNeverShrinks(text: string, names: seq<string>)
    ensures |Rewrite(text, names)| >= |text|
    decreases |names|
  {
    if names != [] {
      var mask := Mask(names[|names| - 1]);
      RewriteNeverShrinks(text, names[..|names| - 1]);
      ReplaceAllNeverShrinks(Rewrite(text, names[..|names| - 1]), mask, Link(mask));
    }
  }

  lemma {:induction false} RewriteIdentity(text: string, names: seq<string>)
    requires forall i :: 0 <= i < |names| ==> !OccursCI(text, Mask(names[i]))
    ensures Rewrite(text, names) == text
    decreases |names|
  {
    if names != [] {
      var init := names[..|names| - 1];
      assert forall i :: 0 <= i < |init| ==> init[i] == names[i];
      RewriteIdentity(text, init);
      var mask := Mask(names[|names| - 1]);
      ReplaceAllIdentityWhenAbsent(text, mask, Link(mask));
    }
  }

  lemma {:induction false} RewriteGrows(text: string, names: seq<string>, k: nat)
    requires k < |names| && OccursCI(text, Mask(names[k]))
    ensures |Rewrite(text, names)| > |text|
    decreases |names|
  {
    var init := names[..|names| - 1];
    var mask := Mask(names[|names| - 1]);
    var before := Rewrite(text, init);
    assert Rewrite(text, names) == ReplaceAllCI(before, mask, Link(mask));
    if k < |init| {
      assert init[k] == names[k];
      RewriteGrows(text, init, k);
      ReplaceAllNeverShrinks(before, mask, Link(mask));
    } else if exists i :: 0 <= i < |init| && OccursCI(text, Mask(init[i])) {
      var i :| 0 <= i < |init| && OccursCI(text, Mask(init[i]));
      RewriteGrows(text, init, i);
      ReplaceAllNeverShrinks(before, mask, Link(mask));
    } else {
      RewriteIdentity(text, init);
      ReplaceAllGrowsWhenFound(text, mask, Link(mask));
    }
  }

  /** The wikilink pass leaves a text unchanged exactly when no vault title
      occurs in it, ignoring ASCII case. */
  lemma RewriteUnchangedIff(text: string, names: seq<string>)
    ensures Rewrite(text, names) == text <==> forall i :: 0 <= i < |names| ==> !OccursCI(text, Mask(names[i]))
  {
    if exists k :: 0 <= k < |names| && OccursCI(text, Mask(names[k])) {
      var k :| 0 <= k < |names| && OccursCI(text, Mask(names[k]));
      RewriteGrows(text, names, k);
    } else {
      RewriteIdentity(text, names);
    }
  }

  /** The tag shown for selector `id`: nothing when the id has no label or an empty one. */
  function Tag(id: int, selectors: Table<string>): string {
    if id in selectors.entries && selectors.entries[id] != "" then "#" + SanitiseLabel(selectors.entries[id]) + "\t"
    else ""
  }

  function Tags(ids: seq<int>, selectors: Table<string>): string
    decreases |ids|
  {
    if ids == [] then "" else Tags(ids[..|ids| - 1], selectors) + Tag(ids[|ids| - 1], selectors)
  }

  /** The block `addSelectors` appends for a page's hits. */
  function SelectorBlock(ids: seq<int>, selectors: Table<string>): string {
    "#### Selectors\n\n" + Tags(ids, selectors) + "\n\n---\n"
  }

  /** One more hit: its tag, when shown, goes after the tags so far. */
  lemma TagAppended(prefix: string, ids: seq<int>, i: nat, selectors: Table<string>)
    requires i < |ids|
    ensures var id := ids[i];
      prefix + Tags(ids[..i + 1], selectors) ==
        if id in selectors.entries && selectors.entries[id] != "" then prefix + Tags(ids[..i], selectors) + "#" + SanitiseLabel(selectors.entries[id]) + "\t"
        else prefix + Tags(ids[..i], selectors)
  {
    var tags := Tags(ids[..i], selectors);
    assert ids[..i + 1][..i] == ids[..i];
    assert Tags(ids[..i + 1], selectors) == tags + Tag(ids[i], selectors);
    if ids[i] in selectors.entries && selectors.entries[ids[i]] != "" {
      AppendTag(prefix, tags, SanitiseLabel(selectors.entries[ids[i]]));
    }
  }

  lemma AppendTag(prefix: string, tags: string, shown: string)
    ensures prefix + (tags + ("#" + shown + "\t")) == prefix + tags + "#" + shown + "\t"
  {
  }

  method AddSelectors(selectorHits: seq<int>, selectors: Table<string>, fileContent: string) returns (r: string)
    ensures r == fileContent + SelectorBlock(selectorHits, selectors)
  {
    var opening := fileContent + "#### Selectors\n\n";
    r := opening;
    for i := 0 to |selectorHits|
      invariant r == opening + Tags(selectorHits[..i], selectors)
    {
      TagAppended(opening, selectorHits, i, selectors);
      var selector := selectorHits[i];
      if selector in selectors.entries {
        var sel := selectors.entries[selector];
        if sel != "" {
          r := r + "#" + SanitiseLabel(sel) + "\t";
        }
      }
    }
    assert selectorHits[..|selectorHits|] == selectorHits;
    r := r + "\n\n---\n";
  }

  /** The sanitised labels of the hits that have a non-empty label, in hit order. */
  function Labels(ids: seq<int>, selectors: Table<string>): seq<string>
    decreases |ids|
  {
    if ids == [] then []
    else
      var id := ids[|ids| - 1];
      Labels(ids[..|ids| - 1], selectors)
      + (if id in selectors.entries && selectors.entries[id] != "" then [SanitiseLabel(selectors.entries[id])] else [])
  }

  /** The pieces of `s` between occurrences of `c`. */
  function Split(s: string, c: char): (parts: seq<string>)
    ensures |parts| >= 1
    decreases |s|
  {
    if s == [] then [[]]
    else
      var parts := Split(s[..|s| - 1], c);
      if s[|s| - 1] == c then parts + [[]]
      else parts[..|parts| - 1] + [parts[|parts| - 1] + [s[|s| - 1]]]
  }

  lemma {:induction false} SplitAfterSeparator(a: string, c: char, x: string)
    requires forall i :: 0 <= i < |x| ==> x[i] != c
    ensures Split(a + [c] + x, c) == Split(a, c) + [x]
    decreases |x|
  {
    var s := a + [c] + x;
    if x == [] {
      assert s[..|s| - 1] == a;
    } else {
      var init := x[..|x| - 1];
      assert s[..|s| - 1] == a + [c] + init;
      SplitAfterSeparator(a, c, init);
      assert init + [x[|x| - 1]] == x;
    }
  }

  /** The selector tags read back: cutting them at each `#` gives exactly the
      shown labels, each followed by its tab, because a sanitised label holds no `#`. */
  lemma {:induction false} TagsReadBack(ids: seq<int>, selectors: Table<string>)
    ensures var parts := Split(Tags(ids, selectors), '#');
      var labels := Labels(ids, selectors);
      && |parts| == |labels| + 1
      && parts[0] == ""
      && forall i :: 0 <= i < |labels| ==> parts[i + 1] == labels[i] + "\t"
    decreases |ids|
  {
    if ids != [] {
      var init := ids[..|ids| - 1];
      var id := ids[|ids| - 1];
      TagsReadBack(init, selectors);
      if id in selectors.entries && selectors.entries[id] != "" {
        var shown := SanitiseLabel(selectors.entries[id]);
        SanitisedLabelShape(selectors.entries[id]);
        var x := shown + "\t";
        assert forall i :: 0 <= i < |x| ==> x[i] != '#' by {
          forall i | 0 <= i < |x|
            ensures x[i] != '#'
          {
            if i < |shown| {
              assert x[i] == shown[i] && shown[i] !in LABEL_FORBIDDEN;
            }
          }
        }
        assert Tags(ids, selectors) == Tags(init, selectors) + ['#'] + x;
        SplitAfterSeparator(Tags(init, selectors), '#', x);
        assert Labels(ids, selectors) == Labels(init, selectors) + [shown];
      } else {
        assert Tag(id, selectors) == "";
        assert Tags(ids, selectors) == Tags(init, selectors);
        assert Labels(ids, selectors) == Labels(init, selectors);
      }
    }
  }

  /** The embed line for an image that exists among the extracted files, else nothing. */
  function Embed(extracted: set<string>, folder: string, fileName: string): string {
    if folder + "/" + fileName in extracted then "![[" + fileName + "]]\n" else ""
  }
}
