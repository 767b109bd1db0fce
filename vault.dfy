/** The destination vault, as far as the importer uses it: a listing of file
    paths in creation order, the content of each file, `create` (which fails,
    leaving the vault unchanged, when the path is taken; the importer catches
    the failure, src/hunchly.ts:212-219) and `append` (which the importer only
    performs when a file is found at the path, src/hunchly.ts:221-232). */
module Vaults {

  datatype VaultState = VaultState(paths: seq<string>, files: map<string, string>) {

    /** The listing names each file once, and exactly the files there are. */
    ghost predicate Valid() {
      && (forall i, j :: 0 <= i < j < |paths| ==> paths[i] != paths[j])
      && (forall p :: p in files <==> p in paths)
    }

    function Create(path: string, content: string): VaultState {
      if path in files then this else VaultState(paths + [path], files[path := content])
    }

    function Append(path: string, content: string): VaultState {
      if path in files then VaultState(paths, files[path := files[path] + content]) else this
    }
  }

  /** Creating and appending keep the vault consistent; appending never changes
      the listing, and creating adds the new path at its end. */
  lemma CreateAppendValid(v: VaultState, path: string, content: string)
    requires v.Valid()
    ensures v.Create(path, content).Valid() && v.Append(path, content).Valid()
    ensures v.Append(path, content).paths == v.paths
    ensures v.Create(path, content).paths == if path in v.files then v.paths else v.paths + [path]
  {
  }

  /** The vault after creating each path of `ps` in turn with the matching content of `cs`. */
  function CreateAll(v: VaultState, ps: seq<string>, cs: seq<string>): VaultState
    requires |ps| == |cs|
    decreases |ps|
  {
    if ps == [] then v else CreateAll(v, ps[..|ps| - 1], cs[..|cs| - 1]).Create(ps[|ps| - 1], cs[|cs| - 1])
  }

  lemma CreateAllSnoc(v: VaultState, ps: seq<string>, cs: seq<string>, p: string, c: string)
    requires |ps| == |cs|
    ensures CreateAll(v, ps + [p], cs + [c]) == CreateAll(v, ps, cs).Create(p, c)
  {
    assert (ps + [p])[..|ps|] == ps && (cs + [c])[..|cs|] == cs;
  }

  /** Creating paths in turn leaves files at exactly the paths there were and the paths created. */
  lemma {:induction false} CreateAllKeys(v: VaultState, ps: seq<string>, cs: seq<string>)
    requires |ps| == |cs|
    ensures CreateAll(v, ps, cs).files.Keys == v.files.Keys + set p | p in ps
    decreases |ps|
  {
    if ps != [] {
      var n := |ps| - 1;
      CreateAllKeys(v, ps[..n], cs[..n]);
      assert ps == ps[..n] + [ps[n]];
    }
  }

  /** Creating distinct new paths adds them to the listing in order, each
      with its own content, and leaves the files already there alone. */
  lemma {:induction false} CreateAllFresh(v: VaultState, ps: seq<string>, cs: seq<string>)
    requires |ps| == |cs|
    requires forall i, j :: 0 <= i < j < |ps| ==> ps[i] != ps[j]
    requires forall i :: 0 <= i < |ps| ==> ps[i] !in v.files
    ensures var w := CreateAll(v, ps, cs);
      && w.paths == v.paths + ps
      && (forall p :: p in v.files ==> p in w.files && w.files[p] == v.files[p])
      && (forall i :: 0 <= i < |ps| ==> ps[i] in w.files && w.files[ps[i]] == cs[i])
    decreases |ps|
  {
    if ps != [] {
      var n := |ps| - 1;
      var init := ps[..n];
      var mid := CreateAll(v, init, cs[..n]);
      CreateAllFresh(v, init, cs[..n]);
      var last := ps[n];
      assert last !in mid.files by {
        CreateAllKeys(v, init, cs[..n]);
        forall i | 0 <= i < n
          ensures init[i] != last
        {
          assert init[i] == ps[i];
        }
      }
      assert init + [last] == ps;
      forall i | 0 <= i < n
        ensures ps[i] != last && init[i] == ps[i] && cs[..n][i] == cs[i]
      {
      }
    }
  }

  /** The concatenation of `cs`. */
  function Concat(cs: seq<string>): string
    decreases |cs|
  {
    if cs == [] then "" else Concat(cs[..|cs| - 1]) + cs[|cs| - 1]
  }

  /** The vault after appending each text of `cs` in turn to the file at `p`. */
  function AppendAll(v: VaultState, p: string, cs: seq<string>): VaultState
    decreases |cs|
  {
    if cs == [] then v else AppendAll(v, p, cs[..|cs| - 1]).Append(p, cs[|cs| - 1])
  }

  /** Appending to an existing file extends it by the texts in order and
      changes nothing else. */
  lemma {:induction false} AppendAllExisting(v: VaultState, p: string, cs: seq<string>)
    requires p in v.files
    ensures AppendAll(v, p, cs) == VaultState(v.paths, v.files[p := v.files[p] + Concat(cs)])
    decreases |cs|
  {
    if cs != [] {
      AppendAllExisting(v, p, cs[..|cs| - 1]);
      var init := Concat(cs[..|cs| - 1]);
      assert v.files[p] + init + cs[|cs| - 1] == v.files[p] + Concat(cs);
    } else {
      assert v.files[p] + Concat(cs) == v.files[p];
      assert v.files[p := v.files[p]] == v.files;
    }
  }

  /** A document created with `opening` and then appended `later`, in order. */
  lemma OpenThenAppend(v: VaultState, p: string, opening: string, later: seq<string>)
    requires p !in v.files
    ensures AppendAll(v.Create(p, opening), p, later) == VaultState(v.paths + [p], v.files[p := opening + Concat(later)])
  {
    AppendAllExisting(v.Create(p, opening), p, later);
  }

  class Vault {
    var paths: seq<string>
    var files: map<string, string>

    function State(): VaultState
      reads this
    {
      VaultState(paths, files)
    }

    constructor (initial: VaultState)
      ensures State() == initial
    {
      paths := initial.paths;
      files := initial.files;
    }

    /** `vault.create`, with its failure on an existing path caught. */
    method Create(path: string, content: string)
      modifies this
      ensures State() == old(State()).Create(path, content)
      ensures old(path in files) ==> files == old(files) && paths == old(paths)
      ensures old(path !in files) ==> paths == old(paths) + [path] && files == old(files)[path := content]
    {
      if path !in files {
        paths := paths + [path];
        files := files[path := content];
      }
    }

    /** `vault.append` on the file found at `path`; nothing when there is none. */
    method Append(path: string, content: string)
      modifies this
      ensures State() == old(State()).Append(path, content)
      ensures paths == old(paths)
      ensures old(path in files) ==> files == old(files)[path := old(files)[path] + content]
      ensures old(path !in files) ==> files == old(files)
    {
      if path in files {
        files := files[path := files[path] + content];
      }
    }
  }
}
