/** The importer's tables: a JavaScript `Map` keyed by numeric id. Keys are
    kept in insertion order; setting a key that is already present replaces
    its value and keeps its position. */
module Tables {

  datatype Table<V> = Table(keys: seq<int>, entries: map<int, V>) {

    /** Keys are listed once each, and exactly the keys with an entry are listed. */
    ghost predicate Valid() {
      && (forall i, j :: 0 <= i < j < |keys| ==> keys[i] != keys[j])
      && (forall k :: k in entries <==> k in keys)
    }

    /** `Map.prototype.set`. */
    function Set(k: int, v: V): Table<V> {
      if k in entries then Table(keys, entries[k := v]) else Table(keys + [k], entries[k := v])
    }
  }

  function Empty<V>(): Table<V> {
    Table([], map[])
  }

  /** The table that setting each `(id, value)` row in turn produces. */
  function Build<V>(rows: seq<(int, V)>): Table<V>
    decreases |rows|
  {
    if rows == [] then Empty()
    else Build(rows[..|rows| - 1]).Set(rows[|rows| - 1].0, rows[|rows| - 1].1)
  }

  lemma {:induction false} BuildValid<V>(rows: seq<(int, V)>)
    ensures Build(rows).Valid()
    decreases |rows|
  {
    if rows != [] {
      BuildValid(rows[..|rows| - 1]);
    }
  }

  /** An id has an entry exactly when some row carries it. */
  lemma {:induction false} BuildHasKey<V>(rows: seq<(int, V)>, k: int)
    ensures k in Build(rows).entries <==> exists i :: 0 <= i < |rows| && rows[i].0 == k
    decreases |rows|
  {
    if rows != [] {
      var init := rows[..|rows| - 1];
      BuildHasKey(init, k);
      if exists i :: 0 <= i < |init| && init[i].0 == k {
        var i :| 0 <= i < |init| && init[i].0 == k;
        assert rows[i].0 == k;
      }
      if exists i :: 0 <= i < |rows| && rows[i].0 == k {
        var i :| 0 <= i < |rows| && rows[i].0 == k;
        if i < |init| {
          assert init[i].0 == k;
        }
      }
    }
  }

  /** The entry for an id is the value of the last row that carries it. */
  lemma {:induction false} BuildLastWins<V>(rows: seq<(int, V)>, i: nat)
    requires i < |rows|
    requires forall j :: i < j < |rows| ==> rows[j].0 != rows[i].0
    ensures rows[i].0 in Build(rows).entries && Build(rows).entries[rows[i].0] == rows[i].1
    decreases |rows|
  {
    if i < |rows| - 1 {
      var init := rows[..|rows| - 1];
      BuildLastWins(init, i);
    }
  }

  /** Ids are listed in the order of their first rows: every row carrying a
      later-listed id comes after some row carrying an earlier-listed one. */
  lemma {:induction false} BuildFirstSeenOrder<V>(rows: seq<(int, V)>, a: nat, b: nat, j: nat)
    requires a < b < |Build(rows).keys|
    requires j < |rows| && rows[j].0 == Build(rows).keys[b]
    ensures exists i :: 0 <= i < j && rows[i].0 == Build(rows).keys[a]
    decreases |rows|
  {
    var init := rows[..|rows| - 1];
    var before := Build(init);
    var keys := Build(rows).keys;
    BuildValid(init);
    BuildValid(rows);
    assert keys[..|before.keys|] == before.keys;
    assert a < |before.keys|;
    if j < |init| {
      assert init[j].0 == keys[b];
      BuildHasKey(init, keys[b]);
      var b' :| 0 <= b' < |before.keys| && before.keys[b'] == keys[b];
      assert keys[b'] == keys[b];
      assert b' == b;
      BuildFirstSeenOrder(init, a, b, j);
      var i :| 0 <= i < j && init[i].0 == before.keys[a];
      assert rows[i].0 == keys[a];
    } else {
      BuildHasKey(init, keys[a]);
      var i :| 0 <= i < |init| && init[i].0 == keys[a];
      assert rows[i].0 == keys[a];
    }
  }
}
