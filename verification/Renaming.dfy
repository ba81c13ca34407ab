/**
 Two-way name tables and the renaming of search-attribute keys through them. Go walks maps
 in no particular order, so when two keys collide after renaming either value may win;
 `IsRenaming` allows both.
 */
module Renaming {
  import opened Options

  datatype BiMap<K, V> = BiMap(forward: map<K, V>, backward: map<V, K>)

  ghost predicate Inverses<K, V>(m: BiMap<K, V>) {
    && (forall k :: k in m.forward ==> m.forward[k] in m.backward && m.backward[m.forward[k]] == k)
    && (forall v :: v in m.backward ==> m.backward[v] in m.forward && m.forward[m.backward[v]] == v)
  }

  ghost predicate DistinctKeys<K, V>(pairs: seq<(K, V)>) {
    forall i, j :: 0 <= i < j < |pairs| ==> pairs[i].0 != pairs[j].0
  }

  ghost predicate DistinctValues<K, V>(pairs: seq<(K, V)>) {
    forall i, j :: 0 <= i < j < |pairs| ==> pairs[i].1 != pairs[j].1
  }

  /** The table holds exactly the pairs. */
  ghost predicate Holds<K, V>(m: BiMap<K, V>, pairs: seq<(K, V)>) {
    && (forall i :: 0 <= i < |pairs| ==> pairs[i].0 in m.forward && m.forward[pairs[i].0] == pairs[i].1)
    && (forall i :: 0 <= i < |pairs| ==> pairs[i].1 in m.backward && m.backward[pairs[i].1] == pairs[i].0)
    && (forall k :: k in m.forward ==> (k, m.forward[k]) in pairs)
    && (forall v :: v in m.backward ==> (m.backward[v], v) in pairs)
  }

  lemma HoldsIsInverse<K, V>(m: BiMap<K, V>, pairs: seq<(K, V)>)
    requires Holds(m, pairs)
    ensures Inverses(m)
  {
  }

  lemma HoldsOneMore<K, V>(m: BiMap<K, V>, pairs: seq<(K, V)>, key: K, val: V)
    requires Holds(m, pairs) && key !in m.forward && val !in m.backward
    ensures Holds(BiMap(m.forward[key := val], m.backward[val := key]), pairs + [(key, val)])
  {
  }

  /** A repeated key or value in a prefix rules out distinctness. */
  lemma Repeats<K, V>(m: BiMap<K, V>, pairs: seq<(K, V)>, i: nat)
    requires i < |pairs| && Holds(m, pairs[..i])
    requires pairs[i].0 in m.forward || pairs[i].1 in m.backward
    ensures !(DistinctKeys(pairs) && DistinctValues(pairs))
  {
  }

  lemma StaysDistinct<K, V>(m: BiMap<K, V>, pairs: seq<(K, V)>, key: K, val: V)
    requires Holds(m, pairs) && DistinctKeys(pairs) && DistinctValues(pairs) && key !in m.forward && val !in m.backward
    ensures DistinctKeys(pairs + [(key, val)]) && DistinctValues(pairs + [(key, val)])
  {
  }

  /** NewStaticBiMap: succeeds exactly for distinct keys and distinct values. */
  method NewStaticBiMap<K(==), V(==)>(pairs: seq<(K, V)>) returns (table: Option<BiMap<K, V>>)
    ensures table.Some? <==> DistinctKeys(pairs) && DistinctValues(pairs)
    ensures table.Some? ==> Holds(table.value, pairs) && Inverses(table.value)
  {
    var m := BiMap(map[], map[]);
    for i := 0 to |pairs|
      invariant Holds(m, pairs[..i]) && DistinctKeys(pairs[..i]) && DistinctValues(pairs[..i])
    {
      var (key, val) := pairs[i];
      if key in m.forward {
        Repeats(m, pairs, i);
        return None;
      }
      if val in m.backward {
        Repeats(m, pairs, i);
        return None;
      }
      HoldsOneMore(m, pairs[..i], key, val);
      StaysDistinct(m, pairs[..i], key, val);
      assert pairs[..i + 1] == pairs[..i] + [pairs[i]];
      m := BiMap(m.forward[key := val], m.backward[val := key]);
    }
    assert pairs[..|pairs|] == pairs;
    HoldsIsInverse(m, pairs);
    table := Some(m);
  }

  // ---------- renaming field maps ----------

  /** The matcher built from one direction of a table. */
  function Renamed(names: map<string, string>, key: string): string {
    if key in names then names[key] else key
  }

  function Renamer(names: map<string, string>): string -> string {
    k => Renamed(names, k)
  }

  /** `out` is `fields` with every key sent through f, either value winning a collision. */
  ghost predicate SentThrough<P>(f: string -> string, fields: map<string, P>, out: map<string, P>) {
    && (forall k :: k in fields ==> f(k) in out)
    && (forall n :: n in out ==> ComesFrom(f, fields, n, out[n]))
  }

  ghost predicate ComesFrom<P>(f: string -> string, fields: map<string, P>, name: string, value: P) {
    exists k :: k in fields && f(k) == name && value == fields[k]
  }

  /** `out` has exactly the renamed keys, each with the value of some field renamed to it. */
  ghost predicate IsRenaming<P>(names: map<string, string>, fields: map<string, P>, out: map<string, P>) {
    SentThrough(Renamer(names), fields, out)
  }

  /** translateIndexedFields, with the map walked in any order. */
  method TranslateIndexedFields<P>(names: map<string, string>, fields: map<string, P>)
    returns (out: map<string, P>, anyMatched: bool)
    ensures IsRenaming(names, fields, out)
    ensures forall k :: k in fields ==> (if k in names then names[k] else k) in out
    ensures forall n :: n in out ==>
              exists k :: k in fields && n == (if k in names then names[k] else k) && out[n] == fields[k]
    ensures anyMatched <==> exists k :: k in fields && k in names
  {
    out, anyMatched := map[], false;
    var left := fields.Keys;
    while left != {}
      invariant left <= fields.Keys
      invariant forall k :: k in fields && k !in left ==> Renamed(names, k) in out
      invariant forall n :: n in out ==> ComesFrom(Renamer(names), fields, n, out[n])
      invariant anyMatched <==> exists k :: k in fields && k !in left && k in names
      decreases |left|
    {
      var key :| key in left;
      left := left - {key};
      assert Renamer(names)(key) == Renamed(names, key);
      var matched := key in names;
      anyMatched := anyMatched || matched;
      if matched && key != names[key] {
        out := out[names[key] := fields[key]];
      } else {
        out := out[key := fields[key]];
      }
    }
  }

  /** No field key outside the table is a name the table renames to. */
  ghost predicate NoStrayNames<P>(m: BiMap<string, string>, fields: map<string, P>) {
    forall k :: k in fields && k !in m.forward ==> k !in m.backward
  }

  /** Renaming there and back moves exactly the stray keys. */
  lemma BackAndForth(m: BiMap<string, string>, k: string)
    requires Inverses(m)
    ensures k in m.forward || k !in m.backward ==> Renamed(m.backward, Renamed(m.forward, k)) == k
    ensures k !in m.forward && k in m.backward ==> forall j :: Renamed(m.backward, Renamed(m.forward, j)) != k
  {
  }

  lemma StraylessRestored<P>(
    m: BiMap<string, string>, fields: map<string, P>, there: map<string, P>, back: map<string, P>)
    requires Inverses(m) && NoStrayNames(m, fields)
    requires IsRenaming(m.forward, fields, there) && IsRenaming(m.backward, there, back)
    ensures back == fields
  {
    forall k | k in fields
      ensures k in back && Renamed(m.backward, Renamed(m.forward, k)) == k
    {
      BackAndForth(m, k);
    }
  }

  lemma StrayIsMoved<P>(
    m: BiMap<string, string>, fields: map<string, P>, there: map<string, P>, back: map<string, P>, k: string)
    requires Inverses(m) && k !in m.forward && k in m.backward
    requires IsRenaming(m.forward, fields, there) && IsRenaming(m.backward, there, back)
    ensures k !in back
  {
    BackAndForth(m, k);
  }

  /**
   Renaming a field map and renaming the result back restores it, whatever order the maps
   were walked in, exactly when no unmapped key is one of the new names.
   */
  lemma RenamingRoundTrips<P>(
    m: BiMap<string, string>, fields: map<string, P>, there: map<string, P>, back: map<string, P>)
    requires Inverses(m)
    requires IsRenaming(m.forward, fields, there) && IsRenaming(m.backward, there, back)
    ensures back == fields <==> NoStrayNames(m, fields)
  {
    if NoStrayNames(m, fields) {
      StraylessRestored(m, fields, there, back);
    } else {
      var k :| k in fields && k !in m.forward && k in m.backward;
      StrayIsMoved(m, fields, there, back, k);
    }
  }

  /** The method itself, there and back through the two directions of a table. */
  method RenameAndBack<P>(m: BiMap<string, string>, fields: map<string, P>) returns (back: map<string, P>)
    requires Inverses(m)
    ensures back == fields <==> NoStrayNames(m, fields)
  {
    var there, _ := TranslateIndexedFields(m.forward, fields);
    var b, _ := TranslateIndexedFields(m.backward, there);
    back := b;
    RenamingRoundTrips(m, fields, there, back);
  }
}
