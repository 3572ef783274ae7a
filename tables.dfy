/**
 The JavaScript `Map<string, V>` each table of the store lives in: a finite map
 from ids to records that also remembers the order in which keys were first
 inserted, because `map.values()` enumerates in that order.
 */
module Tables {
  import opened Wrappers
  import opened ListOps

  datatype Table<V> = Table(keys: seq<string>, rows: map<string, V>)

  /** Every key occurs once in the insertion order, and the order lists exactly the keys of the map. */
  ghost predicate Valid<V>(t: Table<V>)
  {
    && (forall i, j :: 0 <= i < j < |t.keys| ==> t.keys[i] != t.keys[j])
    && (forall k :: k in t.rows <==> k in t.keys)
  }

  /** `new Map()`. */
  function Empty<V>(): (t: Table<V>)
    ensures Valid(t) && t.rows == map[] && Values(t) == []
  {
    Table([], map[])
  }

  /** `map.get(k)`: the record stored under `k`, or `undefined`. */
  function Get<V>(t: Table<V>, k: string): Option<V>
  {
    if k in t.rows then Some(t.rows[k]) else None
  }

  /** `map.size`. */
  function Size<V>(t: Table<V>): nat
  {
    |t.rows|
  }

  /** The position of `k` in a sequence that contains it: its first occurrence. */
  function IndexOf(ks: seq<string>, k: string): (i: nat)
    requires k in ks
    ensures i < |ks| && ks[i] == k
    ensures forall j :: 0 <= j < i ==> ks[j] != k
  {
    if ks[0] == k then 0 else 1 + IndexOf(ks[1..], k)
  }

  /** `map.set(k, v)`: a new key goes to the end of the order, an existing key keeps its place. */
  function Put<V>(t: Table<V>, k: string, v: V): (r: Table<V>)
    requires Valid(t)
    ensures Valid(r)
  {
    if k in t.rows then Table(t.keys, t.rows[k := v])
    else Table(t.keys + [k], t.rows[k := v])
  }

  /** `map.delete(k)` without its boolean result: the entry and its place in the order go. */
  function Remove<V>(t: Table<V>, k: string): (r: Table<V>)
    requires Valid(t)
    ensures Valid(r)
  {
    if k in t.rows then
      var i := IndexOf(t.keys, k);
      CutValid(t, k, i);
      Table(t.keys[..i] + t.keys[i + 1..], t.rows - {k})
    else t
  }

  lemma CutValid<V>(t: Table<V>, k: string, i: nat)
    requires Valid(t) && i < |t.keys| && t.keys[i] == k
    ensures Valid(Table(t.keys[..i] + t.keys[i + 1..], t.rows - {k}))
  {
    CutKeys(t.keys, i);
  }

  /** Cutting one entry out of a list without repeats leaves a list without repeats that lacks just that entry. */
  lemma CutKeys(ks: seq<string>, i: nat)
    requires i < |ks| && forall a, b :: 0 <= a < b < |ks| ==> ks[a] != ks[b]
    ensures var c := ks[..i] + ks[i + 1..];
      && (forall a, b :: 0 <= a < b < |c| ==> c[a] != c[b])
      && (forall x :: x in c <==> x in ks && x != ks[i])
  {
    var c := ks[..i] + ks[i + 1..];
    CutLength(ks, i);
    forall a, b | 0 <= a < b < |c|
      ensures c[a] != c[b]
    {
      CutAt(ks, i, a);
      CutAt(ks, i, b);
    }
    forall x
      ensures x in c <==> x in ks && x != ks[i]
    {
      if x in c {
        var a :| 0 <= a < |c| && c[a] == x;
        CutAt(ks, i, a);
      }
      if x in ks && x != ks[i] {
        var a :| 0 <= a < |ks| && ks[a] == x;
        if a < i {
          CutAt(ks, i, a);
        } else {
          CutAt(ks, i, a - 1);
        }
      }
    }
  }

  /** The records stored under the keys `ks`, in that order. */
  function Lookup<V>(ks: seq<string>, rows: map<string, V>): (vs: seq<V>)
    requires forall k :: k in ks ==> k in rows
    ensures |vs| == |ks|
    ensures forall i :: 0 <= i < |ks| ==> vs[i] == rows[ks[i]]
  {
    if ks == [] then [] else [rows[ks[0]]] + Lookup(ks[1..], rows)
  }

  /** `Array.from(map.values())`: every stored record once, in insertion order of its key. */
  function Values<V>(t: Table<V>): (vs: seq<V>)
    requires Valid(t)
    ensures |vs| == |t.keys|
    ensures forall i :: 0 <= i < |t.keys| ==> vs[i] == t.rows[t.keys[i]]
  {
    Lookup(t.keys, t.rows)
  }

  /** The value list holds exactly the stored records. */
  lemma ValuesMembers<V>(t: Table<V>)
    requires Valid(t)
    ensures forall v :: v in Values(t) <==> exists k :: k in t.rows && t.rows[k] == v
  {
    forall v | exists k :: k in t.rows && t.rows[k] == v
      ensures v in Values(t)
    {
      var k :| k in t.rows && t.rows[k] == v;
      assert Values(t)[IndexOf(t.keys, k)] == v;
    }
  }

  // ----- map.get after map.set / map.delete -----

  /** After `map.set(k, v)`, `get(k)` is `v` and every other key answers as before. */
  lemma GetPut<V>(t: Table<V>, k: string, v: V)
    requires Valid(t)
    ensures forall k' :: Get(Put(t, k, v), k') == if k' == k then Some(v) else Get(t, k')
  {
  }

  /** After `map.delete(k)`, `get(k)` is absent and every other key answers as before. */
  lemma GetRemove<V>(t: Table<V>, k: string)
    requires Valid(t)
    ensures forall k' :: Get(Remove(t, k), k') == if k' == k then None else Get(t, k')
  {
  }

  /** `map.set(k, v)` stores `v` under `k` and touches no other entry. */
  lemma PutRows<V>(t: Table<V>, k: string, v: V)
    requires Valid(t)
    ensures Put(t, k, v).rows == t.rows[k := v]
  {
  }

  /** `map.size` after `map.set(k, v)`: one more exactly when `k` was absent. */
  lemma SizePut<V>(t: Table<V>, k: string, v: V)
    requires Valid(t)
    ensures Size(Put(t, k, v)) == Size(t) + if k in t.rows then 0 else 1
  {
    PutRows(t, k, v);
    if k !in t.rows {
      assert Put(t, k, v).rows.Keys == t.rows.Keys + {k};
    } else {
      assert Put(t, k, v).rows.Keys == t.rows.Keys;
    }
  }

  /** `map.size` after `map.delete(k)`: one less exactly when `k` was present. */
  lemma SizeRemove<V>(t: Table<V>, k: string)
    requires Valid(t)
    ensures Size(Remove(t, k)) == Size(t) - if k in t.rows then 1 else 0
  {
    if k in t.rows {
      assert t.rows.Keys == Remove(t, k).rows.Keys + {k};
    }
  }

  /** `map.set` on a key already present leaves the key set and the order as they were. */
  lemma PutExistingKeepsKeys<V>(t: Table<V>, k: string, v: V)
    requires Valid(t) && k in t.rows
    ensures Put(t, k, v).keys == t.keys && Put(t, k, v).rows.Keys == t.rows.Keys
  {
  }

  /** Every record is stored under its own key, as `key` reads it off the record. */
  ghost predicate KeyedBy<V>(t: Table<V>, key: V -> string)
  {
    forall k :: k in t.rows ==> key(t.rows[k]) == k
  }

  lemma KeyedPut<V>(t: Table<V>, k: string, v: V, key: V -> string)
    requires Valid(t) && KeyedBy(t, key) && key(v) == k
    ensures KeyedBy(Put(t, k, v), key)
  {
  }

  lemma KeyedRemove<V>(t: Table<V>, k: string, key: V -> string)
    requires Valid(t) && KeyedBy(t, key)
    ensures KeyedBy(Remove(t, k), key)
  {
  }

  // ----- the value list after map.set / map.delete -----

  /** Storing under a fresh key appends the record to the end of the value list. */
  lemma ValuesPutNew<V>(t: Table<V>, k: string, v: V)
    requires Valid(t) && k !in t.rows
    ensures Values(Put(t, k, v)) == Values(t) + [v]
  {
    var r := Put(t, k, v);
    assert forall i :: 0 <= i < |t.keys| ==> t.keys[i] != k;
    assert Values(r) == Values(t) + [v] by {
      forall i | 0 <= i < |r.keys|
        ensures Values(r)[i] == (Values(t) + [v])[i]
      {
      }
    }
  }

  /** A key occurs in the insertion order only at its own position. */
  lemma OnlyAtIndex<V>(t: Table<V>, k: string, j: int)
    requires Valid(t) && k in t.rows && 0 <= j < |t.keys|
    ensures t.keys[j] == k <==> j == IndexOf(t.keys, k)
  {
  }

  lemma SpliceAt<T>(s: seq<T>, i: int, x: T, j: int)
    requires 0 <= i < |s| && 0 <= j < |s|
    ensures |s[..i] + [x] + s[i + 1..]| == |s|
    ensures (s[..i] + [x] + s[i + 1..])[j] == if j == i then x else s[j]
  {
  }

  lemma SliceAround<T>(a: seq<T>, x: T, b: seq<T>)
    ensures (a + [x] + b)[..|a|] == a && (a + [x] + b)[|a| + 1..] == b
  {
  }

  lemma SplitAt<T>(s: seq<T>, i: int)
    requires 0 <= i < |s|
    ensures s == s[..i] + [s[i]] + s[i + 1..]
  {
  }

  lemma CutLength<T>(s: seq<T>, i: int)
    requires 0 <= i < |s|
    ensures |s[..i] + s[i + 1..]| == |s| - 1
  {
  }

  lemma CutAt<T>(s: seq<T>, i: int, j: int)
    requires 0 <= i < |s| && 0 <= j < |s| - 1
    ensures (s[..i] + s[i + 1..])[j] == if j < i then s[j] else s[j + 1]
  {
  }

  /** Storing under a present key replaces its record in place in the value list. */
  lemma ValuesPutExisting<V>(t: Table<V>, k: string, v: V)
    requires Valid(t) && k in t.rows
    ensures var i := IndexOf(t.keys, k);
      && Values(t)[i] == t.rows[k]
      && Values(Put(t, k, v)) == Values(t)[..i] + [v] + Values(t)[i + 1..]
  {
    var i := IndexOf(t.keys, k);
    var vs, ws := Values(t), Values(Put(t, k, v));
    var spliced := vs[..i] + [v] + vs[i + 1..];
    SpliceAt(vs, i, v, 0);
    forall j | 0 <= j < |ws|
      ensures ws[j] == spliced[j]
    {
      OnlyAtIndex(t, k, j);
      SpliceAt(vs, i, v, j);
    }
    assert ws == spliced;
  }

  lemma ValuesRemove<V>(t: Table<V>, k: string)
    requires Valid(t) && k in t.rows
    ensures var i := IndexOf(t.keys, k);
      Values(Remove(t, k)) == Values(t)[..i] + Values(t)[i + 1..]
  {
    var i := IndexOf(t.keys, k);
    var l1, l2 := Lookup(t.keys[..i], t.rows), Lookup(t.keys[i + 1..], t.rows);
    ValuesAround(t, k);
    ValuesWithout(t, k);
    assert |l1| == i;
    SliceAround(l1, t.rows[k], l2);
  }

  /** The value list split around the record stored under `k`. */
  lemma ValuesAround<V>(t: Table<V>, k: string)
    requires Valid(t) && k in t.rows
    ensures var i := IndexOf(t.keys, k);
      Values(t) == Lookup(t.keys[..i], t.rows) + [t.rows[k]] + Lookup(t.keys[i + 1..], t.rows)
  {
    var i := IndexOf(t.keys, k);
    var before, after := t.keys[..i], t.keys[i + 1..];
    SplitAt(t.keys, i);
    LookupAppend(before + [k], after, t.rows);
    LookupAppend(before, [k], t.rows);
    assert Lookup([k], t.rows) == [t.rows[k]];
    calc {
      Values(t);
      Lookup(before + [k] + after, t.rows);
      Lookup(before + [k], t.rows) + Lookup(after, t.rows);
      Lookup(before, t.rows) + [t.rows[k]] + Lookup(after, t.rows);
    }
  }

  /** `map.delete(k)` on a present key: the keys on either side of `k`, and the other entries. */
  lemma RemoveShape<V>(t: Table<V>, k: string)
    requires Valid(t) && k in t.rows
    ensures var i := IndexOf(t.keys, k);
      Remove(t, k) == Table(t.keys[..i] + t.keys[i + 1..], t.rows - {k})
  {
  }

  /** In a list without repeats, the entry at `i` is nowhere else. */
  lemma NotElsewhere(ks: seq<string>, i: nat)
    requires i < |ks| && forall a, b :: 0 <= a < b < |ks| ==> ks[a] != ks[b]
    ensures ks[i] !in ks[..i] + ks[i + 1..]
  {
    NotBefore(ks, i);
    NotAfter(ks, i);
  }

  lemma NotBefore(ks: seq<string>, i: nat)
    requires i < |ks| && forall a, b :: 0 <= a < b < |ks| ==> ks[a] != ks[b]
    ensures ks[i] !in ks[..i]
  {
    var before := ks[..i];
    forall j | 0 <= j < |before|
      ensures before[j] != ks[i]
    {
      assert before[j] == ks[j];
    }
  }

  lemma NotAfter(ks: seq<string>, i: nat)
    requires i < |ks| && forall a, b :: 0 <= a < b < |ks| ==> ks[a] != ks[b]
    ensures ks[i] !in ks[i + 1..]
  {
    var after := ks[i + 1..];
    forall j | 0 <= j < |after|
      ensures after[j] != ks[i]
    {
      assert after[j] == ks[i + 1 + j];
    }
  }

  /** The value list after `map.delete(k)`: the records on either side of `k`'s, joined. */
  lemma ValuesWithout<V>(t: Table<V>, k: string)
    requires Valid(t) && k in t.rows
    ensures var i := IndexOf(t.keys, k);
      Values(Remove(t, k)) == Lookup(t.keys[..i], t.rows) + Lookup(t.keys[i + 1..], t.rows)
  {
    var i := IndexOf(t.keys, k);
    var before, after := t.keys[..i], t.keys[i + 1..];
    RemoveShape(t, k);
    NotElsewhere(t.keys, i);
    LookupDrop(before + after, t.rows, k);
    LookupAppend(before, after, t.rows);
  }

  /** The records under `a + b` are those under `a` followed by those under `b`. */
  lemma LookupAppend<V>(a: seq<string>, b: seq<string>, rows: map<string, V>)
    requires (forall k :: k in a ==> k in rows) && (forall k :: k in b ==> k in rows)
    ensures Lookup(a + b, rows) == Lookup(a, rows) + Lookup(b, rows)
  {
    var whole, parts := Lookup(a + b, rows), Lookup(a, rows) + Lookup(b, rows);
    forall j | 0 <= j < |whole|
      ensures whole[j] == parts[j]
    {
      if j >= |a| {
        assert (a + b)[j] == b[j - |a|];
      }
    }
    assert whole == parts;
  }

  /** Dropping an entry whose key is not looked up changes nothing. */
  lemma LookupDrop<V>(ks: seq<string>, rows: map<string, V>, k: string)
    requires (forall x :: x in ks ==> x in rows) && k !in ks
    ensures Lookup(ks, rows - {k}) == Lookup(ks, rows)
  {
    var l, r := Lookup(ks, rows - {k}), Lookup(ks, rows);
    forall j | 0 <= j < |ks|
      ensures l[j] == r[j]
    {
      assert ks[j] in ks;
    }
    assert l == r;
  }

  // ----- counting entries -----

  /** A sequence without repeats has as many distinct elements as entries. */
  lemma {:induction false} DistinctCardinality(ks: seq<string>)
    requires forall i, j :: 0 <= i < j < |ks| ==> ks[i] != ks[j]
    ensures |set k | k in ks| == |ks|
  {
    if ks != [] {
      var rest := ks[1..];
      DistinctCardinality(rest);
      assert (set k | k in ks) == {ks[0]} + (set k | k in rest);
      assert ks[0] !in (set k | k in rest);
    }
  }

  /** `map.size` is the length of `Array.from(map.values())`. */
  lemma SizeIsValuesLength<V>(t: Table<V>)
    requires Valid(t)
    ensures Size(t) == |Values(t)|
  {
    assert t.rows.Keys == set k | k in t.keys;
    DistinctCardinality(t.keys);
  }

  /** The keys among `ks` whose records satisfy `p`. */
  ghost function KeysIn<V>(ks: seq<string>, rows: map<string, V>, p: V -> bool): set<string>
    requires forall k :: k in ks ==> k in rows
  {
    set k | k in ks && p(rows[k])
  }

  lemma {:induction false} FilterLookupCount<V(!new)>(ks: seq<string>, rows: map<string, V>, p: V -> bool)
    requires forall k :: k in ks ==> k in rows
    requires forall i, j :: 0 <= i < j < |ks| ==> ks[i] != ks[j]
    ensures |Filter(Lookup(ks, rows), p)| == |KeysIn(ks, rows, p)|
  {
    if ks != [] {
      var rest := ks[1..];
      FilterLookupCount(rest, rows, p);
      var x := rows[ks[0]];
      assert Lookup(ks, rows) == [x] + Lookup(rest, rows);
      FilterAppend([x], Lookup(rest, rows), p);
      FilterSingleton(x, p);
      SetSplit(ks, rows, p);
    }
  }

  lemma SetSplit<V>(ks: seq<string>, rows: map<string, V>, p: V -> bool)
    requires ks != [] && (forall k :: k in ks ==> k in rows)
    requires forall i, j :: 0 <= i < j < |ks| ==> ks[i] != ks[j]
    ensures |KeysIn(ks, rows, p)| == |KeysIn(ks[1..], rows, p)| + if p(rows[ks[0]]) then 1 else 0
  {
    var rest := ks[1..];
    var s, s' := KeysIn(ks, rows, p), KeysIn(rest, rows, p);
    assert ks[0] !in rest;
    assert forall k :: k in ks <==> k == ks[0] || k in rest by {
      assert ks == [ks[0]] + rest;
    }
    if p(rows[ks[0]]) {
      assert s == s' + {ks[0]};
    } else {
      assert s == s';
    }
  }

  /** The keys whose record satisfies `p`. */
  ghost function KeysWhere<V>(t: Table<V>, p: V -> bool): set<string>
  {
    set k | k in t.rows && p(t.rows[k])
  }

  /**
   The length of a filtered value list does not depend on the insertion order:
   it is the number of keys whose record satisfies the predicate.
   */
  lemma FilterValuesCount<V(!new)>(t: Table<V>, p: V -> bool)
    requires Valid(t)
    ensures |Filter(Values(t), p)| == |KeysWhere(t, p)|
  {
    FilterLookupCount(t.keys, t.rows, p);
    assert Values(t) == Lookup(t.keys, t.rows);
    assert forall k :: k in KeysIn(t.keys, t.rows, p) <==> k in KeysWhere(t, p);
    assert KeysIn(t.keys, t.rows, p) == KeysWhere(t, p);
  }

  // ----- filtered counts and sums after map.set / map.delete -----

  /** The record a key contributes to a filtered count (0 or 1). */
  function Hit<V>(t: Table<V>, k: string, p: V -> bool): nat
  {
    if k in t.rows && p(t.rows[k]) then 1 else 0
  }

  /** The amount a key contributes to a filtered sum. */
  function Share<V>(t: Table<V>, k: string, p: V -> bool, f: V -> int): int
  {
    if k in t.rows && p(t.rows[k]) then f(t.rows[k]) else 0
  }

  /** `map.set` swaps the stored record's share of a filtered count for the new record's. */
  lemma FilterCountPut<V(!new)>(t: Table<V>, k: string, v: V, p: V -> bool)
    requires Valid(t)
    ensures |Filter(Values(Put(t, k, v)), p)| == |Filter(Values(t), p)| - Hit(t, k, p) + (if p(v) then 1 else 0)
  {
    if k in t.rows {
      FilterCountPutExisting(t, k, v, p);
    } else {
      var vs := Values(t);
      ValuesPutNew(t, k, v);
      FilterAppend(vs, [v], p);
      FilterSingleton(v, p);
    }
  }

  lemma FilterCountPutExisting<V(!new)>(t: Table<V>, k: string, v: V, p: V -> bool)
    requires Valid(t) && k in t.rows
    ensures |Filter(Values(Put(t, k, v)), p)| == |Filter(Values(t), p)| - Hit(t, k, p) + (if p(v) then 1 else 0)
  {
    var vs, i := Values(t), IndexOf(t.keys, k);
    ValuesPutExisting(t, k, v);
    SplitAt(vs, i);
    FilterSpliceLength(vs[..i], v, vs[i + 1..], p);
    FilterSpliceLength(vs[..i], vs[i], vs[i + 1..], p);
    assert Hit(t, k, p) == if p(vs[i]) then 1 else 0;
  }

  /** `map.delete` removes the stored record's share of a filtered count. */
  lemma FilterCountRemove<V(!new)>(t: Table<V>, k: string, p: V -> bool)
    requires Valid(t)
    ensures |Filter(Values(Remove(t, k)), p)| == |Filter(Values(t), p)| - Hit(t, k, p)
  {
    if k in t.rows {
      var vs := Values(t);
      var i := IndexOf(t.keys, k);
      ValuesRemove(t, k);
      SplitAt(vs, i);
      FilterSpliceLength(vs[..i], vs[i], vs[i + 1..], p);
      FilterAppend(vs[..i], vs[i + 1..], p);
    }
  }

  /** `map.set` swaps the stored record's share of a filtered sum for the new record's. */
  lemma FilterSumPut<V(!new)>(t: Table<V>, k: string, v: V, p: V -> bool, f: V -> int)
    requires Valid(t)
    ensures Sum(Filter(Values(Put(t, k, v)), p), f)
      == Sum(Filter(Values(t), p), f) - Share(t, k, p, f) + (if p(v) then f(v) else 0)
  {
    if k in t.rows {
      FilterSumPutExisting(t, k, v, p, f);
    } else {
      var vs := Values(t);
      ValuesPutNew(t, k, v);
      FilterAppend(vs, [v], p);
      FilterSingleton(v, p);
      SumAppend(Filter(vs, p), Filter([v], p), f);
      SumSingleton(v, f);
    }
  }

  lemma FilterSumPutExisting<V(!new)>(t: Table<V>, k: string, v: V, p: V -> bool, f: V -> int)
    requires Valid(t) && k in t.rows
    ensures Sum(Filter(Values(Put(t, k, v)), p), f)
      == Sum(Filter(Values(t), p), f) - Share(t, k, p, f) + (if p(v) then f(v) else 0)
  {
    var vs, i := Values(t), IndexOf(t.keys, k);
    ValuesPutExisting(t, k, v);
    SplitAt(vs, i);
    FilterSpliceSum(vs[..i], v, vs[i + 1..], p, f);
    FilterSpliceSum(vs[..i], vs[i], vs[i + 1..], p, f);
    assert Share(t, k, p, f) == if p(vs[i]) then f(vs[i]) else 0;
  }

  /** `map.delete` removes the stored record's share of a filtered sum. */
  lemma FilterSumRemove<V(!new)>(t: Table<V>, k: string, p: V -> bool, f: V -> int)
    requires Valid(t)
    ensures Sum(Filter(Values(Remove(t, k)), p), f) == Sum(Filter(Values(t), p), f) - Share(t, k, p, f)
  {
    if k in t.rows {
      var vs := Values(t);
      var i := IndexOf(t.keys, k);
      ValuesRemove(t, k);
      SplitAt(vs, i);
      FilterSpliceSum(vs[..i], vs[i], vs[i + 1..], p, f);
      FilterAppend(vs[..i], vs[i + 1..], p);
      SumAppend(Filter(vs[..i], p), Filter(vs[i + 1..], p), f);
    }
  }

  /** A record stored under a fresh key comes last among the filtered values. */
  lemma FilterValuesPutNew<V(!new)>(t: Table<V>, k: string, v: V, p: V -> bool)
    requires Valid(t) && k !in t.rows
    ensures Filter(Values(Put(t, k, v)), p) == Filter(Values(t), p) + (if p(v) then [v] else [])
  {
    ValuesPutNew(t, k, v);
    FilterAppend(Values(t), [v], p);
    FilterSingleton(v, p);
  }
}
