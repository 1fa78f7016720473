/**
 * The host bridge's event payloads (WritableMap / WritableArray) as values.
 * A map is an insertion-ordered list of fields; putting a key that is already
 * present overwrites its value in place, putting a new key appends it.
 */
module Payload {
  import opened Wrappers

  datatype Value =
    | VNull
    | VBool(b: bool)
    | VInt(i: int)
    | VDouble(d: real)
    | VString(s: string)
    | VMap(fields: seq<Field>)
    | VArray(items: seq<Value>)

  datatype Field = Field(key: string, value: Value)

  type Fields = seq<Field>

  /** The keys of a map, in insertion order. */
  function Keys(fs: Fields): (ks: seq<string>)
    ensures |ks| == |fs|
    ensures forall i :: 0 <= i < |fs| ==> ks[i] == fs[i].key
  {
    if fs == [] then [] else [fs[0].key] + Keys(fs[1..])
  }

  /** No key occurs twice. */
  predicate DistinctKeys(fs: Fields) {
    forall i, j :: 0 <= i < j < |fs| ==> fs[i].key != fs[j].key
  }

  /** `get(k)`: the value stored under `k`, None when absent. */
  function Get(fs: Fields, k: string): Option<Value> {
    if fs == [] then None
    else if fs[0].key == k then Some(fs[0].value)
    else Get(fs[1..], k)
  }

  /** A lookup succeeds exactly for the keys present. */
  lemma {:induction false} GetKeys(fs: Fields, k: string)
    ensures Get(fs, k).Some? <==> k in Keys(fs)
  {
    if fs != [] {
      GetKeys(fs[1..], k);
      assert Keys(fs) == [fs[0].key] + Keys(fs[1..]);
    }
  }

  /** `put(k, v)` on a map: overwrite in place, or append a new key. */
  function Put(fs: Fields, k: string, v: Value): Fields
  {
    if fs == [] then [Field(k, v)]
    else if fs[0].key == k then [Field(k, v)] + fs[1..]
    else [fs[0]] + Put(fs[1..], k, v)
  }

  lemma {:induction false} GetPut(fs: Fields, k: string, v: Value, k': string)
    ensures Get(Put(fs, k, v), k') == if k' == k then Some(v) else Get(fs, k')
  {
    if fs != [] && fs[0].key != k {
      GetPut(fs[1..], k, v, k');
    }
  }

  /** Putting a new key appends it; putting a present key keeps the length. */
  lemma {:induction false} PutShape(fs: Fields, k: string, v: Value)
    ensures k in Keys(fs) ==> |Put(fs, k, v)| == |fs|
    ensures k !in Keys(fs) ==> Put(fs, k, v) == fs + [Field(k, v)]
  {
    if fs != [] && fs[0].key != k {
      PutShape(fs[1..], k, v);
      assert Keys(fs) == [fs[0].key] + Keys(fs[1..]);
    }
  }

  /** The keys after a put are the old keys and `k`. */
  lemma {:induction false} PutKeys(fs: Fields, k: string, v: Value, k': string)
    ensures k' in Keys(Put(fs, k, v)) <==> k' == k || k' in Keys(fs)
  {
    GetPut(fs, k, v, k');
    GetKeys(Put(fs, k, v), k');
    GetKeys(fs, k');
  }

  /** A put never creates a duplicate key. */
  lemma {:induction false} PutDistinct(fs: Fields, k: string, v: Value)
    requires DistinctKeys(fs)
    ensures DistinctKeys(Put(fs, k, v))
  {
    if fs == [] {
    } else if fs[0].key == k {
      var t := Put(fs, k, v);
      assert forall i :: 0 <= i < |t| ==> t[i].key == fs[i].key;
    } else {
      var tail := fs[1..];
      assert DistinctKeys(tail) by {
        forall i, j | 0 <= i < j < |tail| ensures tail[i].key != tail[j].key {
          assert tail[i] == fs[i + 1] && tail[j] == fs[j + 1];
        }
      }
      PutDistinct(tail, k, v);
      var t := Put(tail, k, v);
      assert fs[0].key !in Keys(tail) by {
        forall m | 0 <= m < |tail| ensures Keys(tail)[m] != fs[0].key {
          assert tail[m] == fs[m + 1];
        }
      }
      forall j | 0 <= j < |t| ensures t[j].key != fs[0].key {
        PutKeys(tail, k, v, fs[0].key);
        assert t[j].key == Keys(t)[j];
      }
      assert Put(fs, k, v) == [fs[0]] + t;
    }
  }

  /** Looking up in a concatenation: the left part wins. */
  lemma {:induction false} GetAppend(a: Fields, b: Fields, k: string)
    ensures Get(a + b, k) == if k in Keys(a) then Get(a, k) else Get(b, k)
  {
    if a != [] {
      assert (a + b)[1..] == a[1..] + b;
      GetAppend(a[1..], b, k);
    } else {
      assert a + b == b;
    }
  }

  /** In a map without duplicate keys, the field at position `i` is what `get` finds. */
  lemma {:induction false} GetAt(fs: Fields, i: int)
    requires 0 <= i < |fs|
    requires DistinctKeys(fs)
    ensures Get(fs, fs[i].key) == Some(fs[i].value)
  {
    if i > 0 {
      var tail := fs[1..];
      assert tail[i - 1] == fs[i];
      assert DistinctKeys(tail) by {
        forall a, b | 0 <= a < b < |tail| ensures tail[a].key != tail[b].key {
          assert tail[a] == fs[a + 1] && tail[b] == fs[b + 1];
        }
      }
      GetAt(tail, i - 1);
    }
  }

  /** `GetAt`, for a field known by value. */
  lemma LookupAt(fs: Fields, i: int, f: Field)
    requires DistinctKeys(fs) && 0 <= i < |fs| && fs[i] == f
    ensures Get(fs, f.key) == Some(f.value)
  {
    GetAt(fs, i);
  }

  /** Lookups in a three-field map with distinct keys. */
  lemma ThreeLookups(f0: Field, f1: Field, f2: Field, fs: Fields)
    requires fs == [f0, f1, f2]
    requires f0.key != f1.key && f0.key != f2.key && f1.key != f2.key
    ensures Keys(fs) == [f0.key, f1.key, f2.key]
    ensures Get(fs, f0.key) == Some(f0.value)
    ensures Get(fs, f1.key) == Some(f1.value)
    ensures Get(fs, f2.key) == Some(f2.value)
  {
    LookupAt(fs, 0, f0);
    LookupAt(fs, 1, f1);
    LookupAt(fs, 2, f2);
  }

  /** `GetAt`, for the `j`th field of a block inside a map. */
  lemma LookupIn(head: Fields, block: Fields, j: int, fs: Fields)
    requires fs == head + block && DistinctKeys(fs) && 0 <= j < |block|
    ensures Get(fs, block[j].key) == Some(block[j].value)
  {
    assert fs[|head| + j] == block[j];
    GetAt(fs, |head| + j);
  }

  /** A key that no field has is absent. */
  lemma {:induction false} GetAbsent(fs: Fields, k: string)
    requires forall i :: 0 <= i < |fs| ==> fs[i].key != k
    ensures Get(fs, k) == None && k !in Keys(fs)
  {
    if fs != [] {
      assert forall i :: 0 <= i < |fs[1..]| ==> fs[1..][i] == fs[i + 1];
      GetAbsent(fs[1..], k);
    }
  }
}
