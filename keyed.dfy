/** The per-call `data` dictionary of a meta operator: values stored by key.
    Values are modelled as integers; keys are strings. */
module KeyedData {

  type Key = string
  type Store = map<Key, int>

  /** All of `keys` have a value in `m`. */
  predicate Bound(keys: seq<Key>, m: Store) {
    forall i :: 0 <= i < |keys| ==> keys[i] in m
  }

  /** No key occurs twice. */
  predicate Distinct(keys: seq<Key>) {
    forall i, j :: 0 <= i < j < |keys| ==> keys[i] != keys[j]
  }

  /** Position `i` holds the last occurrence of its key. */
  predicate LastOccurrence(keys: seq<Key>, i: nat)
    requires i < |keys|
  {
    forall j :: i < j < |keys| ==> keys[j] != keys[i]
  }

  /** Assigns `vals` to `keys` pairwise from left to right, as `data[k] = v` over
      a zip does: a key listed twice ends up with the later value. */
  function Write(m: Store, keys: seq<Key>, vals: seq<int>): (r: Store)
    requires |keys| == |vals|
    ensures forall k :: k in m ==> k in r
    ensures Bound(keys, r)
    decreases |keys|
  {
    if keys == [] then m else Write(m[keys[0] := vals[0]], keys[1..], vals[1..])
  }

  /** A write adds no key but the written ones. */
  lemma {:induction false} WriteOnlyKeys(m: Store, keys: seq<Key>, vals: seq<int>)
    requires |keys| == |vals|
    ensures forall k :: k in Write(m, keys, vals) ==> k in m || k in keys
    decreases |keys|
  {
    if keys != [] {
      WriteOnlyKeys(m[keys[0] := vals[0]], keys[1..], vals[1..]);
    }
  }

  /** Looks up each key in order, as `[data[k] for k in keys]` does. */
  function Read(m: Store, keys: seq<Key>): (r: seq<int>)
    requires Bound(keys, m)
    ensures |r| == |keys|
    ensures forall i :: 0 <= i < |keys| ==> r[i] == m[keys[i]]
    decreases |keys|
  {
    if keys == [] then [] else [m[keys[0]]] + Read(m, keys[1..])
  }

  lemma WriteBinds(m: Store, keys: seq<Key>, vals: seq<int>)
    requires |keys| == |vals|
    ensures Bound(keys, Write(m, keys, vals))
  {
  }

  /** After a write, a written key holds the value paired with its last
      occurrence, and every other key keeps its old value. */
  lemma {:induction false} WriteAt(m: Store, keys: seq<Key>, vals: seq<int>)
    requires |keys| == |vals|
    ensures forall i :: 0 <= i < |keys| && LastOccurrence(keys, i) ==>
      Write(m, keys, vals)[keys[i]] == vals[i]
    ensures forall k :: k in m && k !in keys ==> Write(m, keys, vals)[k] == m[k]
    decreases |keys|
  {
    if keys != [] {
      var m' := m[keys[0] := vals[0]];
      WriteAt(m', keys[1..], vals[1..]);
      forall i | 0 <= i < |keys| && LastOccurrence(keys, i)
        ensures Write(m, keys, vals)[keys[i]] == vals[i]
      {
        if i == 0 {
          assert keys[0] !in keys[1..] by {
            forall j | 0 <= j < |keys[1..]| ensures keys[1..][j] != keys[0] {
              assert keys[1..][j] == keys[j + 1];
            }
          }
        } else {
          assert keys[1..][i - 1] == keys[i];
          assert LastOccurrence(keys[1..], i - 1) by {
            forall j | i - 1 < j < |keys[1..]| ensures keys[1..][j] != keys[1..][i - 1] {
              assert keys[1..][j] == keys[j + 1];
            }
          }
        }
      }
      forall k | k in m && k !in keys ensures Write(m, keys, vals)[k] == m[k] {
        assert k !in keys[1..];
      }
    }
  }

  /** Reading back the keys just written gives the written values, when no key
      is listed twice. */
  lemma ReadAfterWrite(m: Store, keys: seq<Key>, vals: seq<int>)
    requires |keys| == |vals| && Distinct(keys)
    ensures Read(Write(m, keys, vals), keys) == vals
  {
    WriteAt(m, keys, vals);
    WriteBinds(m, keys, vals);
  }

  /** Position of the last occurrence of `k` in `keys`. */
  function LastIndex(keys: seq<Key>, k: Key): (i: nat)
    requires k in keys
    ensures i < |keys| && keys[i] == k && LastOccurrence(keys, i)
    decreases |keys|
  {
    if keys[|keys| - 1] == k then |keys| - 1 else LastIndex(keys[..|keys| - 1], k)
  }

  /** A written key holds the value paired with its last occurrence. */
  lemma WriteLast(m: Store, keys: seq<Key>, vals: seq<int>, k: Key)
    requires |keys| == |vals| && k in keys
    ensures Write(m, keys, vals)[k] == vals[LastIndex(keys, k)]
  {
    WriteAt(m, keys, vals);
  }

  /** Writing two key lists one after the other is writing their concatenation. */
  lemma {:induction false} WriteAppend(m: Store, a: seq<Key>, b: seq<Key>, u: seq<int>, v: seq<int>)
    requires |a| == |u| && |b| == |v|
    ensures Write(m, a + b, u + v) == Write(Write(m, a, u), b, v)
    decreases |a|
  {
    if a != [] {
      assert (a + b)[1..] == a[1..] + b;
      assert (u + v)[1..] == u[1..] + v;
      WriteAppend(m[a[0] := u[0]], a[1..], b, u[1..], v);
    } else {
      assert a + b == b && u + v == v;
    }
  }
}
