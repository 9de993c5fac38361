/**
 * A Python `dict` with string keys, as the tracker uses it for its counters and
 * its settings: the entries in insertion order, each key at most once. Order
 * matters to the tracker: ties in the top-N ranking and the order of the lines
 * written to the settings file both follow it.
 */
module OrderedDict {
  import opened Wrappers

  type Dict<V> = seq<(string, V)>

  /** `list(d)`: the keys in order. */
  function Keys<V>(d: Dict<V>): (ks: seq<string>)
    ensures |ks| == |d|
  {
    if |d| == 0 then [] else [d[0].0] + Keys(d[1..])
  }

  lemma {:induction false} KeysAt<V>(d: Dict<V>, i: nat)
    requires i < |d|
    ensures Keys(d)[i] == d[i].0
  {
    if i > 0 {
      KeysAt(d[1..], i - 1);
    }
  }

  lemma {:induction false} KeysAppend<V>(d: Dict<V>, e: Dict<V>)
    ensures Keys(d + e) == Keys(d) + Keys(e)
  {
    if |d| > 0 {
      assert (d + e)[1..] == d[1..] + e;
      KeysAppend(d[1..], e);
    } else {
      assert d + e == e;
    }
  }

  ghost predicate Distinct(s: seq<string>) {
    forall i, j :: 0 <= i < j < |s| ==> s[i] != s[j]
  }

  /** No key is entered twice, as in every Python dict. */
  ghost predicate UniqueKeys<V>(d: Dict<V>) {
    Distinct(Keys(d))
  }

  /** `d.get(k)`: the value stored under `k`, if any. */
  function Get<V>(d: Dict<V>, k: string): Option<V> {
    if |d| == 0 then None
    else if d[0].0 == k then Some(d[0].1)
    else Get(d[1..], k)
  }

  /** `k in d` */
  predicate HasKey<V>(d: Dict<V>, k: string) {
    Get(d, k).Some?
  }

  /** A key is in the dict exactly when it is among its keys. */
  lemma {:induction false} HasKeyIff<V>(d: Dict<V>, k: string)
    ensures HasKey(d, k) <==> k in Keys(d)
  {
    if |d| > 0 {
      HasKeyIff(d[1..], k);
    }
  }

  /** `d.get(k, default)` */
  function GetOr<V>(d: Dict<V>, k: string, default: V): V {
    Get(d, k).GetOr(default)
  }

  /** `d[k] = v`: an existing key keeps its place and takes the new value; a new key goes last. */
  function Put<V>(d: Dict<V>, k: string, v: V): (r: Dict<V>)
    ensures Get(r, k) == Some(v)
  {
    if |d| == 0 then [(k, v)]
    else if d[0].0 == k then [(k, v)] + d[1..]
    else [d[0]] + Put(d[1..], k, v)
  }

  /** An existing key keeps its place; a new key goes last. */
  lemma {:induction false} PutKeys<V>(d: Dict<V>, k: string, v: V)
    ensures Keys(Put(d, k, v)) == if HasKey(d, k) then Keys(d) else Keys(d) + [k]
  {
    if |d| > 0 && d[0].0 != k {
      PutKeys(d[1..], k, v);
      assert Put(d, k, v)[1..] == Put(d[1..], k, v);
    }
  }

  /** Storing under `k` leaves every other key's value as it was. */
  lemma {:induction false} PutOther<V>(d: Dict<V>, k: string, v: V, j: string)
    requires j != k
    ensures Get(Put(d, k, v), j) == Get(d, j)
  {
    if |d| > 0 && d[0].0 != k {
      PutOther(d[1..], k, v, j);
    }
  }

  /** A key that is not there yet is added at the end. */
  lemma {:induction false} PutNew<V>(d: Dict<V>, k: string, v: V)
    requires !HasKey(d, k)
    ensures Put(d, k, v) == d + [(k, v)]
  {
    if |d| > 0 {
      PutNew(d[1..], k, v);
      assert d == [d[0]] + d[1..];
    }
  }

  /** Storing under a key that is there replaces its entry in place. */
  lemma {:induction false} PutExisting<V>(d: Dict<V>, i: nat, v: V)
    requires UniqueKeys(d) && i < |d|
    ensures Put(d, d[i].0, v) == d[i := (d[i].0, v)]
  {
    if i > 0 {
      KeysAt(d, 0);
      KeysAt(d, i);
      assert Keys(d[1..]) == Keys(d)[1..];
      assert UniqueKeys(d[1..]);
      PutExisting(d[1..], i - 1, v);
      assert d[i := (d[i].0, v)] == [d[0]] + d[1..][i - 1 := (d[i].0, v)];
    }
  }

  lemma DistinctAppend(s: seq<string>, k: string)
    requires Distinct(s) && k !in s
    ensures Distinct(s + [k])
  {
  }

  /** Storing a value keeps the keys free of repetitions. */
  lemma PutUnique<V>(d: Dict<V>, k: string, v: V)
    requires UniqueKeys(d)
    ensures UniqueKeys(Put(d, k, v))
  {
    PutKeys(d, k, v);
    HasKeyIff(d, k);
    if !HasKey(d, k) {
      DistinctAppend(Keys(d), k);
    }
  }

  /** `d.update(e)`: every entry of `e`, in order, stored into `d`. */
  function Update<V>(d: Dict<V>, e: Dict<V>): (r: Dict<V>)
    decreases |e|
  {
    if |e| == 0 then d else Update(Put(d, e[0].0, e[0].1), e[1..])
  }

  /** After `d.update(e)` a key has its value from `e` if `e` has it, else its value from `d`. */
  lemma {:induction false} UpdateGet<V>(d: Dict<V>, e: Dict<V>, k: string)
    requires UniqueKeys(e)
    ensures Get(Update(d, e), k) == if HasKey(e, k) then Get(e, k) else Get(d, k)
    decreases |e|
  {
    if |e| > 0 {
      var d' := Put(d, e[0].0, e[0].1);
      assert Keys(e) == [e[0].0] + Keys(e[1..]);
      assert UniqueKeys(e[1..]) by {
        assert forall i :: 0 <= i < |Keys(e[1..])| ==> Keys(e[1..])[i] == Keys(e)[i + 1];
      }
      UpdateGet(d', e[1..], k);
      if k == e[0].0 {
        assert !HasKey(e[1..], k) by {
          HasKeyIff(e[1..], k);
          assert forall i :: 0 <= i < |Keys(e[1..])| ==> Keys(e[1..])[i] == Keys(e)[i + 1] != Keys(e)[0];
        }
      } else {
        PutOther(d, e[0].0, e[0].1, k);
      }
    }
  }

  /** The keys of `d.update(e)`: those of `d`, then the new ones of `e`, so no key is repeated. */
  lemma {:induction false} UpdateUnique<V>(d: Dict<V>, e: Dict<V>)
    requires UniqueKeys(d)
    ensures UniqueKeys(Update(d, e))
    ensures forall k :: HasKey(d, k) ==> HasKey(Update(d, e), k)
    decreases |e|
  {
    if |e| > 0 {
      var d' := Put(d, e[0].0, e[0].1);
      PutUnique(d, e[0].0, e[0].1);
      UpdateUnique(d', e[1..]);
      forall k | HasKey(d, k) ensures HasKey(d', k) {
        if k != e[0].0 {
          PutOther(d, e[0].0, e[0].1, k);
        }
      }
    }
  }
}
