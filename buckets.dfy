/** The `actionsMap` objects the builders fill: a key maps to the list of
    actions pushed under it, `if (!map[k]) map[k] = []; map[k].push(a)`.
    `Object.keys` lists string keys in the order they were first created
    (`Push`) and integer keys in ascending order (`PushRanked`), so the two
    kinds of key are kept as two orderings of one association list. */
module Buckets {

  type Buckets<K, V> = seq<(K, seq<V>)>

  /** `map[k] ?? []`. */
  function Get<K(==), V>(b: Buckets<K, V>, k: K): seq<V> {
    if b == [] then [] else if b[0].0 == k then b[0].1 else Get(b[1..], k)
  }

  function KeySet<K, V>(b: Buckets<K, V>): set<K> {
    set i | 0 <= i < |b| :: b[i].0
  }

  predicate DistinctKeys<K(==), V>(b: Buckets<K, V>) {
    forall i, j :: 0 <= i < j < |b| ==> b[i].0 != b[j].0
  }

  /** Every key lists at least one action. */
  predicate NonEmpty<K, V>(b: Buckets<K, V>) {
    forall i :: 0 <= i < |b| ==> b[i].1 != []
  }

  /** Keys in strictly ascending order, as `Object.keys` lists integer keys. */
  predicate Ascending<V>(b: Buckets<nat, V>) {
    forall i, j :: 0 <= i < j < |b| ==> b[i].0 < b[j].0
  }

  /** Push `v` under a string-like key: a new key goes last. */
  function Push<K(==), V>(b: Buckets<K, V>, k: K, v: V): Buckets<K, V> {
    if b == [] then [(k, [v])]
    else if b[0].0 == k then [(k, b[0].1 + [v])] + b[1..]
    else [b[0]] + Push(b[1..], k, v)
  }

  /** Push `v` under an integer key: a new key goes at its ascending place. */
  function PushRanked<V>(b: Buckets<nat, V>, k: nat, v: V): Buckets<nat, V> {
    if b == [] then [(k, [v])]
    else if b[0].0 == k then [(k, b[0].1 + [v])] + b[1..]
    else if k < b[0].0 then [(k, [v])] + b
    else [b[0]] + PushRanked(b[1..], k, v)
  }

  lemma {:induction false} GetAt<K, V>(b: Buckets<K, V>, i: nat)
    requires DistinctKeys(b) && i < |b|
    ensures Get(b, b[i].0) == b[i].1
  {
    if i > 0 {
      assert b[1..][i - 1] == b[i];
      GetAt(b[1..], i - 1);
    }
  }

  lemma {:induction false} GetAbsent<K, V>(b: Buckets<K, V>, k: K)
    requires k !in KeySet(b)
    ensures Get(b, k) == []
  {
    if b != [] {
      assert b[0].0 in KeySet(b);
      assert KeySet(b[1..]) <= KeySet(b) by {
        forall x | x in KeySet(b[1..]) ensures x in KeySet(b) {
          var i :| 0 <= i < |b[1..]| && b[1..][i].0 == x;
          assert b[i + 1].0 == x;
        }
      }
      GetAbsent(b[1..], k);
    }
  }

  lemma KeySetCons<K, V>(e: (K, seq<V>), b: Buckets<K, V>)
    ensures KeySet([e] + b) == {e.0} + KeySet(b)
  {
    var c := [e] + b;
    forall x | x in KeySet(c) ensures x in {e.0} + KeySet(b) {
      var i :| 0 <= i < |c| && c[i].0 == x;
      if i > 0 { assert b[i - 1] == c[i]; }
    }
    forall x | x in KeySet(b) ensures x in KeySet(c) {
      var i :| 0 <= i < |b| && b[i].0 == x;
      assert c[i + 1] == b[i];
    }
    assert c[0] == e;
  }

  /** What a push does at one key: one more value under `k`, the other keys unchanged. */
  lemma {:induction false} PushGet<K, V>(b: Buckets<K, V>, k: K, v: V, x: K)
    ensures Get(Push(b, k, v), x) == if x == k then Get(b, k) + [v] else Get(b, x)
  {
    if b != [] && b[0].0 != k {
      PushGet(b[1..], k, v, x);
      assert ([b[0]] + Push(b[1..], k, v))[1..] == Push(b[1..], k, v);
    } else if b != [] {
      assert ([(k, b[0].1 + [v])] + b[1..])[1..] == b[1..];
    }
  }

  /** The keys after a push: `k` joins them; distinctness and non-emptiness survive. */
  lemma {:induction false} PushKeys<K, V>(b: Buckets<K, V>, k: K, v: V)
    ensures KeySet(Push(b, k, v)) == KeySet(b) + {k}
    ensures DistinctKeys(b) ==> DistinctKeys(Push(b, k, v))
    ensures NonEmpty(b) ==> NonEmpty(Push(b, k, v))
  {
    if b == [] {
      assert KeySet([(k, [v])]) == {k} by { KeySetCons((k, [v]), []); }
    } else if b[0].0 == k {
      var c := [(k, b[0].1 + [v])] + b[1..];
      assert c[1..] == b[1..];
      KeySetCons((k, b[0].1 + [v]), b[1..]);
      KeySetCons(b[0], b[1..]);
      assert [b[0]] + b[1..] == b;
    } else {
      PushKeys(b[1..], k, v);
      var c := [b[0]] + Push(b[1..], k, v);
      assert c[1..] == Push(b[1..], k, v);
      KeySetCons(b[0], Push(b[1..], k, v));
      KeySetCons(b[0], b[1..]);
      assert [b[0]] + b[1..] == b;
      if DistinctKeys(b) {
        assert DistinctKeys(b[1..]) by {
          forall i, j | 0 <= i < j < |b[1..]| ensures b[1..][i].0 != b[1..][j].0 {
            assert b[1..][i] == b[i + 1] && b[1..][j] == b[j + 1];
          }
        }
        assert b[0].0 !in KeySet(b[1..]) by {
          forall i | 0 <= i < |b[1..]| ensures b[1..][i].0 != b[0].0 {
            assert b[1..][i] == b[i + 1];
          }
        }
        forall i, j | 0 <= i < j < |c| ensures c[i].0 != c[j].0 {
          if i == 0 {
            assert c[j].0 in KeySet(c[1..]);
          }
        }
      }
      if NonEmpty(b) {
        forall i | 0 <= i < |c| ensures c[i].1 != [] {
          if i > 0 { assert c[i] == Push(b[1..], k, v)[i - 1]; }
        }
      }
    }
  }

  /** Below an ascending list's first key lies no key of the list. */
  lemma AscendingTail<V>(b: Buckets<nat, V>)
    requires Ascending(b) && b != []
    ensures forall x :: x in KeySet(b[1..]) ==> b[0].0 < x
    ensures Ascending(b[1..])
  {
    forall x | x in KeySet(b[1..]) ensures b[0].0 < x {
      var i :| 0 <= i < |b[1..]| && b[1..][i].0 == x;
      assert b[i + 1].0 == x;
    }
    forall i, j | 0 <= i < j < |b[1..]| ensures b[1..][i].0 < b[1..][j].0 {
      assert b[1..][i] == b[i + 1] && b[1..][j] == b[j + 1];
    }
  }

  /** A ranked push adds `v` under `k` and changes no other key's list. */
  lemma {:induction false} PushRankedGet<V>(b: Buckets<nat, V>, k: nat, v: V, x: nat)
    requires Ascending(b)
    ensures Get(PushRanked(b, k, v), x) == if x == k then Get(b, k) + [v] else Get(b, x)
  {
    if b == [] || b[0].0 == k {
    } else if k < b[0].0 {
      AscendingTail(b);
      if x == k {
        assert k !in KeySet(b) by {
          KeySetCons(b[0], b[1..]);
          assert [b[0]] + b[1..] == b;
        }
        GetAbsent(b, k);
      }
    } else {
      AscendingTail(b);
      PushRankedGet(b[1..], k, v, x);
    }
  }

  /** A ranked push adds `k` to the keys. */
  lemma {:induction false} PushRankedKeys<V>(b: Buckets<nat, V>, k: nat, v: V)
    ensures KeySet(PushRanked(b, k, v)) == KeySet(b) + {k}
  {
    if b == [] {
      KeySetCons((k, [v]), []);
    } else {
      KeySetCons(b[0], b[1..]);
      assert [b[0]] + b[1..] == b;
      if b[0].0 == k {
        KeySetCons((k, b[0].1 + [v]), b[1..]);
      } else if k < b[0].0 {
        KeySetCons((k, [v]), b);
      } else {
        PushRankedKeys(b[1..], k, v);
        KeySetCons(b[0], PushRanked(b[1..], k, v));
      }
    }
  }

  /** A bucket below every key of an ascending list extends it at the front. */
  lemma AscendingCons<V>(e: (nat, seq<V>), b: Buckets<nat, V>)
    requires Ascending(b) && forall x :: x in KeySet(b) ==> e.0 < x
    ensures Ascending([e] + b)
  {
    var c := [e] + b;
    forall i, j | 0 <= i < j < |c| ensures c[i].0 < c[j].0 {
      assert c[j] == b[j - 1];
      if i > 0 {
        assert c[i] == b[i - 1];
      } else {
        assert c[j].0 in KeySet(b);
      }
    }
  }

  /** A ranked push keeps the keys ascending. */
  lemma {:induction false} PushRankedAscending<V>(b: Buckets<nat, V>, k: nat, v: V)
    requires Ascending(b)
    ensures Ascending(PushRanked(b, k, v))
  {
    if b == [] {
    } else if b[0].0 == k {
      AscendingTail(b);
      AscendingCons((k, b[0].1 + [v]), b[1..]);
    } else if k < b[0].0 {
      AscendingTail(b);
      KeySetCons(b[0], b[1..]);
      assert [b[0]] + b[1..] == b;
      AscendingCons((k, [v]), b);
    } else {
      AscendingTail(b);
      PushRankedAscending(b[1..], k, v);
      PushRankedKeys(b[1..], k, v);
      AscendingCons(b[0], PushRanked(b[1..], k, v));
    }
  }

  /** A ranked push leaves no key with an empty list. */
  lemma {:induction false} PushRankedNonEmpty<V>(b: Buckets<nat, V>, k: nat, v: V)
    requires NonEmpty(b)
    ensures NonEmpty(PushRanked(b, k, v))
  {
    if b != [] && b[0].0 != k && k >= b[0].0 {
      assert NonEmpty(b[1..]) by {
        forall i | 0 <= i < |b[1..]| ensures b[1..][i].1 != [] { assert b[1..][i] == b[i + 1]; }
      }
      PushRankedNonEmpty(b[1..], k, v);
      var rest := PushRanked(b[1..], k, v);
      var c := [b[0]] + rest;
      assert PushRanked(b, k, v) == c;
      forall i | 0 <= i < |c| ensures c[i].1 != [] {
        if i > 0 { assert c[i] == rest[i - 1]; }
      }
    } else if b != [] && b[0].0 == k {
      var c := [(k, b[0].1 + [v])] + b[1..];
      assert PushRanked(b, k, v) == c;
      forall i | 0 <= i < |c| ensures c[i].1 != [] {
        if i > 0 { assert c[i] == b[i]; }
      }
    } else if b != [] {
      var c := [(k, [v])] + b;
      assert PushRanked(b, k, v) == c;
      forall i | 0 <= i < |c| ensures c[i].1 != [] {
        if i > 0 { assert c[i] == b[i - 1]; }
      }
    }
  }

  /** Ascending keys are distinct. */
  lemma AscendingDistinct<V>(b: Buckets<nat, V>)
    requires Ascending(b)
    ensures DistinctKeys(b)
  {
  }
}
