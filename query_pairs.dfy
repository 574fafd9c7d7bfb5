/** Query strings as ordered key/value pairs, built from a list of fields of which only those
    holding a value contribute: the shape shared by the OpenSea query records (serialised
    with their `None` fields skipped) and the Rarible endpoints (pairs appended under
    `if let Some`). */
module QueryPairs {
  import opened Wrappers

  type Pair = (string, string)

  /** A named slot of a query: a key and the rendered value it holds, if any. */
  datatype Field = Field(key: string, value: Option<string>)

  /** A slot whose value the caller always supplies. */
  function Required(key: string, value: string): Field {
    Field(key, Some(value))
  }

  /** A slot filled from an optional argument, rendered with `render`. */
  function Optional<T>(key: string, o: Option<T>, render: T -> string): (f: Field)
    ensures f.key == key && f.value.Some? == o.Some?
    ensures o.Some? ==> f.value.value == render(o.value)
  {
    match o
    case None => Field(key, None)
    case Some(v) => Field(key, Some(render(v)))
  }

  function Id(s: string): string {
    s
  }

  /** The pairs of the fields that hold a value, in field order. */
  function Present(fs: seq<Field>): seq<Pair>
    decreases |fs|
  {
    if fs == [] then []
    else (if fs[0].value.Some? then [(fs[0].key, fs[0].value.value)] else []) + Present(fs[1..])
  }

  function KeysOf(fs: seq<Field>): (ks: seq<string>)
    ensures |ks| == |fs| && forall i :: 0 <= i < |fs| ==> ks[i] == fs[i].key
  {
    seq(|fs|, i requires 0 <= i < |fs| => fs[i].key)
  }

  function PairKeys(ps: seq<Pair>): (ks: seq<string>)
    ensures |ks| == |ps| && forall i :: 0 <= i < |ps| ==> ks[i] == ps[i].0
  {
    seq(|ps|, i requires 0 <= i < |ps| => ps[i].0)
  }

  predicate Distinct(ks: seq<string>) {
    forall i, j :: 0 <= i < j < |ks| ==> ks[i] != ks[j]
  }

  /** The value of the first pair with key `k`, as a query-string reader would find it. */
  function Lookup(ps: seq<Pair>, k: string): Option<string>
    decreases |ps|
  {
    if ps == [] then None else if ps[0].0 == k then Some(ps[0].1) else Lookup(ps[1..], k)
  }

  /** `xs` is `ys` with some elements left out, the rest kept in order. */
  predicate Subsequence(xs: seq<string>, ys: seq<string>)
    decreases |ys|
  {
    if ys == [] then xs == []
    else (xs != [] && xs[0] == ys[0] && Subsequence(xs[1..], ys[1..])) || Subsequence(xs, ys[1..])
  }

  lemma {:induction false} PresentAppend(a: seq<Field>, b: seq<Field>)
    ensures Present(a + b) == Present(a) + Present(b)
    decreases |a|
  {
    if a != [] {
      PresentAppend(a[1..], b);
      assert (a + b)[1..] == a[1..] + b;
    } else {
      assert a + b == b;
    }
  }

  /** Serialising from position `k` on: the field at `k` contributes its pair if it holds a
      value, then the rest follows. */
  lemma {:induction false} PresentFrom(fs: seq<Field>, k: int)
    requires 0 <= k < |fs|
    ensures Present(fs[k..]) == (if fs[k].value.Some? then [(fs[k].key, fs[k].value.value)] else []) + Present(fs[k + 1..])
  {
    assert fs[k..][1..] == fs[k + 1..];
  }

  /** An empty field at position `k` adds nothing to what follows it. */
  lemma {:induction false} PresentSkip(fs: seq<Field>, k: int, rest: seq<Pair>)
    requires 0 <= k < |fs| && fs[k].value.None? && Present(fs[k + 1..]) == rest
    ensures Present(fs[k..]) == rest
  {
    PresentFrom(fs, k);
  }

  /** A set field at position `k` puts its one pair in front of what follows it. */
  lemma {:induction false} PresentKeep(fs: seq<Field>, k: int, key: string, v: string, rest: seq<Pair>)
    requires 0 <= k < |fs| && fs[k] == Field(key, Some(v)) && Present(fs[k + 1..]) == rest
    ensures Present(fs[k..]) == [(key, v)] + rest
  {
    PresentFrom(fs, k);
  }

  /** Fields that always hold a value, placed first, give the first pairs, one each and in
      order. */
  lemma {:induction false} PresentRequiredPrefix(fs: seq<Field>, n: int)
    requires 0 <= n <= |fs|
    requires forall i :: 0 <= i < n ==> fs[i].value.Some?
    ensures |Present(fs)| >= n
    ensures forall i :: 0 <= i < n ==> Present(fs)[i] == (fs[i].key, fs[i].value.value)
    decreases n
  {
    if n > 0 {
      PresentRequiredPrefix(fs[1..], n - 1);
      var ps := Present(fs);
      assert ps == [(fs[0].key, fs[0].value.value)] + Present(fs[1..]);
      forall i | 0 <= i < n ensures ps[i] == (fs[i].key, fs[i].value.value) {
        if i > 0 {
          assert ps[i] == Present(fs[1..])[i - 1];
          assert fs[1..][i - 1] == fs[i];
        }
      }
    }
  }

  /** With no value anywhere, nothing is serialised. */
  lemma {:induction false} PresentNone(fs: seq<Field>)
    requires forall i :: 0 <= i < |fs| ==> fs[i].value.None?
    ensures Present(fs) == []
    decreases |fs|
  {
    if fs != [] {
      PresentNone(fs[1..]);
    }
  }

  /** Leading empty fields contribute nothing. */
  lemma {:induction false} PresentSkipsEmptyPrefix(fs: seq<Field>, n: int)
    requires 0 <= n <= |fs|
    requires forall i :: 0 <= i < n ==> fs[i].value.None?
    ensures Present(fs) == Present(fs[n..])
    decreases n
  {
    if n > 0 {
      assert Present(fs) == [] + Present(fs[1..]);
      PresentSkipsEmptyPrefix(fs[1..], n - 1);
      assert fs[1..][n - 1..] == fs[n..];
    }
  }

  /** The pair keys are the field keys in field order, with the empty fields left out. */
  lemma {:induction false} PresentKeysInOrder(fs: seq<Field>)
    ensures Subsequence(PairKeys(Present(fs)), KeysOf(fs))
    decreases |fs|
  {
    if fs != [] {
      PresentKeysInOrder(fs[1..]);
      assert KeysOf(fs)[1..] == KeysOf(fs[1..]);
      if fs[0].value.Some? {
        assert PairKeys(Present(fs))[1..] == PairKeys(Present(fs[1..]));
      } else {
        assert Present(fs) == [] + Present(fs[1..]) == Present(fs[1..]);
      }
    }
  }

  lemma {:induction false} LookupAppend(a: seq<Pair>, b: seq<Pair>, k: string)
    ensures Lookup(a + b, k) == if Lookup(a, k).Some? then Lookup(a, k) else Lookup(b, k)
    decreases |a|
  {
    if a != [] {
      LookupAppend(a[1..], b, k);
      assert (a + b)[1..] == a[1..] + b;
    } else {
      assert a + b == b;
    }
  }

  /** Distinct keys stay distinct after the first field, and none of them is the first key. */
  lemma {:induction false} DistinctTail(fs: seq<Field>)
    requires Distinct(KeysOf(fs)) && |fs| > 0
    ensures Distinct(KeysOf(fs[1..]))
    ensures forall j :: 0 <= j < |fs[1..]| ==> fs[1..][j].key != fs[0].key
  {
    var ks := KeysOf(fs);
    forall j | 0 <= j < |fs[1..]|
      ensures fs[1..][j].key != fs[0].key
    {
      assert ks[0] != ks[j + 1];
    }
    forall a, b | 0 <= a < b < |fs[1..]|
      ensures KeysOf(fs[1..])[a] != KeysOf(fs[1..])[b]
    {
      assert ks[a + 1] != ks[b + 1];
    }
  }

  /** Where the keys are distinct, the value read back for a field's key is the field's value. */
  lemma {:induction false} LookupPresent(fs: seq<Field>, i: int)
    requires Distinct(KeysOf(fs)) && 0 <= i < |fs|
    ensures Lookup(Present(fs), fs[i].key) == fs[i].value
    decreases |fs|
  {
    var k := fs[i].key;
    var head := if fs[0].value.Some? then [(fs[0].key, fs[0].value.value)] else [];
    assert Present(fs) == head + Present(fs[1..]);
    LookupAppend(head, Present(fs[1..]), k);
    DistinctTail(fs);
    if i == 0 {
      LookupAbsent(fs[1..], k);
    } else {
      assert KeysOf(fs)[0] != KeysOf(fs)[i];
      LookupPresent(fs[1..], i - 1);
    }
  }

  lemma {:induction false} LookupAbsent(fs: seq<Field>, k: string)
    requires forall i :: 0 <= i < |fs| ==> fs[i].key != k
    ensures Lookup(Present(fs), k) == None
    decreases |fs|
  {
    if fs != [] {
      var head := if fs[0].value.Some? then [(fs[0].key, fs[0].value.value)] else [];
      assert Present(fs) == head + Present(fs[1..]);
      LookupAppend(head, Present(fs[1..]), k);
      LookupAbsent(fs[1..], k);
    }
  }

  /** A field whose key no other field shares is found under that key with exactly its value,
      or is absent when it holds none. */
  lemma {:induction false} LookupField(fs: seq<Field>, i: int)
    requires 0 <= i < |fs|
    requires forall j :: 0 <= j < |fs| && j != i ==> fs[j].key != fs[i].key
    ensures Lookup(Present(fs), fs[i].key) == fs[i].value
    decreases |fs|
  {
    var k := fs[i].key;
    var head := if fs[0].value.Some? then [(fs[0].key, fs[0].value.value)] else [];
    assert Present(fs) == head + Present(fs[1..]);
    LookupAppend(head, Present(fs[1..]), k);
    if i == 0 {
      forall j | 0 <= j < |fs[1..]| ensures fs[1..][j].key != k {
        assert fs[1..][j] == fs[j + 1];
      }
      LookupAbsent(fs[1..], k);
    } else {
      forall j | 0 <= j < |fs[1..]| && j != i - 1 ensures fs[1..][j].key != fs[1..][i - 1].key {
        assert fs[1..][j] == fs[j + 1];
      }
      LookupField(fs[1..], i - 1);
    }
  }

  /** Two field lists with the same distinct keys serialise alike only if they hold the same
      values: the serialisation loses nothing. */
  lemma {:induction false} PresentInjective(fs: seq<Field>, gs: seq<Field>)
    requires KeysOf(fs) == KeysOf(gs) && Distinct(KeysOf(fs))
    requires Present(fs) == Present(gs)
    ensures forall i :: 0 <= i < |fs| ==> fs[i].value == gs[i].value
  {
    forall i | 0 <= i < |fs| ensures fs[i].value == gs[i].value {
      LookupPresent(fs, i);
      LookupPresent(gs, i);
    }
  }

  /** Giving an empty field a value inserts exactly its one pair, at its place. */
  lemma {:induction false} PresentFill(fs: seq<Field>, i: int, v: string)
    requires 0 <= i < |fs| && fs[i].value.None?
    ensures Present(fs[i := Field(fs[i].key, Some(v))]) == Present(fs[..i]) + [(fs[i].key, v)] + Present(fs[i + 1..])
    ensures |Present(fs[i := Field(fs[i].key, Some(v))])| == |Present(fs)| + 1
  {
    var f := Field(fs[i].key, Some(v));
    var gs := fs[i := f];
    assert gs == fs[..i] + [f] + fs[i + 1..];
    assert fs == fs[..i] + [fs[i]] + fs[i + 1..];
    PresentAppend(fs[..i] + [f], fs[i + 1..]);
    PresentAppend(fs[..i], [f]);
    PresentAppend(fs[..i] + [fs[i]], fs[i + 1..]);
    PresentAppend(fs[..i], [fs[i]]);
  }

  /** Where the keys are distinct, every field's key finds that field's value. */
  lemma {:induction false} LookupPresentAll(fs: seq<Field>)
    requires Distinct(KeysOf(fs))
    ensures forall i :: 0 <= i < |fs| ==> Lookup(Present(fs), fs[i].key) == fs[i].value
  {
    forall i | 0 <= i < |fs|
      ensures Lookup(Present(fs), fs[i].key) == fs[i].value
    {
      LookupPresent(fs, i);
    }
  }

  /** What serialising fields with distinct keys promises: the pairs' keys follow the field
      order, and looking up a field's key finds that field's value (none when it is empty). */
  lemma {:induction false} PresentSpec(fs: seq<Field>)
    requires Distinct(KeysOf(fs))
    ensures Subsequence(PairKeys(Present(fs)), KeysOf(fs))
    ensures forall i :: 0 <= i < |fs| ==> Lookup(Present(fs), fs[i].key) == fs[i].value
  {
    PresentKeysInOrder(fs);
    LookupPresentAll(fs);
  }

  /** An optional slot rendered injectively holds the same rendered value only for the same
      argument. */
  lemma {:induction false} OptionalInjective<T>(key: string, o: Option<T>, o': Option<T>, render: T -> string)
    requires forall a, b :: render(a) == render(b) ==> a == b
    requires Optional(key, o, render).value == Optional(key, o', render).value
    ensures o == o'
  {
    if o.Some? && o'.Some? {
      assert render(o.value) == render(o'.value);
    }
  }
}
