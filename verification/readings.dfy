/**
 A sensor reading and the reference quantities the aggregator's summary is
 specified against: which kinds occur in a sequence of readings, the values of
 one kind in input order, how many readings have that kind and what their
 values add up to.
 */
module Readings {

  /** One reading as a sensor produces it. `kind` is the reading's `type` tag
      ("temperature", "humidity", ...); values are exact reals. */
  datatype Reading = Reading(sensorId: string, kind: string, value: real, unit: string)

  /** The kinds that occur in `data`. */
  function Kinds(data: seq<Reading>): set<string>
  {
    set r | r in data :: r.kind
  }

  /** The values of the readings of kind `k`, in the order they occur. */
  function ValuesOf(data: seq<Reading>, k: string): seq<real>
  {
    if data == [] then []
    else (if data[0].kind == k then [data[0].value] else []) + ValuesOf(data[1..], k)
  }

  /** The number of readings of kind `k`. */
  function CountOf(data: seq<Reading>, k: string): nat
  {
    if data == [] then 0
    else (if data[0].kind == k then 1 else 0) + CountOf(data[1..], k)
  }

  /** The sum of the values of the readings of kind `k`. */
  function SumOf(data: seq<Reading>, k: string): real
  {
    if data == [] then 0.0
    else (if data[0].kind == k then data[0].value else 0.0) + SumOf(data[1..], k)
  }

  /** The number of readings whose kind is one of `keys`. */
  function CountIn(data: seq<Reading>, keys: set<string>): nat
  {
    if data == [] then 0
    else (if data[0].kind in keys then 1 else 0) + CountIn(data[1..], keys)
  }

  /** The sum of a sequence of values. */
  function Sum(xs: seq<real>): real
  {
    if xs == [] then 0.0 else xs[0] + Sum(xs[1..])
  }

  lemma {:induction false} SumConcat(xs: seq<real>, ys: seq<real>)
    ensures Sum(xs + ys) == Sum(xs) + Sum(ys)
    decreases |xs|
  {
    if xs == [] {
      assert xs + ys == ys;
    } else {
      assert (xs + ys)[1..] == xs[1..] + ys;
      SumConcat(xs[1..], ys);
    }
  }

  lemma {:induction false} ValuesOfConcat(a: seq<Reading>, b: seq<Reading>, k: string)
    ensures ValuesOf(a + b, k) == ValuesOf(a, k) + ValuesOf(b, k)
    decreases |a|
  {
    if a == [] {
      assert a + b == b;
    } else {
      var head := if a[0].kind == k then [a[0].value] else [];
      assert (a + b)[0] == a[0];
      assert (a + b)[1..] == a[1..] + b;
      ValuesOfConcat(a[1..], b, k);
      calc {
        ValuesOf(a + b, k);
        head + ValuesOf(a[1..] + b, k);
        head + (ValuesOf(a[1..], k) + ValuesOf(b, k));
        (head + ValuesOf(a[1..], k)) + ValuesOf(b, k);
      }
    }
  }

  lemma KindsSnoc(a: seq<Reading>, e: Reading)
    ensures Kinds(a + [e]) == Kinds(a) + {e.kind}
  {
  }

  /** Appending one reading extends the values of its own kind by its value
      and leaves every other kind's values as they were. */
  lemma ValuesOfSnoc(a: seq<Reading>, e: Reading, k: string)
    ensures ValuesOf(a + [e], k) == ValuesOf(a, k) + (if e.kind == k then [e.value] else [])
  {
    ValuesOfConcat(a, [e], k);
    assert ValuesOf([e], k) == (if e.kind == k then [e.value] else []) + ValuesOf([], k);
  }

  lemma {:induction false} CountOfConcat(a: seq<Reading>, b: seq<Reading>, k: string)
    ensures CountOf(a + b, k) == CountOf(a, k) + CountOf(b, k)
    decreases |a|
  {
    if a == [] {
      assert a + b == b;
    } else {
      assert (a + b)[1..] == a[1..] + b;
      CountOfConcat(a[1..], b, k);
    }
  }

  lemma {:induction false} SumOfConcat(a: seq<Reading>, b: seq<Reading>, k: string)
    ensures SumOf(a + b, k) == SumOf(a, k) + SumOf(b, k)
    decreases |a|
  {
    if a == [] {
      assert a + b == b;
    } else {
      assert (a + b)[1..] == a[1..] + b;
      SumOfConcat(a[1..], b, k);
    }
  }

  /** Appending one reading adds one to its own kind's count and its value
      to its own kind's sum, and changes no other kind's. */
  lemma TotalsSnoc(data: seq<Reading>, r: Reading, k: string)
    ensures CountOf(data + [r], k) == CountOf(data, k) + (if r.kind == k then 1 else 0)
    ensures SumOf(data + [r], k) == SumOf(data, k) + (if r.kind == k then r.value else 0.0)
  {
    CountOfConcat(data, [r], k);
    SumOfConcat(data, [r], k);
    assert CountOf([r], k) == (if r.kind == k then 1 else 0) + CountOf([], k);
    assert SumOf([r], k) == (if r.kind == k then r.value else 0.0) + SumOf([], k);
  }

  /** The filtered values have as many entries as there are readings of the
      kind, and add up to the kind's sum. */
  lemma {:induction false} ValuesOfMeasures(data: seq<Reading>, k: string)
    ensures |ValuesOf(data, k)| == CountOf(data, k)
    ensures Sum(ValuesOf(data, k)) == SumOf(data, k)
    decreases |data|
  {
    if data != [] {
      var head := if data[0].kind == k then [data[0].value] else [];
      ValuesOfMeasures(data[1..], k);
      SumConcat(head, ValuesOf(data[1..], k));
      if data[0].kind == k {
        assert Sum(head) == data[0].value + Sum([]);
      }
    }
  }

  /** A kind has at least one reading exactly when it occurs in the data. */
  lemma {:induction false} CountOfPositive(data: seq<Reading>, k: string)
    ensures CountOf(data, k) > 0 <==> k in Kinds(data)
    decreases |data|
  {
    if data != [] {
      CountOfPositive(data[1..], k);
      assert Kinds(data) == {data[0].kind} + Kinds(data[1..]) by {
        assert forall r :: r in data <==> r == data[0] || r in data[1..] by {
          assert data == [data[0]] + data[1..];
        }
      }
    }
  }

  /** Counting the readings in a set of kinds splits into one kind plus the rest. */
  lemma {:induction false} CountInSplit(data: seq<Reading>, keys: set<string>, k: string)
    requires k in keys
    ensures CountIn(data, keys) == CountOf(data, k) + CountIn(data, keys - {k})
    decreases |data|
  {
    if data != [] {
      CountInSplit(data[1..], keys, k);
    }
  }

  /** When `keys` covers every kind that occurs, every reading is counted. */
  lemma {:induction false} CountInCovering(data: seq<Reading>, keys: set<string>)
    requires Kinds(data) <= keys
    ensures CountIn(data, keys) == |data|
    decreases |data|
  {
    if data != [] {
      assert data[0] in data;
      assert Kinds(data[1..]) <= Kinds(data) by {
        forall r | r in data[1..] ensures r in data {
          assert r == data[1..][0] || r in data[1..];
        }
      }
      CountInCovering(data[1..], keys);
    }
  }

  /** Moving the reading at position `i` to the front changes no kind's count
      or sum. */
  lemma MoveToFront(b: seq<Reading>, i: nat, k: string)
    requires i < |b|
    ensures CountOf(b, k) == CountOf([b[i]] + (b[..i] + b[i + 1..]), k)
    ensures SumOf(b, k) == SumOf([b[i]] + (b[..i] + b[i + 1..]), k)
  {
    var pre, x, post := b[..i], b[i], b[i + 1..];
    assert b == pre + ([x] + post);
    CountOfConcat(pre, [x] + post, k);
    CountOfConcat([x], post, k);
    CountOfConcat(pre, post, k);
    CountOfConcat([x], pre + post, k);
    SumOfConcat(pre, [x] + post, k);
    SumOfConcat([x], post, k);
    SumOfConcat(pre, post, k);
    SumOfConcat([x], pre + post, k);
  }

  /** A permutation of a non-empty sequence holds its first element at some
      position `i`; what remains on both sides after removing it is again a
      permutation. */
  lemma FindInPermutation(a: seq<Reading>, b: seq<Reading>) returns (i: nat)
    requires multiset(a) == multiset(b)
    requires a != []
    ensures i < |b| && b[i] == a[0]
    ensures multiset(a[1..]) == multiset(b[..i] + b[i + 1..])
  {
    var x := a[0];
    assert x in multiset(b) by {
      assert x in multiset(a);
    }
    i :| 0 <= i < |b| && b[i] == x;
    var rest := b[..i] + b[i + 1..];
    assert a == [x] + a[1..];
    assert b == b[..i] + [x] + b[i + 1..];
    assert multiset(b) == multiset(b[..i]) + multiset{x} + multiset(b[i + 1..]);
    assert multiset(rest) == multiset(b[..i]) + multiset(b[i + 1..]);
    assert multiset(a) == multiset{x} + multiset(a[1..]);
    assert multiset(b) == multiset{x} + multiset(rest);
    assert multiset(a[1..]) == multiset(a) - multiset{x};
    assert multiset(rest) == multiset(b) - multiset{x};
  }

  /** Reordering the readings changes neither the count nor the sum of any kind. */
  lemma {:induction false} PermutationPreservesTotals(a: seq<Reading>, b: seq<Reading>, k: string)
    requires multiset(a) == multiset(b)
    ensures CountOf(a, k) == CountOf(b, k)
    ensures SumOf(a, k) == SumOf(b, k)
    decreases |a|
  {
    if a == [] {
      assert |b| == |multiset(b)| == 0;
    } else {
      var i := FindInPermutation(a, b);
      var x, rest := a[0], b[..i] + b[i + 1..];
      PermutationPreservesTotals(a[1..], rest, k);
      MoveToFront(b, i, k);
      assert a == [x] + a[1..];
      CountOfConcat([x], a[1..], k);
      CountOfConcat([x], rest, k);
      SumOfConcat([x], a[1..], k);
      SumOfConcat([x], rest, k);
    }
  }

  /** Reordering the readings does not change which kinds occur. */
  lemma PermutationPreservesKinds(a: seq<Reading>, b: seq<Reading>)
    requires multiset(a) == multiset(b)
    ensures Kinds(a) == Kinds(b)
  {
    forall r ensures r in a <==> r in b {
      assert r in a <==> r in multiset(a);
      assert r in b <==> r in multiset(b);
    }
  }
}
