/**
 The summary `aggregate_data` computes: readings are first grouped by kind
 (the values of each kind collected in input order), then every group is
 reduced to its count and the mean of its values.
 */
module Aggregation {
  import opened Readings

  /** The per-kind entry of a summary. */
  datatype Stats = Stats(count: nat, average: real)

  /** A summary maps each kind to its statistics. */
  type Summary = map<string, Stats>

  /** The grouping pass: readings are visited front to back and each value is
      appended to the list of its kind, a new list being started the first
      time a kind is met. `Group(data)` is the grouping after all of `data`.
      Each kind that occurs gets exactly its own values, in input order, and
      no group is ever empty. */
  function Group(data: seq<Reading>): (g: map<string, seq<real>>)
    ensures IsGrouping(data, g)
    decreases |data|
  {
    if data == [] then map[]
    else
      var e := data[|data| - 1];
      var g0 := Group(data[..|data| - 1]);
      var g := g0[e.kind := (if e.kind in g0 then g0[e.kind] else []) + [e.value]];
      GroupStep(data, g0, g);
      g
  }

  /** `g` groups `data`: a key for exactly the kinds that occur, each holding
      that kind's values in input order, none empty. */
  ghost predicate IsGrouping(data: seq<Reading>, g: map<string, seq<real>>)
  {
    && g.Keys == Kinds(data)
    && forall k :: k in g ==> g[k] == ValuesOf(data, k) && |g[k]| > 0
  }

  /** One step of the grouping pass, on the last reading of `data`, turns a
      grouping of the readings before it into a grouping of all of `data`. */
  lemma GroupStep(data: seq<Reading>, g0: map<string, seq<real>>, g: map<string, seq<real>>)
    requires data != []
    requires IsGrouping(data[..|data| - 1], g0)
    requires var e := data[|data| - 1];
             g == g0[e.kind := (if e.kind in g0 then g0[e.kind] else []) + [e.value]]
    ensures IsGrouping(data, g)
  {
    var init, e := data[..|data| - 1], data[|data| - 1];
    assert data == init + [e];
    KindsSnoc(init, e);
    forall k | k in g
      ensures g[k] == ValuesOf(data, k) && |g[k]| > 0
    {
      ValuesOfSnoc(init, e, k);
      if k != e.kind {
        assert g[k] == g0[k];
      } else if k in g0 {
        assert g[k] == g0[k] + [e.value];
      } else {
        ValuesOfMeasures(init, k);
        CountOfPositive(init, k);
        assert ValuesOf(init, k) == [];
      }
    }
  }

  /** The mean of a list of values, with the source's fallback of 0 for an
      empty list. */
  function Mean(values: seq<real>): real
  {
    if |values| > 0 then Sum(values) / (|values| as real) else 0.0
  }

  /** The reduction pass: each group becomes its count and mean. */
  function Summarize(g: map<string, seq<real>>): Summary
  {
    map k | k in g :: Stats(|g[k]|, Mean(g[k]))
  }

  /** The summary of `data`. Its keys are exactly the kinds that occur; each
      count is the number of readings of that kind, never zero; each average
      is the sum of that kind's values divided by its count. */
  function Aggregate(data: seq<Reading>): (s: Summary)
    ensures s.Keys == Kinds(data)
    ensures forall k :: k in s ==>
              && s[k].count == CountOf(data, k)
              && s[k].count > 0
              && s[k].average == SumOf(data, k) / (CountOf(data, k) as real)
    ensures data == [] ==> s == map[]
  {
    var g := Group(data);
    AllValuesOfMeasures(data);
    Summarize(g)
  }

  /** A summary is the summary of `data` as soon as it has the right keys and
      each entry holds its kind's count and mean. */
  lemma SummaryOf(data: seq<Reading>, m: Summary)
    requires m.Keys == Kinds(data)
    requires forall k :: k in m ==>
               && m[k].count == CountOf(data, k)
               && m[k].count > 0
               && m[k].average == SumOf(data, k) / (m[k].count as real)
    ensures Aggregate(data) == m
  {
  }

  lemma AllValuesOfMeasures(data: seq<Reading>)
    ensures forall k :: |ValuesOf(data, k)| == CountOf(data, k) && Sum(ValuesOf(data, k)) == SumOf(data, k)
  {
    forall k
      ensures |ValuesOf(data, k)| == CountOf(data, k) && Sum(ValuesOf(data, k)) == SumOf(data, k)
    {
      ValuesOfMeasures(data, k);
    }
  }

  /** The summary does not depend on the order of the readings. */
  lemma AggregatePermutation(a: seq<Reading>, b: seq<Reading>)
    requires multiset(a) == multiset(b)
    ensures Aggregate(a) == Aggregate(b)
  {
    var sa, sb := Aggregate(a), Aggregate(b);
    PermutationPreservesKinds(a, b);
    forall k | k in sa
      ensures sa[k] == sb[k]
    {
      PermutationPreservesTotals(a, b, k);
    }
  }

  /** The sum of the counts of the entries for `keys`. The entries are
      visited in an arbitrary order; addition makes the order irrelevant. */
  ghost function CountsOver(s: Summary, keys: set<string>): nat
    requires keys <= s.Keys
    decreases keys
  {
    if keys == {} then 0
    else
      var k :| k in keys;
      s[k].count + CountsOver(s, keys - {k})
  }

  /** The sum of all the counts of a summary. */
  ghost function TotalCount(s: Summary): nat
  {
    CountsOver(s, s.Keys)
  }

  /** Adding up the counts of a summary over `keys`, when every entry holds
      its kind's count, counts the readings whose kind is among `keys`. */
  lemma {:induction false} CountsOverCounts(data: seq<Reading>, s: Summary, keys: set<string>)
    requires keys <= s.Keys
    requires forall k :: k in s ==> s[k].count == CountOf(data, k)
    ensures CountsOver(s, keys) == CountIn(data, keys)
    decreases keys
  {
    if keys == {} {
      EmptyKeysCountNothing(data);
    } else {
      var k :| k in keys && CountsOver(s, keys) == s[k].count + CountsOver(s, keys - {k});
      CountsOverCounts(data, s, keys - {k});
      CountInSplit(data, keys, k);
    }
  }

  lemma {:induction false} EmptyKeysCountNothing(data: seq<Reading>)
    ensures CountIn(data, {}) == 0
    decreases |data|
  {
    if data != [] {
      EmptyKeysCountNothing(data[1..]);
    }
  }

  /** The counts of the summary add up to the number of readings. */
  lemma AggregateCountsSum(data: seq<Reading>)
    ensures TotalCount(Aggregate(data)) == |data|
  {
    CountsOverCounts(data, Aggregate(data), Kinds(data));
    CountInCovering(data, Kinds(data));
  }

  /** Adding one reading to the data changes only the entry of its own kind:
      that count grows by one and that mean takes in the new value. */
  lemma AggregateSnoc(data: seq<Reading>, r: Reading)
    ensures Aggregate(data + [r]).Keys == Aggregate(data).Keys + {r.kind}
    ensures forall k :: k in Aggregate(data) && k != r.kind ==> Aggregate(data + [r])[k] == Aggregate(data)[k]
    ensures Aggregate(data + [r])[r.kind].count == CountOf(data, r.kind) + 1
    ensures Aggregate(data + [r])[r.kind].average
            == (SumOf(data, r.kind) + r.value) / ((CountOf(data, r.kind) + 1) as real)
  {
    var s, s' := Aggregate(data), Aggregate(data + [r]);
    KindsSnoc(data, r);
    forall k | k in s && k != r.kind
      ensures s'[k] == s[k]
    {
      TotalsSnoc(data, r, k);
    }
    AddedEntry(data, r);
  }

  lemma AddedEntry(data: seq<Reading>, r: Reading)
    ensures r.kind in Aggregate(data + [r])
    ensures Aggregate(data + [r])[r.kind]
            == Stats(CountOf(data, r.kind) + 1, (SumOf(data, r.kind) + r.value) / ((CountOf(data, r.kind) + 1) as real))
  {
    var k := r.kind;
    KindsSnoc(data, r);
    TotalsSnoc(data, r, k);
    EntryOf(data + [r], k);
    var c, t := CountOf(data, k), SumOf(data, k);
    var c', t' := CountOf(data + [r], k), SumOf(data + [r], k);
    assert c' == c + 1;
    assert t' == t + r.value;
    assert (c' as real) == (c + 1) as real;
    assert t' / (c' as real) == (t + r.value) / ((c + 1) as real);
  }

  lemma EntryOf(data: seq<Reading>, k: string)
    requires k in Kinds(data)
    ensures k in Aggregate(data)
    ensures Aggregate(data)[k] == Stats(CountOf(data, k), SumOf(data, k) / (CountOf(data, k) as real))
  {
  }
}
