/**
 The aggregator shared by the sensor tasks: a list of readings with three
 operations. Every operation holds the same lock for its whole duration, so
 any concurrent run is some serial order of whole operations; the aggregator
 is therefore modelled as an immutable state and a serial run as a sequence
 of operations applied one after the other.
 */
module DataAggregator {
  import opened Readings
  import opened Aggregation

  /** The aggregator's state: the readings added so far, oldest first. */
  datatype Aggregator = Aggregator(data: seq<Reading>)

  /** A freshly created aggregator holds no readings and summarizes to nothing. */
  function New(): (a: Aggregator)
    ensures a.data == []
    ensures Aggregate(a.data) == map[]
  {
    Aggregator([])
  }

  /** `add_reading`: the reading goes at the end; everything already there
      stays where it was. */
  function AddReading(a: Aggregator, r: Reading): (a': Aggregator)
    ensures |a'.data| == |a.data| + 1
    ensures a'.data[..|a.data|] == a.data
    ensures a'.data[|a.data|] == r
  {
    Aggregator(a.data + [r])
  }

  /** `aggregate_data`: returns the summary of the current readings and leaves
      the aggregator as it was. */
  function AggregateData(a: Aggregator): (res: (Aggregator, Summary))
    ensures res.0 == a
    ensures res.1.Keys == Kinds(a.data)
    ensures forall k :: k in res.1 ==>
              && res.1[k].count == CountOf(a.data, k)
              && res.1[k].count > 0
              && res.1[k].average == SumOf(a.data, k) / (res.1[k].count as real)
  {
    (a, Aggregate(a.data))
  }

  /** `clear_data`: no readings are left, so the next summary is empty. */
  function ClearData(a: Aggregator): (a': Aggregator)
    ensures a'.data == []
    ensures AggregateData(a').1 == map[]
  {
    Aggregator([])
  }

  /** Clearing twice is the same as clearing once. */
  lemma ClearIdempotent(a: Aggregator)
    ensures ClearData(ClearData(a)) == ClearData(a)
  {
  }

  /** One whole operation, as performed while holding the lock. */
  datatype Op = AddOp(reading: Reading) | AggregateOp | ClearOp

  /** Performs one operation; an `aggregate_data` call also yields its summary. */
  function Step(a: Aggregator, op: Op): (Aggregator, seq<Summary>)
  {
    match op
    case AddOp(r) => (AddReading(a, r), [])
    case AggregateOp => var (a', s) := AggregateData(a); (a', [s])
    case ClearOp => (ClearData(a), [])
  }

  /** Performs the operations in order, collecting the summaries returned by
      the `aggregate_data` calls among them. */
  function Run(a: Aggregator, ops: seq<Op>): (Aggregator, seq<Summary>)
    decreases |ops|
  {
    if ops == [] then (a, [])
    else
      var (a', out) := Step(a, ops[0]);
      var (a'', rest) := Run(a', ops[1..]);
      (a'', out + rest)
  }

  /** The readings added after the last clear in `ops` (all of them when
      there is no clear), in the order they were added. */
  function SinceLastClear(ops: seq<Op>): seq<Reading>
    decreases |ops|
  {
    if ops == [] then []
    else
      var init := ops[..|ops| - 1];
      match ops[|ops| - 1]
      case AddOp(r) => SinceLastClear(init) + [r]
      case AggregateOp => SinceLastClear(init)
      case ClearOp => []
  }

  /** Running one more operation is running the others, then that one. */
  lemma {:induction false} RunSnoc(a: Aggregator, ops: seq<Op>, op: Op)
    ensures Run(a, ops + [op]).0 == Step(Run(a, ops).0, op).0
    ensures Run(a, ops + [op]).1 == Run(a, ops).1 + Step(Run(a, ops).0, op).1
    decreases |ops|
  {
    if ops == [] {
      assert ops + [op] == [op];
    } else {
      assert (ops + [op])[1..] == ops[1..] + [op];
      var a' := Step(a, ops[0]).0;
      RunSnoc(a', ops[1..], op);
    }
  }

  /** After any serial run, the aggregator holds exactly the readings added
      since the last clear, in the order they were added, preceded by the
      starting readings when nothing was cleared. No addition is lost and
      none is duplicated. */
  lemma {:induction false} RunContents(a: Aggregator, ops: seq<Op>)
    ensures Run(a, ops).0.data == (if ClearOp in ops then [] else a.data) + SinceLastClear(ops)
    decreases |ops|
  {
    if ops == [] {
    } else {
      var init, op := ops[..|ops| - 1], ops[|ops| - 1];
      assert ops == init + [op];
      RunSnoc(a, init, op);
      RunContents(a, init);
      assert ClearOp in ops <==> ClearOp in init || op == ClearOp;
    }
  }

  /** A summary taken at any point of a serial run covers exactly the readings
      present at that point: those added since the last clear. */
  lemma RunSummary(a: Aggregator, ops: seq<Op>)
    ensures Run(a, ops + [AggregateOp]).1
            == Run(a, ops).1 + [Aggregate((if ClearOp in ops then [] else a.data) + SinceLastClear(ops))]
  {
    RunSnoc(a, ops, AggregateOp);
    RunContents(a, ops);
  }

  /** Every reading the operations add, in order, whatever clears come between. */
  function Added(ops: seq<Op>): seq<Reading>
    decreases |ops|
  {
    if ops == [] then []
    else (if ops[0].AddOp? then [ops[0].reading] else []) + Added(ops[1..])
  }

  /** Without a clear, the readings since the last clear are all the added ones. */
  lemma {:induction false} SinceLastClearWithoutClear(ops: seq<Op>)
    requires ClearOp !in ops
    ensures SinceLastClear(ops) == Added(ops)
    decreases |ops|
  {
    if ops != [] {
      var init, op := ops[..|ops| - 1], ops[|ops| - 1];
      assert ops == init + [op];
      assert ClearOp !in init;
      SinceLastClearWithoutClear(init);
      AddedConcat(init, [op]);
      assert Added([op]) == (if op.AddOp? then [op.reading] else []) + Added([]);
    }
  }

  lemma {:induction false} AddedConcat(xs: seq<Op>, ys: seq<Op>)
    ensures Added(xs + ys) == Added(xs) + Added(ys)
    decreases |xs|
  {
    if xs == [] {
      assert xs + ys == ys;
    } else {
      assert (xs + ys)[1..] == xs[1..] + ys;
      AddedConcat(xs[1..], ys);
    }
  }

  /** Two serial runs without a clear that add the same readings, in whatever
      order the producers happened to be scheduled, end with the same number
      of readings and the same summary. */
  lemma SchedulesAgree(a: Aggregator, ops1: seq<Op>, ops2: seq<Op>)
    requires ClearOp !in ops1 && ClearOp !in ops2
    requires multiset(Added(ops1)) == multiset(Added(ops2))
    ensures |Run(a, ops1).0.data| == |Run(a, ops2).0.data| == |a.data| + |Added(ops1)|
    ensures AggregateData(Run(a, ops1).0).1 == AggregateData(Run(a, ops2).0).1
  {
    RunContents(a, ops1);
    RunContents(a, ops2);
    SinceLastClearWithoutClear(ops1);
    SinceLastClearWithoutClear(ops2);
    var d1, d2 := a.data + Added(ops1), a.data + Added(ops2);
    assert multiset(d1) == multiset(d2);
    assert |Added(ops1)| == |multiset(Added(ops1))| == |multiset(Added(ops2))| == |Added(ops2)|;
    AggregatePermutation(d1, d2);
  }
}
