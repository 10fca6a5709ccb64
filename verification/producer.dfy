/**
 The producer side: a sensor task reads from its sensor a fixed number of
 times and hands each reading to the aggregator. The sensor's delays and
 random values are not modelled; the reading taken on iteration `i` is an
 arbitrary input `sensor(i)`.
 */
module Producer {
  import opened Readings
  import opened Aggregation
  import opened DataAggregator

  /** `sensor_task`, run on its own: exactly `iterations` readings are added
      after the ones already present, in the order the sensor produced them. */
  method SensorTask(a: Aggregator, sensor: nat -> Reading, iterations: nat) returns (a': Aggregator)
    ensures |a'.data| == |a.data| + iterations
    ensures a'.data[..|a.data|] == a.data
    ensures forall i :: 0 <= i < iterations ==> a'.data[|a.data| + i] == sensor(i)
  {
    a' := a;
    for i := 0 to iterations
      invariant |a'.data| == |a.data| + i
      invariant a'.data[..|a.data|] == a.data
      invariant forall j :: 0 <= j < i ==> a'.data[|a.data| + j] == sensor(j)
    {
      var reading := sensor(i);
      a' := AddReading(a', reading);
    }
  }

  /** Two temperature readings of 20 and 30 and one humidity reading of 40. */
  const ExampleData := [Reading("temp_1", "temperature", 20.0, "°C"),
                        Reading("temp_2", "temperature", 30.0, "°C"),
                        Reading("hum_1", "humidity", 40.0, "%")]

  /** The example's kinds, and each kind's count and sum. */
  lemma ExampleTotals()
    ensures Kinds(ExampleData) == {"temperature", "humidity"}
    ensures CountOf(ExampleData, "temperature") == 2 && SumOf(ExampleData, "temperature") == 50.0
    ensures CountOf(ExampleData, "humidity") == 1 && SumOf(ExampleData, "humidity") == 40.0
  {
  }

  /** The example summarizes to a temperature entry of count 2 and average 25
      and a humidity entry of count 1 and average 40. */
  lemma ExampleSummary()
    ensures Aggregate(ExampleData) == map["temperature" := Stats(2, 25.0), "humidity" := Stats(1, 40.0)]
  {
    var m := map["temperature" := Stats(2, 25.0), "humidity" := Stats(1, 40.0)];
    ExampleTotals();
    assert m["temperature"].average == 50.0 / (2 as real);
    assert m["humidity"].average == 40.0 / (1 as real);
    SummaryOf(ExampleData, m);
  }
}
