# Sensor data aggregator — a verified Dafny model

The system simulates a few sensors. Each sensor produces readings. A shared
`DataAggregator` collects the readings and summarizes them per reading type.
The summary gives each type's count and the mean of its values.

This project models the aggregator and the loop of a sensor task:

- `readings.dfy` (module `Readings`) holds the `Reading` record. It also holds
  the reference quantities the summary is specified against. These are the
  kinds that occur, the values of one kind in input order, the count of one
  kind and the sum of one kind.
- `aggregation.dfy` (module `Aggregation`) holds `aggregate_data`'s
  computation. It has two passes, as in the source. `Group` collects each
  kind's values. `Summarize` turns each group into a count and a `Mean`;
  `Mean` keeps the source's fallback of 0 for an empty group. `Aggregate`
  composes the two passes. The lemmas prove that the summary does not depend
  on the order of the readings, that its counts add up to the number of
  readings, and how one added reading changes it.
- `aggregator.dfy` (module `DataAggregator`) holds the aggregator's state and
  its three operations. All three take the same lock for their whole
  duration, so a concurrent run is some serial order of whole operations.
  `Run` performs such an order, a `seq<Op>`. The lemmas state what the
  aggregator holds after any serial order. They also show that two schedules
  adding the same readings end with the same summary.
- `producer.dfy` (module `Producer`) holds `sensor_task`'s read-then-add loop
  as a method. It also holds a worked example summary.

Values are exact `real`s, so a mean is exactly the sum divided by the count.
The source's `type` field is the `kind` field here. The sensors only ever
produce `"temperature"` and `"humidity"` (test.py:38, 46), but the aggregator
accepts any `type`, and so does the model.

The helper functions `Mean` and `Summarize` (the reduction pass, test.py:67-70)
have no rows of their own: the `Aggregate` contract fixes their result
completely. Likewise `Step` and `Run` (one locked operation, and a serial
schedule of them) are pinned down by the `RunSnoc`, `RunContents` and
`RunSummary` rows.

## Model

| member | source | states |
|---|---|---|
| Aggregation.Group | test.py:61-66 | The grouping pass has a key for exactly the types present. Each key holds that type's values, in input order. No group is empty. |
| Aggregation.GroupStep | test.py:63-66 | One iteration of the grouping loop keeps the grouping faithful to the readings visited so far. This holds whether the type is new or already has a group. |
| Aggregation.Aggregate | test.py:59-72 | The summary's keys are exactly the types that occur. Each count is the number of readings of that type and is never 0, so the zero fallback is never taken. Each average is the type's sum divided by its count. Empty data gives an empty summary. |
| Aggregation.AggregatePermutation | test.py:62-70 | Any reordering of the readings gives the same summary. |
| Aggregation.AggregateCountsSum | test.py:62-70 | The counts of all entries add up to the number of readings. |
| Aggregation.AggregateSnoc | test.py:54-70 | Adding one reading adds its type to the keys and leaves every other entry unchanged. Its own entry's count grows by one. Its average becomes the old sum plus the new value, divided by the new count. |
| DataAggregator.New | test.py:50-52 | A new aggregator holds no readings, and its summary is empty. |
| DataAggregator.AddReading | test.py:54-56 | The length grows by one. The earlier readings are unchanged, and the new reading is last. |
| DataAggregator.AggregateData | test.py:59-72 | The aggregator is left unchanged. The summary's keys are the stored types. Each count is the stored count of its type and is positive. Each average is that type's sum divided by its count. |
| DataAggregator.ClearData | test.py:74-76 | No readings remain, and a following summary is empty. |
| DataAggregator.ClearIdempotent | test.py:74-76 | Clearing twice gives the same state as clearing once. |
| DataAggregator.RunSnoc | test.py:55-76 | A serial run of operations followed by one more operation equals running that operation on the run's final state. Its summaries are appended. |
| DataAggregator.RunContents | test.py:49-77 | After any serial order of operations, the aggregator holds exactly the readings added since the last clear, in order. With no clear, the starting readings come first. Nothing is lost or duplicated. |
| DataAggregator.RunSummary | test.py:54-76 | A summary taken at any point of a serial run covers exactly the readings added since the last clear. |
| DataAggregator.SchedulesAgree | test.py:55-70 | Two clear-free serial runs that add the same readings in different interleavings end with the same number of readings and the same summary. |
| Producer.SensorTask | test.py:81-84 | With `iterations = n`, exactly n readings are added after the existing ones, in the order the sensor produced them. |
| Producer.ExampleSummary | test.py:59-72 | The readings temperature 20, temperature 30 and humidity 40 summarize to temperature with count 2 and average 25, and humidity with count 1 and average 40. |

## Left out

- The `asyncio.Lock`, `asyncio.gather` and the event loop (test.py:52, 55, 60, 75, 102, 113-115) are not modelled as concurrency. Each operation holds the one lock throughout, so serial sequences of whole operations (`Run`) stand in for them.
- `run_simulation` (test.py:89-109) as a whole is left out: it only creates the sensors, gathers the tasks, calls `aggregate_data` (test.py:103), prints and clears. Its `aggregate_data` call is `AggregateData`. Its gather step is covered by `SchedulesAgree`, and its final clear by `ClearData`.
- The `Sensor` classes, their `__str__`, `asyncio.sleep` delays and `random.uniform` values (test.py:21-46, 85) are left out. They are random simulation with nothing to prove. `SensorTask` takes the reading of iteration `i` as an arbitrary input `sensor(i)`.
- Logging, the `async_timed` decorator, console printing, the `number` global and `main` (test.py:7-18, 57, 71, 77, 105-108, 112-118) are left out. They are I/O and observability only.
- IEEE floating-point arithmetic in `sum(values) / len(values)` is left out. The model uses exact reals, so summation does not depend on order, which is not true of floats.
- The insertion order of the summary's keys is left out. The source's dict keeps first-seen order, which only affects printing. A Dafny `map` has no order.
- Readings are records here, so the `KeyError` a dict without `type` or `value` would raise cannot arise. The sensors always supply both keys.
- The source appends a reference to the caller's reading dict (test.py:56), so mutating that dict later would change what `aggregate_data` sees. The model stores immutable values. No reading is mutated after it is added, so nothing reachable is lost.
- `SensorTask` has no default for `iterations` and takes a `nat`. The source defaults to 5 (test.py:81), and its only call passes 5 (test.py:100). A negative count would make `range(iterations)` run zero times; the model does not take negative counts.
