/**
 * The time-series normalizer behind the service metrics endpoint: two
 * range queries (CPU, memory) over the planned window, each reshaped from
 * the backend's matrix of labelled streams into chart datasets.
 */
module Normalizer {
  import opened Outcomes
  import SamplingPlanner

  /** One backend sample: a millisecond timestamp and its value. */
  datatype Sample = Sample(timestamp: int, value: real)

  /** One labelled stream of a range-query matrix, samples in backend order. */
  datatype Stream = Stream(metric: map<string, string>, values: seq<Sample>)

  /** One chart point: `x` is the sample's timestamp, `y` its converted value. */
  datatype ChartPoint = ChartPoint(x: int, y: real)

  /**
   * One chart line per stream. `name` is the dataset's label (rendered under
   * the JSON key `label`; `label` itself is a reserved word in Dafny).
   */
  datatype ChartDataset = ChartDataset(name: string, data: seq<ChartPoint>)

  /** The stream's `name` label; a missing label reads as the empty string, as a Go map lookup does. */
  function NameLabel(metric: map<string, string>): (value: string)
    ensures "name" in metric ==> value == metric["name"]
    ensures "name" !in metric ==> value == ""
  {
    if "name" in metric then metric["name"] else ""
  }

  /** CPU samples are already percentages: they are charted as they are. */
  function CpuValue(v: real): real
  {
    v
  }

  /** Memory samples are bytes, charted in mebibytes (divided by 1024 twice). */
  function MemoryValue(v: real): (mib: real)
    ensures mib * 1048576.0 == v
  {
    v / 1024.0 / 1024.0
  }

  /**
   * `datasets` is `matrix` reshaped: one dataset per stream in stream order,
   * labelled with the stream's name, with one point per sample in sample
   * order, its timestamp unchanged and its value passed through `convert`.
   */
  predicate Reshaped(matrix: seq<Stream>, convert: real -> real, datasets: seq<ChartDataset>)
  {
    |datasets| == |matrix| &&
    forall i :: 0 <= i < |matrix| ==>
      datasets[i].name == NameLabel(matrix[i].metric) &&
      |datasets[i].data| == |matrix[i].values| &&
      forall j :: 0 <= j < |matrix[i].values| ==>
        datasets[i].data[j] == ChartPoint(matrix[i].values[j].timestamp, convert(matrix[i].values[j].value))
  }

  /** The nested append loops of the metrics handler. */
  method ReshapeMatrix(matrix: seq<Stream>, convert: real -> real) returns (datasets: seq<ChartDataset>)
    ensures Reshaped(matrix, convert, datasets)
  {
    datasets := [];
    for k := 0 to |matrix|
      invariant |datasets| == k
      invariant forall i :: 0 <= i < k ==>
        datasets[i].name == NameLabel(matrix[i].metric) &&
        |datasets[i].data| == |matrix[i].values| &&
        forall j :: 0 <= j < |matrix[i].values| ==>
          datasets[i].data[j] == ChartPoint(matrix[i].values[j].timestamp, convert(matrix[i].values[j].value))
    {
      var stream := matrix[k];
      var ds := ChartDataset(NameLabel(stream.metric), []);
      for j := 0 to |stream.values|
        invariant ds.name == NameLabel(stream.metric)
        invariant |ds.data| == j
        invariant forall t :: 0 <= t < j ==>
          ds.data[t] == ChartPoint(stream.values[t].timestamp, convert(stream.values[t].value))
      {
        var v := stream.values[j];
        ds := ds.(data := ds.data + [ChartPoint(v.timestamp, convert(v.value))]);
      }
      datasets := datasets + [ds];
    }
  }

  /** Reshaping leaves no freedom: a matrix has exactly one reshaped form. */
  lemma ReshapedUnique(matrix: seq<Stream>, convert: real -> real, a: seq<ChartDataset>, b: seq<ChartDataset>)
    requires Reshaped(matrix, convert, a) && Reshaped(matrix, convert, b)
    ensures a == b
  {
    forall i | 0 <= i < |a|
      ensures a[i] == b[i]
    {
      assert a[i].data == b[i].data;
    }
  }

  /** The total number of samples in a matrix. */
  function SampleCount(matrix: seq<Stream>): nat
  {
    if matrix == [] then 0 else |matrix[0].values| + SampleCount(matrix[1..])
  }

  /** The total number of points in a list of datasets. */
  function PointCount(datasets: seq<ChartDataset>): nat
  {
    if datasets == [] then 0 else |datasets[0].data| + PointCount(datasets[1..])
  }

  /** Reshaping neither drops nor invents points. */
  lemma {:induction false} ReshapedPreservesCount(matrix: seq<Stream>, convert: real -> real, datasets: seq<ChartDataset>)
    requires Reshaped(matrix, convert, datasets)
    ensures PointCount(datasets) == SampleCount(matrix)
  {
    if matrix != [] {
      assert Reshaped(matrix[1..], convert, datasets[1..]) by {
        forall i | 0 <= i < |matrix[1..]|
          ensures datasets[1..][i].name == NameLabel(matrix[1..][i].metric)
          ensures |datasets[1..][i].data| == |matrix[1..][i].values|
        {
          assert datasets[1..][i] == datasets[i + 1] && matrix[1..][i] == matrix[i + 1];
        }
      }
      ReshapedPreservesCount(matrix[1..], convert, datasets[1..]);
    }
  }

  /** Conversion examples: a mebibyte is 1, nothing is 0, a CPU value is kept. */
  lemma ValueExamples()
    ensures MemoryValue(1048576.0) == 1.0
    ensures MemoryValue(0.0) == 0.0
    ensures CpuValue(42.5) == 42.5
  {
  }

  /** The two queries the handler issues. */
  datatype Metric = CpuUserPercent | MemoryUsageBytes

  /** A range query for one metric of one service over `[start, end]` sampled every `step`. */
  datatype RangeQuery = RangeQuery(metric: Metric, service: string, start: int, end: int, step: int)

  /** The metrics backend: each query yields a matrix of streams or an error. */
  type Backend = RangeQuery -> Result<seq<Stream>, string>

  /** The chart map the handler renders, keyed `cpu` and `memory`. */
  type Charts = map<string, seq<ChartDataset>>

  /**
   * The metrics handler for service `name`. `period` is the parsed `time`
   * query parameter (absent when missing or malformed), `now` the clock,
   * `setup` the error from loading the settings or building the client,
   * if any. Returns the result and the queries issued, in order.
   */
  method ServiceMetrics(name: string, period: Option<int>, now: int, setup: Option<string>, backend: Backend)
    returns (r: Result<Charts, string>, queries: seq<RangeQuery>)
    ensures var window := if period.Some? then period.value else SamplingPlanner.DefaultPeriod;
      var cpuQuery := RangeQuery(CpuUserPercent, name, now - window, now, SamplingPlanner.Step(window));
      var memoryQuery := RangeQuery(MemoryUsageBytes, name, now - window, now, SamplingPlanner.Step(window));
      if setup.Some? then
        r == Err(setup.value) && queries == []
      else if backend(cpuQuery).Err? then
        r == Err(backend(cpuQuery).error) && queries == [cpuQuery]
      else if backend(memoryQuery).Err? then
        r == Err(backend(memoryQuery).error) && queries == [cpuQuery, memoryQuery]
      else
        queries == [cpuQuery, memoryQuery] &&
        r.Ok? && r.value.Keys == {"cpu", "memory"} &&
        Reshaped(backend(cpuQuery).value, CpuValue, r.value["cpu"]) &&
        Reshaped(backend(memoryQuery).value, MemoryValue, r.value["memory"])
  {
    var window := if period.Some? then period.value else SamplingPlanner.DefaultPeriod;
    var step := SamplingPlanner.Step(window);
    queries := [];
    if setup.Some? {
      return Err(setup.value), queries;
    }

    var end := now;
    var start := end - window;
    var cpuQuery := RangeQuery(CpuUserPercent, name, start, end, step);
    queries := queries + [cpuQuery];
    var cpuMatrix := backend(cpuQuery);
    if cpuMatrix.Err? {
      return Err(cpuMatrix.error), queries;
    }
    var cpuDatasets := ReshapeMatrix(cpuMatrix.value, CpuValue);

    var memoryQuery := RangeQuery(MemoryUsageBytes, name, start, end, step);
    queries := queries + [memoryQuery];
    var memoryMatrix := backend(memoryQuery);
    if memoryMatrix.Err? {
      return Err(memoryMatrix.error), queries;
    }
    var memoryDatasets := ReshapeMatrix(memoryMatrix.value, MemoryValue);

    r := Ok(map["cpu" := cpuDatasets, "memory" := memoryDatasets]);
  }
}
