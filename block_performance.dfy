/** The consumer side of the block-device benchmark: `read_values` and
    `consume_fio_output` feeding the statistics consumer, the CPU-load
    reduction at the end of `run_fio`, and the ids that `fio_workload`
    builds for each pipe. */
module BlockPerformance {
  import opened Python
  import opened Strings
  import opened Statistics
  import opened FioLog

  // ---------------------------------------------------------------------
  // read_values

  /** What read_values does to the consumer: the calls of ReadValuesCalls,
      or none and the exception. */
  ghost function ReadValuesRun(numjobs: nat, logs: seq<seq<string>>, mode: string, measurement: string): (r: Run)
    ensures r.outcome.Err? ==> r.calls == []
  {
    match ReadValuesCalls(numjobs, logs, mode, measurement)
    case Ok(calls) => Run(calls, Ok(()))
    case Err(e) => Run([], Err(e))
  }

  /** The loop at the end of read_values: `consume_data(id, sum)` for every
      bucket that holds exactly `numjobs` values, series by series. */
  method EmitFull(cons: Consumer, values: seq<Series>, numjobs: nat)
    modifies cons
    ensures cons.log == old(cons.log) + DataCalls(FullBuckets(values, numjobs))
  {
    var p := 0;
    while p < |values|
      invariant 0 <= p <= |values|
      invariant cons.log == old(cons.log) + DataCalls(FullBuckets(values[..p], numjobs))
    {
      var series := values[p];
      var q := 0;
      while q < |series.buckets|
        invariant 0 <= q <= |series.buckets|
        invariant cons.log == old(cons.log) + DataCalls(FullBuckets(values[..p], numjobs) + BucketPoints(series.id, series.buckets[..q], numjobs))
      {
        var bucket := series.buckets[q];
        EmitStep(FullBuckets(values[..p], numjobs), series.id, series.buckets, q, numjobs);
        if |bucket.values| == numjobs {
          cons.ConsumeData(series.id, Sum(bucket.values));
        }
        q := q + 1;
      }
      SeriesStep(values, p, numjobs);
      p := p + 1;
    }
    assert values[..p] == values;
  }

  /** Emitting bucket q of a series after the ones before it. */
  lemma EmitStep(done: seq<Point>, id: string, bs: seq<Bucket>, q: nat, numjobs: nat)
    requires q < |bs|
    ensures DataCalls(done + BucketPoints(id, bs[..q + 1], numjobs))
         == DataCalls(done + BucketPoints(id, bs[..q], numjobs))
            + (if |bs[q].values| == numjobs then [Data(id, Sum(bs[q].values))] else [])
  {
    assert bs[..q + 1][..q] == bs[..q];
    DataCallsAppend(done, BucketPoints(id, bs[..q], numjobs));
    DataCallsAppend(done, BucketPoints(id, bs[..q + 1], numjobs));
    DataCallsAppend(BucketPoints(id, bs[..q], numjobs), if |bs[q].values| == numjobs then [Point(id, bs[q].idx, Sum(bs[q].values))] else []);
  }

  /** The points of the first p + 1 series: those of the first p, then all of series p's. */
  lemma SeriesStep(values: seq<Series>, p: nat, numjobs: nat)
    requires p < |values|
    ensures FullBuckets(values[..p + 1], numjobs)
         == FullBuckets(values[..p], numjobs) + BucketPoints(values[p].id, values[p].buckets[..|values[p].buckets|], numjobs)
  {
    assert values[..p + 1][..p] == values[..p];
    assert values[p].buckets[..|values[p].buckets|] == values[p].buckets;
  }

  /** read_values over the lines of the numjobs jobs' logs (job j's log is
      `logs[j]`): reads every line into `values`, then passes the complete
      buckets on. */
  method ReadValues(cons: Consumer, numjobs: nat, logs: seq<seq<string>>, mode: string, measurement: string)
    returns (r: Result<()>)
    requires |logs| == numjobs
    modifies cons
    ensures r == ReadValuesRun(numjobs, logs, mode, measurement).outcome
    ensures cons.log == old(cons.log) + ReadValuesRun(numjobs, logs, mode, measurement).calls
  {
    ghost var readings := ReadLogs(logs);
    ghost var samples: seq<Sample> := [];
    var values: seq<Series> := [];
    var dc := DirectionCount(mode);
    var jobId := 0;
    while jobId < numjobs
      invariant 0 <= jobId <= numjobs
      invariant AllSamples(measurement, readings[..jobId], dc) == Ok(samples)
      invariant values == Grouped(samples)
      invariant cons.log == old(cons.log)
    {
      JobReadings(logs, jobId);
      var job := ReadJob(values, logs[jobId], dc, measurement, samples, readings[jobId]);
      JobStep(measurement, readings, dc, jobId, samples);
      if job.Err? {
        return Err(job.error);
      }
      values := job.value;
      samples := samples + JobSamples(measurement, readings[jobId], dc).value;
      jobId := jobId + 1;
    }
    AllJobsRead(numjobs, logs, mode, measurement, samples);
    EmitFull(cons, values, numjobs);
    return Ok(());
  }

  lemma JobReadings(logs: seq<seq<string>>, j: nat)
    requires j < |logs|
    ensures ReadsAs(logs[j], ReadLogs(logs)[j])
  {
  }

  /** Reading job j's log after the logs before it: its samples follow
      theirs, or its exception is the run's. */
  lemma JobStep(measurement: string, readings: seq<seq<Reading>>, dc: nat, j: nat, samples: seq<Sample>)
    requires dc == 1 || dc == 2
    requires j < |readings|
    requires AllSamples(measurement, readings[..j], dc) == Ok(samples)
    ensures JobSamples(measurement, readings[j], dc).Err? ==>
      AllSamples(measurement, readings, dc) == Err(JobSamples(measurement, readings[j], dc).error)
    ensures JobSamples(measurement, readings[j], dc).Ok? ==>
      AllSamples(measurement, readings[..j + 1], dc) == Ok(samples + JobSamples(measurement, readings[j], dc).value)
  {
    assert readings[..j + 1][..j] == readings[..j];
    if JobSamples(measurement, readings[j], dc).Err? {
      AllSamplesErr(measurement, readings, dc, j + 1);
    }
  }

  lemma AllJobsRead(numjobs: nat, logs: seq<seq<string>>, mode: string, measurement: string, samples: seq<Sample>)
    requires |logs| == numjobs
    requires AllSamples(measurement, ReadLogs(logs)[..numjobs], DirectionCount(mode)) == Ok(samples)
    ensures ReadValuesRun(numjobs, logs, mode, measurement) == Run(DataCalls(FullBuckets(Grouped(samples), numjobs)), Ok(()))
  {
    assert ReadLogs(logs)[..numjobs] == ReadLogs(logs);
  }

  /** The body of read_values' job loop: every line of one job's log read
      into `values`, `direction_count` lines per value index. Returns the
      new `values`, or the exception. */
  method ReadJob(values: seq<Series>, lines: seq<string>, dc: nat, measurement: string, ghost samples: seq<Sample>, ghost rs: seq<Reading>)
    returns (r: Result<seq<Series>>)
    requires dc == 1 || dc == 2
    requires ReadsAs(lines, rs)
    requires values == Grouped(samples)
    ensures r.Err? <==> JobSamples(measurement, rs, dc).Err?
    ensures r.Err? ==> r.error == JobSamples(measurement, rs, dc).error
    ensures r.Ok? ==> r.value == Grouped(samples + JobSamples(measurement, rs, dc).value)
  {
    ghost var done: seq<Sample> := [];
    var acc := values;
    assert samples + done == samples;
    var idx := 0;
    while idx < |lines|
      invariant 0 <= idx <= |lines|
      invariant dc == 2 ==> idx % 2 == 0
      invariant Progress(acc, samples, measurement, rs, dc, idx, done)
    {
      var step;
      step, done := ReadIndex(acc, lines, idx, dc, measurement, samples, rs, done);
      if step.Err? {
        return Err(step.error);
      }
      acc := step.value;
      if dc == 2 {
        EvenStep(idx);
      }
      idx := idx + dc;
    }
    LogEnd(measurement, rs, dc, idx, done);
    return Ok(acc);
  }

  /** After the first k lines of a job's log: they read as `done`, and
      `values` holds the earlier jobs' samples followed by `done`. */
  ghost predicate Progress(values: seq<Series>, samples: seq<Sample>, measurement: string, rs: seq<Reading>, dc: nat, k: nat, done: seq<Sample>)
    requires dc == 1 || dc == 2
  {
    && k <= |rs|
    && LinesSamples(measurement, rs[..k], dc) == Ok(done)
    && values == Grouped(samples + done)
  }

  /** The body of read_values' index loop: the `direction_count` lines of
      value index idx div dc read into `values`. Returns the new `values`
      and the job's samples so far, or the exception, which is then the
      job's. */
  method ReadIndex(acc: seq<Series>, lines: seq<string>, idx: nat, dc: nat, measurement: string,
                   ghost samples: seq<Sample>, ghost rs: seq<Reading>, ghost before: seq<Sample>)
    returns (r: Result<seq<Series>>, ghost after: seq<Sample>)
    requires dc == 1 || dc == 2
    requires idx < |lines| && (dc == 2 ==> idx % 2 == 0)
    requires ReadsAs(lines, rs)
    requires Progress(acc, samples, measurement, rs, dc, idx, before)
    ensures r.Err? ==> JobSamples(measurement, rs, dc) == Err(r.error)
    ensures r.Ok? ==> Progress(r.value, samples, measurement, rs, dc, idx + dc, after)
  {
    var values := acc;
    after := before;
    var direction := 0;
    while direction < dc
      invariant 0 <= direction <= dc
      invariant Progress(values, samples, measurement, rs, dc, idx + direction, after)
    {
      var step;
      step, after := ReadDirection(values, lines, idx, direction, dc, measurement, samples, rs, after);
      if step.Err? {
        return Err(step.error), after;
      }
      values := step.value;
      direction := direction + 1;
    }
    return Ok(values), after;
  }

  /** One pass of read_values' direction loop: line idx + direction read
      and its value stored under its id and value index idx div dc.
      Returns the new `values` and the job's samples so far, or the
      exception, which is then the job's. */
  method ReadDirection(values: seq<Series>, lines: seq<string>, idx: nat, direction: nat, dc: nat, measurement: string,
                       ghost samples: seq<Sample>, ghost rs: seq<Reading>, ghost before: seq<Sample>)
    returns (r: Result<seq<Series>>, ghost after: seq<Sample>)
    requires dc == 1 || dc == 2
    requires direction < dc && idx < |lines| && (dc == 2 ==> idx % 2 == 0)
    requires ReadsAs(lines, rs)
    requires Progress(values, samples, measurement, rs, dc, idx + direction, before)
    ensures r.Err? ==> JobSamples(measurement, rs, dc) == Err(r.error)
    ensures r.Ok? ==> Progress(r.value, samples, measurement, rs, dc, idx + direction + 1, after)
  {
    after := before;
    var k := idx + direction;
    if k >= |lines| {
      assert direction == 1 && dc == 2;
      PastEnd(measurement, rs, dc, idx, before);
      return Err(IndexError), after;
    }
    var line := ReadLine(lines, k, rs);
    if line.Err? {
      LineStep(measurement, rs, dc, k, before);
      return Err(line.error), after;
    }
    var sample := Sample(MeasurementId(measurement, line.value.0), ValueIndex(idx, dc), line.value.1);
    SampleStep(measurement, rs, dc, idx, direction, samples, before);
    return Ok(AddSample(values, sample)), before + [sample];
  }

  lemma EvenStep(i: int)
    requires i % 2 == 0
    ensures (i + 2) % 2 == 0
  {
  }

  /** A read-write log that ends after the first line of a value index
      fails with IndexError. */
  lemma PastEnd(measurement: string, rs: seq<Reading>, dc: nat, idx: nat, before: seq<Sample>)
    requires dc == 2 && idx % 2 == 0 && idx + 1 == |rs|
    requires LinesSamples(measurement, rs[..idx + 1], dc) == Ok(before)
    ensures JobSamples(measurement, rs, dc) == Err(IndexError)
  {
    LogEnd(measurement, rs, dc, idx + 1, before);
  }

  /** Reading a good line of value index idx div dc adds its sample both to
      the job's samples and to `values`. */
  lemma SampleStep(measurement: string, rs: seq<Reading>, dc: nat, idx: nat, direction: nat,
                   samples: seq<Sample>, before: seq<Sample>)
    requires dc == 1 || dc == 2
    requires direction < dc && (dc == 2 ==> idx % 2 == 0)
    requires idx + direction < |rs| && rs[idx + direction].Ok?
    requires LinesSamples(measurement, rs[..idx + direction], dc) == Ok(before)
    ensures var line := rs[idx + direction].value;
      var s := Sample(MeasurementId(measurement, line.0), ValueIndex(idx, dc), line.1);
      && LinesSamples(measurement, rs[..idx + direction + 1], dc) == Ok(before + [s])
      && Grouped(samples + (before + [s])) == AddSample(Grouped(samples + before), s)
  {
    var k := idx + direction;
    var line := rs[k].value;
    var s := Sample(MeasurementId(measurement, line.0), ValueIndex(idx, dc), line.1);
    assert ValueIndex(k, dc) == ValueIndex(idx, dc);
    LineStep(measurement, rs, dc, k, before);
    assert samples + (before + [s]) == (samples + before) + [s];
    assert ((samples + before) + [s])[..|samples + before|] == samples + before;
  }

  /** Line k of a job's log as read_values reads it: split at ',', the
      direction from field 2, then the value from field 1. */
  method ReadLine(lines: seq<string>, k: nat, ghost rs: seq<Reading>) returns (r: Reading)
    requires k < |lines| && ReadsAs(lines, rs)
    ensures r == rs[k]
  {
    var line := lines[k];
    assert rs[k] == ParseLine(line);
    var data := Split(line, ',');
    if |data| < 3 {
      return Err(IndexError);
    }
    var code := ParseInt(Strip(data[2]));
    StripIdempotent(data[2]);
    if code.Err? {
      return Err(code.error);
    }
    var dataDir := DirectionOf(code.value);
    if dataDir.Err? {
      return Err(dataDir.error);
    }
    var value := ParseInt(Strip(data[1]));
    StripIdempotent(data[1]);
    if value.Err? {
      return Err(value.error);
    }
    return Ok((dataDir.value, value.value));
  }

  // ---------------------------------------------------------------------
  // The CPU-load reduction at the end of run_fio.

  const CPU_UTILIZATION_VMM := "cpu_utilization_vmm"
  const CPU_UTILIZATION_VCPUS_TOTAL := "cpu_utilization_vcpus_total"
  /** The tag of the VMM thread in the sampled load. */
  const VMM_TAG := "firecracker"

  /** What the CPU-load sampler hands back: for each thread tag, the sample
      lists of the threads carrying it (the values of the inner dict, in
      order). Samples are percentages, modelled as reals. */
  type CpuLoad = map<string, seq<seq<real>>>

  /** The tag of the thread running vCPU k. */
  function VcpuTag(k: nat): string {
    "fc_vcpu " + ShowInt(k)
  }

  /** What run_fio asserts of a tag: it was sampled, for exactly one
      thread, and that thread has one sample per second of the run. */
  predicate WellSampled(load: CpuLoad, tag: string, time: int) {
    tag in load && |load[tag]| == 1 && |load[tag][0]| == time
  }

  /** The samples of the one thread carrying `tag`, or AssertionError. */
  function SingleSeries(load: CpuLoad, tag: string, time: int): (r: Result<seq<real>>)
    ensures r.Ok? <==> WellSampled(load, tag, time)
    ensures r.Ok? ==> |r.value| == time
    ensures r.Err? ==> r.error == AssertionError
  {
    if tag in load && |load[tag]| == 1 && |load[tag][0]| == time then Ok(load[tag][0]) else Err(AssertionError)
  }

  /** `sum(data) / len(data)`. */
  function Mean(data: seq<real>): Result<real> {
    if |data| == 0 then Err(ZeroDivisionError) else Ok(RealSum(data) / |data| as real)
  }

  /** The mean load of the one thread carrying `tag`. */
  function SeriesMean(load: CpuLoad, tag: string, time: int): Result<real> {
    var data :- SingleSeries(load, tag, time);
    Mean(data)
  }

  /** `vcpus_util` after the first n passes of the vCPU loop. */
  function VcpusUtil(load: CpuLoad, time: int, n: nat): Result<real> {
    if n == 0 then Ok(0.0)
    else
      var before :- VcpusUtil(load, time, n - 1);
      var m :- SeriesMean(load, VcpuTag(n - 1), time);
      Ok(before + m)
  }

  /** The dict run_fio returns (DEBUG being off), or the exception it raises. */
  function CpuUtilization(load: CpuLoad, time: int, vcpus: nat): Result<map<string, real>> {
    var vmm :- SeriesMean(load, VMM_TAG, time);
    var total :- VcpusUtil(load, time, vcpus);
    Ok(map[CPU_UTILIZATION_VMM := vmm, CPU_UTILIZATION_VCPUS_TOTAL := total])
  }

  /** The tail of run_fio: the VMM thread's mean load and the sum of the
      vCPU threads' mean loads, each thread checked first. */
  method ReduceCpuLoad(load: CpuLoad, time: int, vcpus: nat) returns (r: Result<map<string, real>>)
    ensures r == CpuUtilization(load, time, vcpus)
  {
    var result: map<string, real> := map[];
    var tag := VMM_TAG;
    if !(tag in load && |load[tag]| == 1) {
      return Err(AssertionError);
    }
    var data := load[tag][0];
    if |data| != time {
      return Err(AssertionError);
    }
    if |data| == 0 {
      return Err(ZeroDivisionError);
    }
    result := result[CPU_UTILIZATION_VMM := RealSum(data) / |data| as real];
    var vcpusUtil := 0.0;
    var vcpu := 0;
    while vcpu < vcpus
      invariant 0 <= vcpu <= vcpus
      invariant VcpusUtil(load, time, vcpu) == Ok(vcpusUtil)
    {
      tag := VcpuTag(vcpu);
      if !(tag in load && |load[tag]| == 1) || |load[tag][0]| != time {
        VcpusUtilStuck(load, time, vcpu + 1, vcpus);
        return Err(AssertionError);
      }
      data := load[tag][0];
      vcpusUtil := vcpusUtil + RealSum(data) / |data| as real;
      vcpu := vcpu + 1;
    }
    result := result[CPU_UTILIZATION_VCPUS_TOTAL := vcpusUtil];
    return Ok(result);
  }

  /** Once a vCPU fails its check, every later count fails the same way. */
  lemma {:induction false} VcpusUtilStuck(load: CpuLoad, time: int, k: nat, n: nat)
    requires 0 < k <= n
    requires VcpusUtil(load, time, k).Err?
    ensures VcpusUtil(load, time, n) == VcpusUtil(load, time, k)
    decreases n
  {
    if n > k {
      VcpusUtilStuck(load, time, k, n - 1);
    }
  }

  /** The mean load of each vCPU thread, vCPU 0 first. */
  function VcpuMeans(load: CpuLoad, time: int, n: nat): (r: seq<real>)
    requires time > 0
    requires forall k: nat :: k < n ==> WellSampled(load, VcpuTag(k), time)
    ensures |r| == n
  {
    seq(n, k requires 0 <= k < n => var vcpu: nat := k; ThreadMean(load, VcpuTag(vcpu), time))
  }

  /** The mean load of the one thread carrying a well-sampled tag. */
  function ThreadMean(load: CpuLoad, tag: string, time: int): real
    requires time > 0 && WellSampled(load, tag, time)
  {
    RealSum(load[tag][0]) / time as real
  }

  /** Every sample of every thread lies between lo and hi. */
  ghost predicate SamplesWithin(load: CpuLoad, lo: real, hi: real) {
    forall tag, i, j :: tag in load && 0 <= i < |load[tag]| && 0 <= j < |load[tag][i]| ==> lo <= load[tag][i][j] <= hi
  }

  lemma ThreadMeanBounds(load: CpuLoad, tag: string, time: int, lo: real, hi: real)
    requires time > 0 && WellSampled(load, tag, time)
    requires SamplesWithin(load, lo, hi)
    ensures lo <= ThreadMean(load, tag, time) <= hi
  {
    var data := load[tag][0];
    assert forall j :: 0 <= j < |data| ==> lo <= data[j] <= hi;
    MeanBounds(data, lo, hi);
  }

  /** The vCPU loop gets through n vCPUs exactly when each of them passes
      run_fio's checks; it then holds the sum of their mean loads. */
  lemma {:induction false} VcpusUtilSpec(load: CpuLoad, time: int, n: nat)
    requires time > 0
    ensures VcpusUtil(load, time, n).Ok? <==> forall k: nat :: k < n ==> WellSampled(load, VcpuTag(k), time)
    ensures VcpusUtil(load, time, n).Err? ==> VcpusUtil(load, time, n).error == AssertionError
    ensures VcpusUtil(load, time, n).Ok? ==> VcpusUtil(load, time, n).value == RealSum(VcpuMeans(load, time, n))
  {
    if n > 0 {
      VcpusUtilSpec(load, time, n - 1);
      if VcpusUtil(load, time, n).Ok? {
        assert VcpuMeans(load, time, n)[..n - 1] == VcpuMeans(load, time, n - 1);
      }
    }
  }

  /** run_fio returns exactly when the run lasted at least a second and the
      VMM thread and every vCPU thread pass its checks. Otherwise it fails
      its assertion, or divides by zero if the run lasted no time at all. */
  lemma CpuUtilizationOk(load: CpuLoad, time: int, vcpus: nat)
    ensures CpuUtilization(load, time, vcpus).Ok? <==>
      && time > 0
      && WellSampled(load, VMM_TAG, time)
      && forall k: nat :: k < vcpus ==> WellSampled(load, VcpuTag(k), time)
    ensures CpuUtilization(load, time, vcpus).Err? ==>
      CpuUtilization(load, time, vcpus).error
        == if time == 0 && WellSampled(load, VMM_TAG, time) then ZeroDivisionError else AssertionError
  {
    if time > 0 {
      VcpusUtilSpec(load, time, vcpus);
    }
  }

  /** The returned dict has exactly the two utilisation keys: the VMM
      thread's mean load, and the sum of the vCPU threads' mean loads. */
  lemma CpuUtilizationValues(load: CpuLoad, time: int, vcpus: nat)
    requires CpuUtilization(load, time, vcpus).Ok?
    ensures time > 0 && forall k: nat :: k < vcpus ==> WellSampled(load, VcpuTag(k), time)
    ensures var result := CpuUtilization(load, time, vcpus).value;
      && result.Keys == {CPU_UTILIZATION_VMM, CPU_UTILIZATION_VCPUS_TOTAL}
      && result[CPU_UTILIZATION_VMM] == RealSum(load[VMM_TAG][0]) / time as real
      && result[CPU_UTILIZATION_VCPUS_TOTAL] == RealSum(VcpuMeans(load, time, vcpus))
  {
    CpuUtilizationOk(load, time, vcpus);
    VcpusUtilSpec(load, time, vcpus);
  }

  /** Every sample between lo and hi puts the mean between them too. */
  lemma MeanBounds(data: seq<real>, lo: real, hi: real)
    requires data != []
    requires forall i :: 0 <= i < |data| ==> lo <= data[i] <= hi
    ensures Mean(data).Ok? && lo <= Mean(data).value <= hi
  {
    var n := |data| as real;
    RealSumBounds(data, lo, hi);
    assert n * lo <= RealSum(data) <= n * hi;
    assert RealSum(data) / n >= (n * lo) / n;
    assert RealSum(data) / n <= (n * hi) / n;
  }

  /** With every sample between lo and hi, the VMM utilisation lies between
      lo and hi, and the vCPU total between vcpus times lo and vcpus times hi. */
  lemma CpuUtilizationBounds(load: CpuLoad, time: int, vcpus: nat, lo: real, hi: real)
    requires CpuUtilization(load, time, vcpus).Ok?
    requires SamplesWithin(load, lo, hi)
    ensures var result := CpuUtilization(load, time, vcpus).value;
      && lo <= result[CPU_UTILIZATION_VMM] <= hi
      && (vcpus as real) * lo <= result[CPU_UTILIZATION_VCPUS_TOTAL] <= (vcpus as real) * hi
  {
    CpuUtilizationValues(load, time, vcpus);
    ThreadMeanBounds(load, VMM_TAG, time, lo, hi);
    VcpuMeansBounds(load, time, vcpus, lo, hi);
  }

  lemma VcpuMeansBounds(load: CpuLoad, time: int, n: nat, lo: real, hi: real)
    requires time > 0
    requires forall k: nat :: k < n ==> WellSampled(load, VcpuTag(k), time)
    requires SamplesWithin(load, lo, hi)
    ensures (n as real) * lo <= RealSum(VcpuMeans(load, time, n)) <= (n as real) * hi
  {
    MeansWithin(load, time, n, lo, hi);
    RealSumBoundsN(VcpuMeans(load, time, n), n, lo, hi);
  }

  lemma MeansWithin(load: CpuLoad, time: int, n: nat, lo: real, hi: real)
    requires time > 0
    requires forall k: nat :: k < n ==> WellSampled(load, VcpuTag(k), time)
    requires SamplesWithin(load, lo, hi)
    ensures forall k :: 0 <= k < n ==> lo <= VcpuMeans(load, time, n)[k] <= hi
  {
    forall k | 0 <= k < n
      ensures lo <= VcpuMeans(load, time, n)[k] <= hi
    {
      ThreadMeanBounds(load, VcpuTag(k), time, lo, hi);
    }
  }

  /** Distinct vCPUs are looked up under distinct tags, none of them the
      VMM's: each vCPU's load is read from its own thread. */
  lemma VcpuTagsDistinct(j: nat, k: nat)
    ensures VcpuTag(j) != VMM_TAG
    ensures VcpuTag(j) == VcpuTag(k) ==> j == k
  {
    assert VcpuTag(j)[1] == 'c' != VMM_TAG[1];
    if VcpuTag(j) == VcpuTag(k) {
      var p := "fc_vcpu ";
      assert ShowInt(j) == VcpuTag(j)[|p|..];
      assert ShowInt(k) == VcpuTag(k)[|p|..];
      ParseShowInt(j);
      ParseShowInt(k);
    }
  }

  // ---------------------------------------------------------------------
  // consume_fio_output

  /** What consume_fio_output does to the consumer, the producer having
      returned `result`: both utilisation statistics, then read_values for
      "iops" and for "bw" (job j's logs being `iopsLogs[j]` and `bwLogs[j]`).
      A missing utilisation key raises KeyError before any call. */
  ghost function FioOutputRun(result: map<string, real>, numjobs: nat, iopsLogs: seq<seq<string>>, bwLogs: seq<seq<string>>, mode: string): Run {
    if CPU_UTILIZATION_VMM !in result || CPU_UTILIZATION_VCPUS_TOTAL !in result then Run([], Err(KeyError))
    else
      var stats := [Stat("value", CPU_UTILIZATION_VMM, result[CPU_UTILIZATION_VMM]),
                    Stat("value", CPU_UTILIZATION_VCPUS_TOTAL, result[CPU_UTILIZATION_VCPUS_TOTAL])];
      Then(Run(stats, Ok(())), ReadBothRun(numjobs, iopsLogs, bwLogs, mode))
  }

  /** read_values for "iops", then, if it returned, for "bw". */
  ghost function ReadBothRun(numjobs: nat, iopsLogs: seq<seq<string>>, bwLogs: seq<seq<string>>, mode: string): Run {
    Then(ReadValuesRun(numjobs, iopsLogs, mode, "iops"), ReadValuesRun(numjobs, bwLogs, mode, "bw"))
  }

  method ConsumeFioOutput(cons: Consumer, result: map<string, real>, numjobs: nat,
                          iopsLogs: seq<seq<string>>, bwLogs: seq<seq<string>>, mode: string)
    returns (r: Result<()>)
    requires |iopsLogs| == numjobs && |bwLogs| == numjobs
    modifies cons
    ensures r == FioOutputRun(result, numjobs, iopsLogs, bwLogs, mode).outcome
    ensures cons.log == old(cons.log) + FioOutputRun(result, numjobs, iopsLogs, bwLogs, mode).calls
  {
    if CPU_UTILIZATION_VMM !in result || CPU_UTILIZATION_VCPUS_TOTAL !in result {
      return Err(KeyError);
    }
    var vmm := result[CPU_UTILIZATION_VMM];
    var vcpus := result[CPU_UTILIZATION_VCPUS_TOTAL];
    ConsumeStats(cons, vmm, vcpus);
    r := ReadBoth(cons, numjobs, iopsLogs, bwLogs, mode);
  }

  /** The two consume_stat calls of consume_fio_output. */
  method ConsumeStats(cons: Consumer, vmm: real, vcpus: real)
    modifies cons
    ensures cons.log == old(cons.log) + [Stat("value", CPU_UTILIZATION_VMM, vmm), Stat("value", CPU_UTILIZATION_VCPUS_TOTAL, vcpus)]
  {
    cons.ConsumeStat("value", CPU_UTILIZATION_VMM, vmm);
    cons.ConsumeStat("value", CPU_UTILIZATION_VCPUS_TOTAL, vcpus);
  }

  /** The two read_values calls of consume_fio_output. */
  method ReadBoth(cons: Consumer, numjobs: nat, iopsLogs: seq<seq<string>>, bwLogs: seq<seq<string>>, mode: string)
    returns (r: Result<()>)
    requires |iopsLogs| == numjobs && |bwLogs| == numjobs
    modifies cons
    ensures r == ReadBothRun(numjobs, iopsLogs, bwLogs, mode).outcome
    ensures cons.log == old(cons.log) + ReadBothRun(numjobs, iopsLogs, bwLogs, mode).calls
  {
    r := ReadValues(cons, numjobs, iopsLogs, mode, "iops");
    if r.Err? {
      return;
    }
    r := ReadValues(cons, numjobs, bwLogs, mode, "bw");
    Associative(old(cons.log), ReadValuesRun(numjobs, iopsLogs, mode, "iops").calls, ReadValuesRun(numjobs, bwLogs, mode, "bw").calls);
  }

  /** A call read_values makes for `measurement`: consume_data under one of
      the measurement's direction ids. */
  predicate DataOf(measurement: string, c: Call) {
    c.Data? && exists d: Direction :: c.ms == MeasurementId(measurement, d)
  }

  lemma ReadValuesCallsOf(numjobs: nat, logs: seq<seq<string>>, mode: string, measurement: string)
    requires ReadValuesCalls(numjobs, logs, mode, measurement).Ok?
    ensures forall c :: c in ReadValuesCalls(numjobs, logs, mode, measurement).value ==> DataOf(measurement, c)
  {
    forall c | c in ReadValuesCalls(numjobs, logs, mode, measurement).value
      ensures DataOf(measurement, c)
    {
      ReadValuesCallsExact(numjobs, logs, mode, measurement, c.ms, c.sample);
    }
  }

  /** A run that returns records the VMM statistic, then the vCPU total,
      then the iops data of every direction, then the bw data: every call
      in this order, and no other. */
  lemma FioOutputOrder(result: map<string, real>, numjobs: nat, iopsLogs: seq<seq<string>>, bwLogs: seq<seq<string>>, mode: string)
    requires FioOutputRun(result, numjobs, iopsLogs, bwLogs, mode).outcome.Ok?
    ensures var calls := FioOutputRun(result, numjobs, iopsLogs, bwLogs, mode).calls;
      && CPU_UTILIZATION_VMM in result && CPU_UTILIZATION_VCPUS_TOTAL in result
      && ReadValuesCalls(numjobs, iopsLogs, mode, "iops").Ok?
      && ReadValuesCalls(numjobs, bwLogs, mode, "bw").Ok?
      && var iops := ReadValuesCalls(numjobs, iopsLogs, mode, "iops").value;
      && |calls| == 2 + |iops| + |ReadValuesCalls(numjobs, bwLogs, mode, "bw").value|
      && calls[0] == Stat("value", CPU_UTILIZATION_VMM, result[CPU_UTILIZATION_VMM])
      && calls[1] == Stat("value", CPU_UTILIZATION_VCPUS_TOTAL, result[CPU_UTILIZATION_VCPUS_TOTAL])
      && (forall i :: 2 <= i < 2 + |iops| ==> DataOf("iops", calls[i]))
      && (forall i :: 2 + |iops| <= i < |calls| ==> DataOf("bw", calls[i]))
  {
    var iops := ReadValuesCalls(numjobs, iopsLogs, mode, "iops").value;
    var bw := ReadValuesCalls(numjobs, bwLogs, mode, "bw").value;
    var calls := FioOutputRun(result, numjobs, iopsLogs, bwLogs, mode).calls;
    var stats := [Stat("value", CPU_UTILIZATION_VMM, result[CPU_UTILIZATION_VMM]),
                  Stat("value", CPU_UTILIZATION_VCPUS_TOTAL, result[CPU_UTILIZATION_VCPUS_TOTAL])];
    assert calls == stats + iops + bw;
    ReadValuesCallsOf(numjobs, iopsLogs, mode, "iops");
    ReadValuesCallsOf(numjobs, bwLogs, mode, "bw");
    forall i | 2 <= i < 2 + |iops|
      ensures DataOf("iops", calls[i])
    {
      assert calls[i] == iops[i - 2];
    }
    forall i | 2 + |iops| <= i < |calls|
      ensures DataOf("bw", calls[i])
    {
      assert calls[i] == bw[i - 2 - |iops|];
    }
  }

  /** The iops and bw data are told apart by their ids. */
  lemma DataOfDisjoint(c: Call)
    ensures DataOf("iops", c) ==> !DataOf("bw", c)
  {
    if DataOf("iops", c) {
      var d: Direction :| c.ms == MeasurementId("iops", d);
      assert c.ms[0] == 'i';
      forall e: Direction
        ensures c.ms != MeasurementId("bw", e)
      {
        assert MeasurementId("bw", e)[0] == 'b';
      }
    }
  }

  /** An exception stops the run where it happens: a missing key before
      any call, a failing iops read after the statistics, a failing bw
      read after the iops data. */
  lemma FioOutputFailure(result: map<string, real>, numjobs: nat, iopsLogs: seq<seq<string>>, bwLogs: seq<seq<string>>, mode: string)
    ensures var run := FioOutputRun(result, numjobs, iopsLogs, bwLogs, mode);
      && (run.outcome == Err(KeyError) && run.calls == [] <==> CPU_UTILIZATION_VMM !in result || CPU_UTILIZATION_VCPUS_TOTAL !in result)
      && (CPU_UTILIZATION_VMM in result && CPU_UTILIZATION_VCPUS_TOTAL in result ==> |run.calls| >= 2)
      && (run.outcome.Err? && |run.calls| >= 2 ==>
            || (ReadValuesCalls(numjobs, iopsLogs, mode, "iops") == Err(run.outcome.error) && |run.calls| == 2)
            || (&& ReadValuesCalls(numjobs, iopsLogs, mode, "iops").Ok?
                && ReadValuesCalls(numjobs, bwLogs, mode, "bw") == Err(run.outcome.error)
                && run.calls[2..] == ReadValuesCalls(numjobs, iopsLogs, mode, "iops").value))
  {
  }

  /** Fed what run_fio returned, consume_fio_output finds both keys and
      first records the VMM thread's mean load, then the sum of the vCPU
      threads' mean loads. */
  lemma ProducerToConsumer(load: CpuLoad, time: int, vcpus: nat, numjobs: nat,
                           iopsLogs: seq<seq<string>>, bwLogs: seq<seq<string>>, mode: string)
    requires CpuUtilization(load, time, vcpus).Ok?
    ensures var run := FioOutputRun(CpuUtilization(load, time, vcpus).value, numjobs, iopsLogs, bwLogs, mode);
      && time > 0 && WellSampled(load, VMM_TAG, time)
      && (forall k: nat :: k < vcpus ==> WellSampled(load, VcpuTag(k), time))
      && |run.calls| >= 2
      && run.calls[..2] == [Stat("value", CPU_UTILIZATION_VMM, ThreadMean(load, VMM_TAG, time)),
                            Stat("value", CPU_UTILIZATION_VCPUS_TOTAL, RealSum(VcpuMeans(load, time, vcpus)))]
  {
    CpuUtilizationOk(load, time, vcpus);
    CpuUtilizationValues(load, time, vcpus);
  }

  // ---------------------------------------------------------------------
  // The ids fio_workload builds for each pipe.

  /** `env_id`: the kernel's name, then the disk's. */
  function EnvId(kernel: string, disk: string): string {
    kernel + "/" + disk
  }

  /** `fio_id`: the mode, the block size and the vCPU count. */
  function FioId(mode: string, bs: int, vcpus: int): string {
    mode + "-bs" + ShowInt(bs) + "-" + ShowInt(vcpus) + "vcpu"
  }

  /** The tag of the pipe for one (mode, block size) pair. */
  function PipeTag(envId: string, fioId: string): string {
    envId + "/" + fioId
  }

  /** A pipe tag splits at "/" into kernel, disk and fio id, when the
      names and the mode contain no "/". */
  lemma PipeTagSplit(kernel: string, disk: string, mode: string, bs: int, vcpus: int)
    requires '/' !in kernel && '/' !in disk && '/' !in mode
    ensures Split(PipeTag(EnvId(kernel, disk), FioId(mode, bs, vcpus)), '/') == [kernel, disk, FioId(mode, bs, vcpus)]
  {
    var fio := FioId(mode, bs, vcpus);
    ShowIntChars(bs);
    ShowIntChars(vcpus);
    assert '/' !in fio by {
      forall i | 0 <= i < |fio|
        ensures fio[i] != '/'
      {
        var a := mode + "-bs";
        var b := a + ShowInt(bs) + "-";
        var c := b + ShowInt(vcpus);
        if i < |a| {
        } else if i < |a| + |ShowInt(bs)| {
          assert fio[i] == ShowInt(bs)[i - |a|];
        } else if i < |b| {
        } else if i < |c| {
          assert fio[i] == ShowInt(vcpus)[i - |b|];
        }
      }
    }
    var pieces := [kernel, disk, fio];
    assert Join(pieces, '/') == PipeTag(EnvId(kernel, disk), fio) by {
      assert pieces[1..] == [disk, fio];
      assert pieces[1..][1..] == [fio];
      assert Join([disk, fio], '/') == disk + "/" + fio;
      assert kernel + "/" + (disk + "/" + fio) == kernel + "/" + disk + "/" + fio;
    }
    SplitJoin(pieces, '/');
  }
}
