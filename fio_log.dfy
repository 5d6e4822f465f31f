/** What `read_values` computes from the per-job fio iops/bw logs: the log
    line format (`time, value, direction, bs`), the alignment of the jobs'
    samples by measurement id and value index, and the consumer calls made
    for the indices that every job reported. */
module FioLog {
  import opened Python
  import opened Strings
  import opened Statistics

  /** DataDirection: the direction field of a fio log line. */
  datatype Direction = Read | Write | Trim

  /** The enum value of a direction. */
  function Code(d: Direction): int {
    match d
    case Read => 0
    case Write => 1
    case Trim => 2
  }

  /** `DataDirection(code)`: the member with that value, ValueError for any other code. */
  function DirectionOf(code: int): (r: Result<Direction>)
    ensures r.Ok? <==> 0 <= code <= 2
    ensures r.Ok? ==> Code(r.value) == code
  {
    if code == 0 then Ok(Read)
    else if code == 1 then Ok(Write)
    else if code == 2 then Ok(Trim)
    else Err(ValueError)
  }

  /** `str(direction)`. */
  function Name(d: Direction): string {
    match d
    case Read => "read"
    case Write => "write"
    case Trim => "trim"
  }

  /** The codes 0, 1, 2 read as "read", "write", "trim", and no two directions share a name. */
  lemma DirectionNames(d: Direction, e: Direction)
    ensures DirectionOf(0) == Ok(Read) && Name(Read) == "read"
    ensures DirectionOf(1) == Ok(Write) && Name(Write) == "write"
    ensures DirectionOf(2) == Ok(Trim) && Name(Trim) == "trim"
    ensures Name(d) == Name(e) ==> d == e
  {
    if Name(d) == Name(e) {
      assert Name(d)[0] == Name(e)[0];
    }
  }

  /** Decoding a direction's code gives the direction back. */
  lemma DirectionRoundTrip(d: Direction)
    ensures DirectionOf(Code(d)) == Ok(d)
  {
  }

  /** One log line as read_values reads it: the fields are split at ',',
      field 2 is the direction code and field 1 the value. */
  function ParseLine(line: string): Result<(Direction, int)> {
    var fields := Split(line, ',');
    if |fields| < 3 then Err(IndexError)
    else
      var code :- ParseInt(fields[2]);
      var d :- DirectionOf(code);
      var value :- ParseInt(fields[1]);
      Ok((d, value))
  }

  /** A log line as fio writes it: time, value, direction and block size,
      separated by ", ". */
  function LogLine(time: int, value: int, d: Direction, bs: int): string {
    Join(LogFields(time, value, d, bs), ',')
  }

  function LogFields(time: int, value: int, d: Direction, bs: int): seq<string> {
    [ShowInt(time), " " + ShowInt(value), " " + ShowInt(Code(d)), " " + ShowInt(bs) + "\n"]
  }

  /** `int()` reads an int written after a blank. */
  lemma ParseIntSpaced(n: int)
    ensures ParseInt(" " + ShowInt(n)) == Ok(n)
  {
    ParseShowInt(n);
    ParseIntLeadingSpace(ShowInt(n));
  }

  lemma NoCommaInInt(n: int)
    ensures ',' !in ShowInt(n)
  {
    ShowIntChars(n);
  }

  /** A line that fio wrote splits at ',' into its four fields. */
  lemma LogLineFields(time: int, value: int, d: Direction, bs: int)
    ensures Split(LogLine(time, value, d, bs), ',') == LogFields(time, value, d, bs)
  {
    NoCommaInInt(time);
    NoCommaInInt(value);
    NoCommaInInt(Code(d));
    NoCommaInInt(bs);
    SplitJoin(LogFields(time, value, d, bs), ',');
  }

  /** Reading a line that fio wrote gives back its direction and value. */
  lemma ParseLogLine(time: int, value: int, d: Direction, bs: int)
    ensures ParseLine(LogLine(time, value, d, bs)) == Ok((d, value))
  {
    LogLineFields(time, value, d, bs);
    ParseIntSpaced(Code(d));
    ParseIntSpaced(value);
  }

  /** `direction_count`: read-write modes log two lines per value index. */
  function DirectionCount(mode: string): (r: nat)
    ensures r == 1 || r == 2
  {
    if EndsWith(mode, "readwrite") || EndsWith(mode, "rw") then 2 else 1
  }

  /** The key under which a direction's samples of one measurement are kept. */
  function MeasurementId(measurement: string, d: Direction): string {
    measurement + "_" + Name(d)
  }

  /** `idx // direction_count` for the line at position k. */
  function ValueIndex(k: nat, dc: nat): (r: nat)
    requires dc == 1 || dc == 2
    ensures dc == 1 ==> r == k
    ensures dc == 2 ==> r == k / 2
  {
    if dc == 1 then k else k / 2
  }

  /** One value read from a job's log: its measurement id, its value index
      and the value. */
  datatype Sample = Sample(id: string, idx: nat, value: int)

  /** What one log line reads as: its direction and value, or the exception. */
  type Reading = Result<(Direction, int)>

  /** `rs` is what the lines read as, line by line. The reading of a line
      is only brought in where the parse of that line is mentioned. */
  ghost predicate ReadsAs(lines: seq<string>, rs: seq<Reading>) {
    && |rs| == |lines|
    && forall k {:trigger ParseLine(lines[k])} :: 0 <= k < |lines| ==> rs[k] == ParseLine(lines[k])
  }

  /** Every line of a job's log, read. */
  ghost function ReadLog(lines: seq<string>): (r: seq<Reading>)
    ensures ReadsAs(lines, r)
  {
    ReadLogExists(lines);
    var r :| ReadsAs(lines, r); r
  }

  lemma ReadLogExists(lines: seq<string>)
    ensures exists r :: ReadsAs(lines, r)
  {
    var r := seq(|lines|, i requires 0 <= i < |lines| => ParseLine(lines[i]));
    assert ReadsAs(lines, r);
  }

  /** Every job's log, read. */
  ghost function ReadLogs(logs: seq<seq<string>>): (r: seq<seq<Reading>>)
    ensures |r| == |logs|
  {
    seq(|logs|, j requires 0 <= j < |logs| => ReadLog(logs[j]))
  }

  /** The samples the first |rs| lines of a job's log give, in line order,
      or the exception of the first line that cannot be read. */
  function LinesSamples(measurement: string, rs: seq<Reading>, dc: nat): (r: Result<seq<Sample>>)
    requires dc == 1 || dc == 2
    ensures r.Ok? ==> |r.value| == |rs|
  {
    if rs == [] then Ok([])
    else
      var before :- LinesSamples(measurement, rs[..|rs| - 1], dc);
      var parsed :- rs[|rs| - 1];
      Ok(before + [Sample(MeasurementId(measurement, parsed.0), ValueIndex(|rs| - 1, dc), parsed.1)])
  }

  /** `n` lines are not a whole number of value indices: a read-write log
      (two lines per index) with an odd number of lines. */
  predicate Unaligned(n: nat, dc: nat)
    requires dc == 1 || dc == 2
  {
    dc == 2 && n % 2 == 1
  }

  /** The samples of one job's log. After its last line, a log whose length
      is not a multiple of the direction count reads past its end. */
  function JobSamples(measurement: string, rs: seq<Reading>, dc: nat): Result<seq<Sample>>
    requires dc == 1 || dc == 2
  {
    var s :- LinesSamples(measurement, rs, dc);
    if Unaligned(|rs|, dc) then Err(IndexError) else Ok(s)
  }

  /** The samples of all jobs' logs, job after job. */
  function AllSamples(measurement: string, logs: seq<seq<Reading>>, dc: nat): Result<seq<Sample>>
    requires dc == 1 || dc == 2
  {
    if logs == [] then Ok([])
    else
      var before :- AllSamples(measurement, logs[..|logs| - 1], dc);
      var last :- JobSamples(measurement, logs[|logs| - 1], dc);
      Ok(before + last)
  }

  /** A job log that reads without error puts line k at value index k div dc,
      under the id of the line's direction, and has a length that is a
      multiple of dc. */
  lemma {:induction false} JobSamplesAlign(measurement: string, rs: seq<Reading>, dc: nat, k: nat)
    requires dc == 1 || dc == 2
    requires JobSamples(measurement, rs, dc).Ok?
    requires k < |rs|
    ensures !Unaligned(|rs|, dc)
    ensures |JobSamples(measurement, rs, dc).value| == |rs|
    ensures rs[k].Ok?
    ensures JobSamples(measurement, rs, dc).value[k]
         == Sample(MeasurementId(measurement, rs[k].value.0), ValueIndex(k, dc), rs[k].value.1)
  {
    LinesSamplesAlign(measurement, rs, dc, k);
  }

  /** A log whose length is not a multiple of the direction count fails
      with IndexError once all its lines have been read. */
  lemma JobSamplesShort(measurement: string, rs: seq<Reading>, dc: nat)
    requires dc == 1 || dc == 2
    requires LinesSamples(measurement, rs, dc).Ok?
    requires Unaligned(|rs|, dc)
    ensures JobSamples(measurement, rs, dc) == Err(IndexError)
  {
  }

  lemma {:induction false} LinesSamplesAlign(measurement: string, rs: seq<Reading>, dc: nat, k: nat)
    requires dc == 1 || dc == 2
    requires LinesSamples(measurement, rs, dc).Ok?
    requires k < |rs|
    ensures |LinesSamples(measurement, rs, dc).value| == |rs|
    ensures rs[k].Ok?
    ensures LinesSamples(measurement, rs, dc).value[k]
         == Sample(MeasurementId(measurement, rs[k].value.0), ValueIndex(k, dc), rs[k].value.1)
  {
    var n := |rs| - 1;
    var front := rs[..n];
    if k < n {
      LinesSamplesAlign(measurement, front, dc, k);
      assert front[k] == rs[k];
    } else if n > 0 {
      LinesSamplesAlign(measurement, front, dc, 0);
    }
  }

  /** Every sample that the logs give carries the id of some direction of the measurement. */
  lemma {:induction false} AllSamplesIds(measurement: string, logs: seq<seq<Reading>>, dc: nat, i: nat)
    requires dc == 1 || dc == 2
    requires AllSamples(measurement, logs, dc).Ok?
    requires i < |AllSamples(measurement, logs, dc).value|
    ensures exists d :: AllSamples(measurement, logs, dc).value[i].id == MeasurementId(measurement, d)
  {
    var before := AllSamples(measurement, logs[..|logs| - 1], dc).value;
    var rs := logs[|logs| - 1];
    if i < |before| {
      AllSamplesIds(measurement, logs[..|logs| - 1], dc, i);
    } else {
      JobSamplesAlign(measurement, rs, dc, i - |before|);
    }
  }

  /** Once a line of a job's log fails, reading the rest of the log fails the same way. */
  lemma {:induction false} LinesSamplesErr(measurement: string, rs: seq<Reading>, dc: nat, k: nat)
    requires dc == 1 || dc == 2
    requires k <= |rs|
    requires LinesSamples(measurement, rs[..k], dc).Err?
    ensures LinesSamples(measurement, rs, dc) == LinesSamples(measurement, rs[..k], dc)
    decreases |rs| - k
  {
    if k < |rs| {
      assert rs[..k + 1][..k] == rs[..k];
      LinesSamplesErr(measurement, rs, dc, k + 1);
    } else {
      assert rs[..k] == rs;
    }
  }

  /** Reading line k after the lines before it: it either adds its sample,
      or its exception becomes the log's. */
  lemma LineStep(measurement: string, rs: seq<Reading>, dc: nat, k: nat, before: seq<Sample>)
    requires dc == 1 || dc == 2
    requires k < |rs|
    requires LinesSamples(measurement, rs[..k], dc) == Ok(before)
    ensures rs[k].Err? ==> LinesSamples(measurement, rs, dc) == Err(rs[k].error)
    ensures rs[k].Err? ==> JobSamples(measurement, rs, dc) == Err(rs[k].error)
    ensures rs[k].Ok? ==>
      LinesSamples(measurement, rs[..k + 1], dc)
      == Ok(before + [Sample(MeasurementId(measurement, rs[k].value.0), ValueIndex(k, dc), rs[k].value.1)])
  {
    assert rs[..k + 1][..k] == rs[..k];
    if rs[k].Err? {
      LinesSamplesErr(measurement, rs, dc, k + 1);
    }
  }

  /** A log whose lines all read but whose length is not a multiple of the
      direction count fails once its end is passed. */
  lemma LogEnd(measurement: string, rs: seq<Reading>, dc: nat, k: nat, before: seq<Sample>)
    requires dc == 1 || dc == 2
    requires k == |rs|
    requires LinesSamples(measurement, rs[..k], dc) == Ok(before)
    ensures !Unaligned(|rs|, dc) ==> JobSamples(measurement, rs, dc) == Ok(before)
    ensures Unaligned(|rs|, dc) ==> JobSamples(measurement, rs, dc) == Err(IndexError)
  {
    assert rs[..k] == rs;
  }

  /** Once a job's log fails, reading the remaining jobs' logs fails the same way. */
  lemma {:induction false} AllSamplesErr(measurement: string, logs: seq<seq<Reading>>, dc: nat, j: nat)
    requires dc == 1 || dc == 2
    requires j <= |logs|
    requires AllSamples(measurement, logs[..j], dc).Err?
    ensures AllSamples(measurement, logs, dc) == AllSamples(measurement, logs[..j], dc)
    decreases |logs| - j
  {
    if j < |logs| {
      assert logs[..j + 1][..j] == logs[..j];
      AllSamplesErr(measurement, logs, dc, j + 1);
    } else {
      assert logs[..j] == logs;
    }
  }

  // ---------------------------------------------------------------------
  // The `values` dict of dicts of lists that read_values fills.

  /** The list of values kept for one value index. */
  datatype Bucket = Bucket(idx: nat, values: seq<int>)

  /** The dict of buckets kept for one measurement id, in insertion order. */
  datatype Series = Series(id: string, buckets: seq<Bucket>)

  function BucketIdxs(bs: seq<Bucket>): (r: seq<nat>)
    ensures |r| == |bs|
  {
    seq(|bs|, i requires 0 <= i < |bs| => bs[i].idx)
  }

  function SeriesIds(vs: seq<Series>): (r: seq<string>)
    ensures |r| == |vs|
  {
    seq(|vs|, i requires 0 <= i < |vs| => vs[i].id)
  }

  /** `values[id][idx].append(v)`, creating the list for a new index at the end. */
  function AddToBuckets(bs: seq<Bucket>, idx: nat, v: int): seq<Bucket> {
    if bs == [] then [Bucket(idx, [v])]
    else if bs[0].idx == idx then [Bucket(idx, bs[0].values + [v])] + bs[1..]
    else [bs[0]] + AddToBuckets(bs[1..], idx, v)
  }

  /** One sample stored into `values`, creating the dict for a new id at the end. */
  function AddSample(vs: seq<Series>, s: Sample): seq<Series> {
    if vs == [] then [Series(s.id, [Bucket(s.idx, [s.value])])]
    else if vs[0].id == s.id then [Series(s.id, AddToBuckets(vs[0].buckets, s.idx, s.value))] + vs[1..]
    else [vs[0]] + AddSample(vs[1..], s)
  }

  /** `values` after storing the samples one by one. */
  function Grouped(samples: seq<Sample>): seq<Series> {
    if samples == [] then []
    else AddSample(Grouped(samples[..|samples| - 1]), samples[|samples| - 1])
  }

  function Ids(samples: seq<Sample>): (r: seq<string>)
    ensures |r| == |samples|
  {
    seq(|samples|, i requires 0 <= i < |samples| => samples[i].id)
  }

  /** The value indices of the samples of one id, in sample order. */
  function IdxsOf(samples: seq<Sample>, id: string): seq<nat> {
    if samples == [] then []
    else
      var last := samples[|samples| - 1];
      IdxsOf(samples[..|samples| - 1], id) + (if last.id == id then [last.idx] else [])
  }

  /** The values of the samples at one (id, index), in sample order. */
  function ValuesAt(samples: seq<Sample>, id: string, idx: nat): seq<int> {
    if samples == [] then []
    else
      var last := samples[|samples| - 1];
      ValuesAt(samples[..|samples| - 1], id, idx) + (if last.id == id && last.idx == idx then [last.value] else [])
  }

  /** `bs` is the bucket dict of `id` after storing `samples`: one bucket per
      index of that id in first-seen order, each holding that index's values
      in sample order. */
  ghost predicate BucketsOf(bs: seq<Bucket>, samples: seq<Sample>, id: string) {
    && BucketIdxs(bs) == Distinct(IdxsOf(samples, id))
    && forall q :: 0 <= q < |bs| ==> bs[q].values == ValuesAt(samples, id, bs[q].idx)
  }

  /** `vs` is the `values` dict after storing `samples`: one series per id
      in first-seen order, each holding the buckets of that id. */
  ghost predicate Describes(vs: seq<Series>, samples: seq<Sample>) {
    && SeriesIds(vs) == Distinct(Ids(samples))
    && forall p :: 0 <= p < |vs| ==> BucketsOf(vs[p].buckets, samples, vs[p].id)
  }

  lemma SnocFilters(samples: seq<Sample>, s: Sample, id: string, idx: nat)
    ensures Ids(samples + [s]) == Ids(samples) + [s.id]
    ensures IdxsOf(samples + [s], id) == IdxsOf(samples, id) + (if s.id == id then [s.idx] else [])
    ensures ValuesAt(samples + [s], id, idx) == ValuesAt(samples, id, idx) + (if s.id == id && s.idx == idx then [s.value] else [])
  {
    assert (samples + [s])[..|samples|] == samples;
  }

  /** No sample of an unseen id: nothing is stored under it. */
  lemma {:induction false} UnseenId(samples: seq<Sample>, id: string, idx: nat)
    requires id !in Ids(samples)
    ensures IdxsOf(samples, id) == []
    ensures ValuesAt(samples, id, idx) == []
  {
    if samples != [] {
      var front := samples[..|samples| - 1];
      assert Ids(samples) == Ids(front) + [samples[|samples| - 1].id];
      UnseenId(front, id, idx);
    }
  }

  /** No sample at an unseen index: nothing is stored under it. */
  lemma {:induction false} UnseenIdx(samples: seq<Sample>, id: string, idx: nat)
    requires idx !in IdxsOf(samples, id)
    ensures ValuesAt(samples, id, idx) == []
  {
    if samples != [] {
      UnseenIdx(samples[..|samples| - 1], id, idx);
    }
  }

  lemma BucketIdxsCons(b: Bucket, rest: seq<Bucket>)
    ensures BucketIdxs([b] + rest) == [b.idx] + BucketIdxs(rest)
  {
    assert forall i :: 0 < i <= |rest| ==> ([b] + rest)[i] == rest[i - 1];
  }

  lemma {:induction false} AddToBucketsIdxs(bs: seq<Bucket>, idx: nat, v: int)
    ensures BucketIdxs(AddToBuckets(bs, idx, v)) == if idx in BucketIdxs(bs) then BucketIdxs(bs) else BucketIdxs(bs) + [idx]
  {
    if bs != [] {
      var first, rest := bs[0], bs[1..];
      assert bs == [first] + rest;
      AddToBucketsIdxs(rest, idx, v);
      BucketIdxsCons(first, rest);
      if first.idx == idx {
        BucketIdxsCons(Bucket(idx, first.values + [v]), rest);
      } else {
        BucketIdxsCons(first, AddToBuckets(rest, idx, v));
        Associative([first.idx], BucketIdxs(rest), [idx]);
      }
    }
  }

  lemma {:induction false} AddToBucketsAt(bs: seq<Bucket>, idx: nat, v: int, q: nat)
    requires forall i, j :: 0 <= i < j < |bs| ==> bs[i].idx != bs[j].idx
    requires q < |AddToBuckets(bs, idx, v)|
    ensures q < |bs| ==> AddToBuckets(bs, idx, v)[q] == if bs[q].idx == idx then Bucket(idx, bs[q].values + [v]) else bs[q]
    ensures q == |bs| ==> AddToBuckets(bs, idx, v)[q] == Bucket(idx, [v])
  {
    if bs != [] && q > 0 && bs[0].idx != idx {
      AddToBucketsAt(bs[1..], idx, v, q - 1);
    }
    if q == |bs| || bs == [] {
      AddToBucketsIdxs(bs, idx, v);
    }
  }

  lemma SeriesIdsCons(v: Series, rest: seq<Series>)
    ensures SeriesIds([v] + rest) == [v.id] + SeriesIds(rest)
  {
    assert forall i :: 0 < i <= |rest| ==> ([v] + rest)[i] == rest[i - 1];
  }

  lemma {:induction false} AddSampleIds(vs: seq<Series>, s: Sample)
    ensures SeriesIds(AddSample(vs, s)) == if s.id in SeriesIds(vs) then SeriesIds(vs) else SeriesIds(vs) + [s.id]
  {
    if vs != [] {
      var first, rest := vs[0], vs[1..];
      assert vs == [first] + rest;
      AddSampleIds(rest, s);
      SeriesIdsCons(first, rest);
      if first.id == s.id {
        SeriesIdsCons(Series(s.id, AddToBuckets(first.buckets, s.idx, s.value)), rest);
      } else {
        SeriesIdsCons(first, AddSample(rest, s));
        Associative([first.id], SeriesIds(rest), [s.id]);
      }
    }
  }

  lemma {:induction false} AddSampleAt(vs: seq<Series>, s: Sample, p: nat)
    requires forall i, j :: 0 <= i < j < |vs| ==> vs[i].id != vs[j].id
    requires p < |AddSample(vs, s)|
    ensures p < |vs| ==> AddSample(vs, s)[p] == if vs[p].id == s.id then Series(s.id, AddToBuckets(vs[p].buckets, s.idx, s.value)) else vs[p]
    ensures p == |vs| ==> AddSample(vs, s)[p] == Series(s.id, [Bucket(s.idx, [s.value])])
  {
    if vs != [] && p > 0 && vs[0].id != s.id {
      AddSampleAt(vs[1..], s, p - 1);
    }
    if p >= |vs| && vs != [] {
      AddSampleIds(vs, s);
      assert s.id !in SeriesIds(vs);
      assert vs[0].id != s.id;
      AddSampleAt(vs[1..], s, p - 1);
    }
  }

  lemma DistinctIdxs(bs: seq<Bucket>)
    requires forall i, j :: 0 <= i < j < |bs| ==> BucketIdxs(bs)[i] != BucketIdxs(bs)[j]
    ensures forall i, j :: 0 <= i < j < |bs| ==> bs[i].idx != bs[j].idx
  {
    forall i, j | 0 <= i < j < |bs| ensures bs[i].idx != bs[j].idx {
      assert BucketIdxs(bs)[i] == bs[i].idx && BucketIdxs(bs)[j] == bs[j].idx;
    }
  }

  lemma DistinctIds(vs: seq<Series>)
    requires forall i, j :: 0 <= i < j < |vs| ==> SeriesIds(vs)[i] != SeriesIds(vs)[j]
    ensures forall i, j :: 0 <= i < j < |vs| ==> vs[i].id != vs[j].id
  {
    forall i, j | 0 <= i < j < |vs| ensures vs[i].id != vs[j].id {
      assert SeriesIds(vs)[i] == vs[i].id && SeriesIds(vs)[j] == vs[j].id;
    }
  }

  /** Storing one more sample of `id` keeps the bucket dict of `id` exact. */
  lemma AddToBucketsKeeps(bs: seq<Bucket>, samples: seq<Sample>, s: Sample)
    requires BucketsOf(bs, samples, s.id)
    ensures BucketsOf(AddToBuckets(bs, s.idx, s.value), samples + [s], s.id)
  {
    DistinctIdxs(bs);
    AddToBucketsIdxs(bs, s.idx, s.value);
    SnocFilters(samples, s, s.id, s.idx);
    DistinctSnoc(IdxsOf(samples, s.id), s.idx);
    var r := AddToBuckets(bs, s.idx, s.value);
    forall q | 0 <= q < |r|
      ensures r[q].values == ValuesAt(samples + [s], s.id, r[q].idx)
    {
      BucketAfterAdd(bs, samples, s, q);
    }
  }

  /** Bucket q after storing one more sample of `id` holds the values of
      its index, that sample included. */
  lemma BucketAfterAdd(bs: seq<Bucket>, samples: seq<Sample>, s: Sample, q: nat)
    requires BucketsOf(bs, samples, s.id)
    requires forall i, j :: 0 <= i < j < |bs| ==> bs[i].idx != bs[j].idx
    requires q < |AddToBuckets(bs, s.idx, s.value)|
    ensures AddToBuckets(bs, s.idx, s.value)[q].values == ValuesAt(samples + [s], s.id, AddToBuckets(bs, s.idx, s.value)[q].idx)
  {
    var r := AddToBuckets(bs, s.idx, s.value);
    AddToBucketsAt(bs, s.idx, s.value, q);
    SnocFilters(samples, s, s.id, r[q].idx);
    if q < |bs| {
      assert bs[q].values == ValuesAt(samples, s.id, bs[q].idx);
    } else {
      AddToBucketsIdxs(bs, s.idx, s.value);
      assert s.idx !in IdxsOf(samples, s.id);
      UnseenIdx(samples, s.id, s.idx);
    }
  }

  /** Storing one more sample keeps `values` exact. */
  lemma AddSampleKeeps(vs: seq<Series>, samples: seq<Sample>, s: Sample)
    requires Describes(vs, samples)
    ensures Describes(AddSample(vs, s), samples + [s])
  {
    DistinctIds(vs);
    AddSampleIds(vs, s);
    SnocFilters(samples, s, s.id, s.idx);
    DistinctSnoc(Ids(samples), s.id);
    var r := AddSample(vs, s);
    forall p | 0 <= p < |r|
      ensures BucketsOf(r[p].buckets, samples + [s], r[p].id)
    {
      SeriesAfterAdd(vs, samples, s, p);
    }
  }

  /** Series p after storing one more sample holds the buckets of its id. */
  lemma SeriesAfterAdd(vs: seq<Series>, samples: seq<Sample>, s: Sample, p: nat)
    requires Describes(vs, samples)
    requires forall i, j :: 0 <= i < j < |vs| ==> vs[i].id != vs[j].id
    requires p < |AddSample(vs, s)|
    ensures BucketsOf(AddSample(vs, s)[p].buckets, samples + [s], AddSample(vs, s)[p].id)
  {
    AddSampleAt(vs, s, p);
    AddSampleIds(vs, s);
    if p == |vs| {
      assert s.id !in Ids(samples);
      NewSeriesExact(samples, s);
    } else {
      assert BucketsOf(vs[p].buckets, samples, vs[p].id);
      if vs[p].id == s.id {
        AddToBucketsKeeps(vs[p].buckets, samples, s);
      } else {
        OtherSeriesKept(vs[p].buckets, samples, s, vs[p].id);
      }
    }
  }

  lemma NewSeriesExact(samples: seq<Sample>, s: Sample)
    requires s.id !in Ids(samples)
    ensures BucketsOf([Bucket(s.idx, [s.value])], samples + [s], s.id)
  {
    UnseenId(samples, s.id, s.idx);
    SnocFilters(samples, s, s.id, s.idx);
    assert IdxsOf(samples + [s], s.id) == [s.idx];
    DistinctSnoc([], s.idx);
    assert [] + [s.idx] == [s.idx];
    assert BucketIdxs([Bucket(s.idx, [s.value])]) == [s.idx];
  }

  lemma OtherSeriesKept(bs: seq<Bucket>, samples: seq<Sample>, s: Sample, id: string)
    requires id != s.id
    requires BucketsOf(bs, samples, id)
    ensures BucketsOf(bs, samples + [s], id)
  {
    SnocFilters(samples, s, id, 0);
    assert IdxsOf(samples + [s], id) == IdxsOf(samples, id);
    forall q | 0 <= q < |bs| ensures bs[q].values == ValuesAt(samples + [s], id, bs[q].idx) {
      SnocFilters(samples, s, id, bs[q].idx);
    }
  }

  /** `values` after reading the samples: one series per measurement id in
      first-seen order, one bucket per value index in first-seen order, each
      bucket holding that index's values in reading order. */
  lemma {:induction false} GroupedDescribes(samples: seq<Sample>)
    ensures Describes(Grouped(samples), samples)
  {
    if samples != [] {
      var front := samples[..|samples| - 1];
      GroupedDescribes(front);
      AddSampleKeeps(Grouped(front), front, samples[|samples| - 1]);
      FrontLast(samples);
    }
  }

  // ---------------------------------------------------------------------
  // The consumer calls.

  /** One data point that read_values passes on: a bucket that every job
      filled, and the sum of its values. */
  datatype Point = Point(id: string, idx: nat, total: int)

  /** The buckets of one series holding exactly `numjobs` values, in order. */
  function BucketPoints(id: string, bs: seq<Bucket>, numjobs: nat): seq<Point> {
    if bs == [] then []
    else
      var b := bs[|bs| - 1];
      BucketPoints(id, bs[..|bs| - 1], numjobs) + (if |b.values| == numjobs then [Point(id, b.idx, Sum(b.values))] else [])
  }

  /** The buckets of all series holding exactly `numjobs` values, series by series. */
  function FullBuckets(vs: seq<Series>, numjobs: nat): seq<Point> {
    if vs == [] then []
    else FullBuckets(vs[..|vs| - 1], numjobs) + BucketPoints(vs[|vs| - 1].id, vs[|vs| - 1].buckets, numjobs)
  }

  /** `consume_data(id, total)` for each point, in order. */
  function DataCalls(points: seq<Point>): (r: seq<Call>)
    ensures |r| == |points|
  {
    seq(|points|, i requires 0 <= i < |points| => Data(points[i].id, points[i].total))
  }

  lemma DataCallsAppend(a: seq<Point>, b: seq<Point>)
    ensures DataCalls(a + b) == DataCalls(a) + DataCalls(b)
  {
  }

  lemma {:induction false} BucketPointsMember(id: string, bs: seq<Bucket>, numjobs: nat, pt: Point)
    ensures pt in BucketPoints(id, bs, numjobs)
        <==> pt.id == id && exists q :: 0 <= q < |bs| && bs[q].idx == pt.idx && |bs[q].values| == numjobs && pt.total == Sum(bs[q].values)
  {
    if bs != [] {
      var n := |bs| - 1;
      var front, b := bs[..n], bs[n];
      BucketPointsMember(id, front, numjobs, pt);
      var tail := if |b.values| == numjobs then [Point(id, b.idx, Sum(b.values))] else [];
      assert pt in BucketPoints(id, bs, numjobs) <==> pt in BucketPoints(id, front, numjobs) || pt in tail;
      if pt in BucketPoints(id, front, numjobs) {
        var q :| 0 <= q < |front| && front[q].idx == pt.idx && |front[q].values| == numjobs && pt.total == Sum(front[q].values);
        assert bs[q] == front[q];
      }
      if pt in tail {
        assert bs[n].idx == pt.idx && |bs[n].values| == numjobs && pt.total == Sum(bs[n].values);
      }
      if exists q :: 0 <= q < |bs| && bs[q].idx == pt.idx && |bs[q].values| == numjobs && pt.total == Sum(bs[q].values) {
        var q :| 0 <= q < |bs| && bs[q].idx == pt.idx && |bs[q].values| == numjobs && pt.total == Sum(bs[q].values);
        if q < n {
          assert front[q] == bs[q];
        }
      }
    }
  }

  /** Some series of `vs` yields `pt`. */
  ghost predicate InSomeSeries(vs: seq<Series>, numjobs: nat, pt: Point) {
    exists p :: 0 <= p < |vs| && vs[p].id == pt.id && pt in BucketPoints(vs[p].id, vs[p].buckets, numjobs)
  }

  lemma {:induction false} FullBucketsMember(vs: seq<Series>, numjobs: nat, pt: Point)
    ensures pt in FullBuckets(vs, numjobs) <==> InSomeSeries(vs, numjobs, pt)
  {
    if vs != [] {
      var front := vs[..|vs| - 1];
      var last := vs[|vs| - 1];
      FullBucketsMember(front, numjobs, pt);
      assert FullBuckets(vs, numjobs) == FullBuckets(front, numjobs) + BucketPoints(last.id, last.buckets, numjobs);
      if InSomeSeries(front, numjobs, pt) {
        var p :| 0 <= p < |front| && front[p].id == pt.id && pt in BucketPoints(front[p].id, front[p].buckets, numjobs);
        assert vs[p] == front[p];
      }
      if pt in BucketPoints(last.id, last.buckets, numjobs) {
        BucketPointsMember(last.id, last.buckets, numjobs, pt);
        assert vs[|vs| - 1] == last;
      }
      if InSomeSeries(vs, numjobs, pt) {
        var p :| 0 <= p < |vs| && vs[p].id == pt.id && pt in BucketPoints(vs[p].id, vs[p].buckets, numjobs);
        if p < |front| {
          assert front[p] == vs[p];
        }
      }
    }
  }

  lemma {:induction false} SeenSample(samples: seq<Sample>, id: string, idx: nat)
    requires ValuesAt(samples, id, idx) != []
    ensures id in Ids(samples)
    ensures idx in IdxsOf(samples, id)
  {
    var front := samples[..|samples| - 1];
    var last := samples[|samples| - 1];
    assert Ids(samples) == Ids(front) + [last.id];
    if ValuesAt(front, id, idx) != [] {
      SeenSample(front, id, idx);
    }
  }

  /** read_values passes on (id, idx, total) exactly when exactly `numjobs`
      values were read for that id and value index, and total is their sum. */
  lemma FullBucketsExact(samples: seq<Sample>, numjobs: nat, pt: Point)
    ensures pt in FullBuckets(Grouped(samples), numjobs)
        <==> numjobs > 0 && |ValuesAt(samples, pt.id, pt.idx)| == numjobs && pt.total == Sum(ValuesAt(samples, pt.id, pt.idx))
  {
    var vs := Grouped(samples);
    GroupedDescribes(samples);
    FullBucketsMember(vs, numjobs, pt);
    if pt in FullBuckets(vs, numjobs) {
      var p :| 0 <= p < |vs| && vs[p].id == pt.id && pt in BucketPoints(vs[p].id, vs[p].buckets, numjobs);
      BucketPointsMember(vs[p].id, vs[p].buckets, numjobs, pt);
      var q :| 0 <= q < |vs[p].buckets| && vs[p].buckets[q].idx == pt.idx && |vs[p].buckets[q].values| == numjobs && pt.total == Sum(vs[p].buckets[q].values);
      assert BucketsOf(vs[p].buckets, samples, vs[p].id);
      assert vs[p].buckets[q].values == ValuesAt(samples, pt.id, pt.idx);
      if numjobs == 0 {
        assert BucketIdxs(vs[p].buckets)[q] in Distinct(IdxsOf(samples, pt.id));
        NonEmptyAtSeenIdx(samples, pt.id, pt.idx);
      }
    }
    if numjobs > 0 && |ValuesAt(samples, pt.id, pt.idx)| == numjobs && pt.total == Sum(ValuesAt(samples, pt.id, pt.idx)) {
      SeenSample(samples, pt.id, pt.idx);
      var ids := SeriesIds(vs);
      assert pt.id in ids;
      var p :| 0 <= p < |ids| && ids[p] == pt.id;
      assert BucketsOf(vs[p].buckets, samples, pt.id);
      var idxs := BucketIdxs(vs[p].buckets);
      assert pt.idx in idxs;
      var q :| 0 <= q < |idxs| && idxs[q] == pt.idx;
      BucketPointsMember(vs[p].id, vs[p].buckets, numjobs, pt);
    }
  }

  /** An index seen for an id has at least one value. */
  lemma {:induction false} NonEmptyAtSeenIdx(samples: seq<Sample>, id: string, idx: nat)
    requires idx in IdxsOf(samples, id)
    ensures ValuesAt(samples, id, idx) != []
  {
    var front := samples[..|samples| - 1];
    if idx in IdxsOf(front, id) {
      NonEmptyAtSeenIdx(front, id, idx);
    }
  }

  // ---------------------------------------------------------------------
  // Emission order: which bucket each consumer call comes from.

  /** The (series position, bucket position) that each point of
      BucketPoints(id, bs, numjobs) comes from, for series position p. */
  function BucketOrigins(p: nat, bs: seq<Bucket>, numjobs: nat): seq<(nat, nat)> {
    if bs == [] then []
    else BucketOrigins(p, bs[..|bs| - 1], numjobs) + (if |bs[|bs| - 1].values| == numjobs then [(p, |bs| - 1)] else [])
  }

  /** The (series position, bucket position) that each point of
      FullBuckets(vs, numjobs) comes from. */
  function Origins(vs: seq<Series>, numjobs: nat): seq<(nat, nat)> {
    if vs == [] then []
    else Origins(vs[..|vs| - 1], numjobs) + BucketOrigins(|vs| - 1, vs[|vs| - 1].buckets, numjobs)
  }

  /** Positions in strictly increasing order: by series, then by bucket. */
  ghost predicate Increasing(os: seq<(nat, nat)>) {
    forall i, j :: 0 <= i < j < |os| ==> os[i].0 < os[j].0 || (os[i].0 == os[j].0 && os[i].1 < os[j].1)
  }

  /** Point i comes from bucket o.1 of series o.0, which holds `numjobs` values. */
  ghost predicate FromBucket(vs: seq<Series>, numjobs: nat, pt: Point, o: (nat, nat)) {
    && o.0 < |vs|
    && o.1 < |vs[o.0].buckets|
    && |vs[o.0].buckets[o.1].values| == numjobs
    && pt == Point(vs[o.0].id, vs[o.0].buckets[o.1].idx, Sum(vs[o.0].buckets[o.1].values))
  }

  lemma {:induction false} BucketOriginsSpec(vs: seq<Series>, p: nat, bs: seq<Bucket>, numjobs: nat)
    requires p < |vs| && bs <= vs[p].buckets
    ensures |BucketOrigins(p, bs, numjobs)| == |BucketPoints(vs[p].id, bs, numjobs)|
    ensures Increasing(BucketOrigins(p, bs, numjobs))
    ensures forall i :: 0 <= i < |BucketOrigins(p, bs, numjobs)| ==>
      BucketOrigins(p, bs, numjobs)[i].0 == p && BucketOrigins(p, bs, numjobs)[i].1 < |bs| &&
      FromBucket(vs, numjobs, BucketPoints(vs[p].id, bs, numjobs)[i], BucketOrigins(p, bs, numjobs)[i])
  {
    if bs != [] {
      BucketOriginsSpec(vs, p, bs[..|bs| - 1], numjobs);
    }
  }

  lemma {:induction false} OriginsSpec(vs: seq<Series>, numjobs: nat)
    ensures |Origins(vs, numjobs)| == |FullBuckets(vs, numjobs)|
    ensures Increasing(Origins(vs, numjobs))
    ensures forall i :: 0 <= i < |Origins(vs, numjobs)| ==>
      FromBucket(vs, numjobs, FullBuckets(vs, numjobs)[i], Origins(vs, numjobs)[i])
  {
    if vs != [] {
      var front := vs[..|vs| - 1];
      var p := |vs| - 1;
      OriginsSpec(front, numjobs);
      BucketOriginsSpec(vs, p, vs[p].buckets, numjobs);
      var os := Origins(vs, numjobs);
      var pts := FullBuckets(vs, numjobs);
      var fo := Origins(front, numjobs);
      forall i | 0 <= i < |os| ensures FromBucket(vs, numjobs, pts[i], os[i]) {
        if i < |fo| {
          assert FromBucket(front, numjobs, FullBuckets(front, numjobs)[i], fo[i]);
          assert vs[fo[i].0] == front[fo[i].0];
        }
      }
    }
  }

  /** read_values emits in first-seen order of measurement id, then of value
      index within an id: call i comes from the os[i].0-th id first seen in
      the samples and that id's os[i].1-th first-seen index, with the
      positions strictly increasing. */
  lemma EmissionOrder(samples: seq<Sample>, numjobs: nat)
    ensures |Origins(Grouped(samples), numjobs)| == |FullBuckets(Grouped(samples), numjobs)|
    ensures Increasing(Origins(Grouped(samples), numjobs))
    ensures forall i :: 0 <= i < |FullBuckets(Grouped(samples), numjobs)| ==>
      var pt := FullBuckets(Grouped(samples), numjobs)[i];
      var o := Origins(Grouped(samples), numjobs)[i];
      && o.0 < |Distinct(Ids(samples))| && pt.id == Distinct(Ids(samples))[o.0]
      && o.1 < |Distinct(IdxsOf(samples, pt.id))| && pt.idx == Distinct(IdxsOf(samples, pt.id))[o.1]
  {
    var vs := Grouped(samples);
    GroupedDescribes(samples);
    OriginsSpec(vs, numjobs);
    var pts := FullBuckets(vs, numjobs);
    var os := Origins(vs, numjobs);
    forall i | 0 <= i < |pts|
      ensures os[i].0 < |Distinct(Ids(samples))| && pts[i].id == Distinct(Ids(samples))[os[i].0]
      ensures os[i].1 < |Distinct(IdxsOf(samples, pts[i].id))| && pts[i].idx == Distinct(IdxsOf(samples, pts[i].id))[os[i].1]
    {
      var o := os[i];
      assert FromBucket(vs, numjobs, pts[i], o);
      assert SeriesIds(vs)[o.0] == vs[o.0].id;
      assert BucketsOf(vs[o.0].buckets, samples, vs[o.0].id);
      assert BucketIdxs(vs[o.0].buckets)[o.1] == vs[o.0].buckets[o.1].idx;
    }
  }

  /** No (measurement id, value index) bucket is passed on twice. */
  lemma EmittedOnce(samples: seq<Sample>, numjobs: nat, i: nat, j: nat)
    requires i < j < |FullBuckets(Grouped(samples), numjobs)|
    ensures var pts := FullBuckets(Grouped(samples), numjobs);
      pts[i].id != pts[j].id || pts[i].idx != pts[j].idx
  {
    EmissionOrder(samples, numjobs);
    var os := Origins(Grouped(samples), numjobs);
    assert os[i].0 < os[j].0 || (os[i].0 == os[j].0 && os[i].1 < os[j].1);
  }

  // ---------------------------------------------------------------------
  // read_values as a whole.

  /** read_values over the logs of the numjobs jobs: the consumer calls it
      makes, or the exception it raises, which it raises before making any. */
  ghost function ReadValuesCalls(numjobs: nat, logs: seq<seq<string>>, mode: string, measurement: string): Result<seq<Call>> {
    var samples :- AllSamples(measurement, ReadLogs(logs), DirectionCount(mode));
    Ok(DataCalls(FullBuckets(Grouped(samples), numjobs)))
  }

  /** The calls made for the stored samples are exactly one
      `consume_data(id, total)` per (id, value index) holding exactly
      numjobs values, total being their sum; each such id was read. */
  lemma DataCallsExact(samples: seq<Sample>, numjobs: nat, ms: string, total: int)
    ensures Data(ms, total) in DataCalls(FullBuckets(Grouped(samples), numjobs))
      <==> (&& numjobs > 0
            && exists idx: nat :: |ValuesAt(samples, ms, idx)| == numjobs && total == Sum(ValuesAt(samples, ms, idx)))
    ensures Data(ms, total) in DataCalls(FullBuckets(Grouped(samples), numjobs)) ==> ms in Ids(samples)
    ensures forall c :: c in DataCalls(FullBuckets(Grouped(samples), numjobs)) ==> c.Data?
  {
    var pts := FullBuckets(Grouped(samples), numjobs);
    var calls := DataCalls(pts);
    if Data(ms, total) in calls {
      var i :| 0 <= i < |calls| && calls[i] == Data(ms, total);
      var pt := pts[i];
      FullBucketsExact(samples, numjobs, pt);
      SeenSample(samples, pt.id, pt.idx);
    }
    if numjobs > 0 && exists idx: nat :: |ValuesAt(samples, ms, idx)| == numjobs && total == Sum(ValuesAt(samples, ms, idx)) {
      var idx: nat :| |ValuesAt(samples, ms, idx)| == numjobs && total == Sum(ValuesAt(samples, ms, idx));
      FullBucketsExact(samples, numjobs, Point(ms, idx, total));
      var i :| 0 <= i < |pts| && pts[i] == Point(ms, idx, total);
      assert calls[i] == Data(ms, total);
    }
  }

  /** Every call read_values makes is `consume_data(measurement_<direction>, total)`,
      where total is the sum of the exactly numjobs values read at some
      value index for that id; and every such bucket gives a call. */
  lemma ReadValuesCallsExact(numjobs: nat, logs: seq<seq<string>>, mode: string, measurement: string, ms: string, total: int)
    requires ReadValuesCalls(numjobs, logs, mode, measurement).Ok?
    ensures var samples := AllSamples(measurement, ReadLogs(logs), DirectionCount(mode)).value;
      Data(ms, total) in ReadValuesCalls(numjobs, logs, mode, measurement).value
      <==> (&& numjobs > 0
            && (exists d :: ms == MeasurementId(measurement, d))
            && exists idx: nat :: |ValuesAt(samples, ms, idx)| == numjobs && total == Sum(ValuesAt(samples, ms, idx)))
    ensures forall c :: c in ReadValuesCalls(numjobs, logs, mode, measurement).value ==> c.Data?
  {
    var dc := DirectionCount(mode);
    var samples := AllSamples(measurement, ReadLogs(logs), dc).value;
    DataCallsExact(samples, numjobs, ms, total);
    if Data(ms, total) in DataCalls(FullBuckets(Grouped(samples), numjobs)) {
      var k :| 0 <= k < |samples| && Ids(samples)[k] == ms;
      AllSamplesIds(measurement, ReadLogs(logs), dc, k);
    }
  }

  /** Two jobs of a read-only run: the first logs x and then y, the second
      logs only z. Only value index 0 was reported by both jobs, so it is
      the one point passed on, with the total x + z. */
  lemma TwoJobsExample(t1: int, t2: int, bs: int, x: int, y: int, z: int)
    ensures ReadValuesCalls(2, [[LogLine(t1, x, Read, bs), LogLine(t2, y, Read, bs)], [LogLine(t1, z, Read, bs)]], "randread", "iops")
         == Ok([Data(MeasurementId("iops", Read), x + z)])
  {
    var l1, l2, l3 := LogLine(t1, x, Read, bs), LogLine(t2, y, Read, bs), LogLine(t1, z, Read, bs);
    ParseLogLine(t1, x, Read, bs);
    ParseLogLine(t2, y, Read, bs);
    ParseLogLine(t1, z, Read, bs);
    ExampleReadings(l1, l2, l3, x, y, z);
    ExampleRun([[l1, l2], [l3]], x, y, z);
  }

  lemma ExampleRun(logs: seq<seq<string>>, x: int, y: int, z: int)
    requires ReadLogs(logs) == [[Ok((Read, x)), Ok((Read, y))], [Ok((Read, z))]]
    ensures ReadValuesCalls(2, logs, "randread", "iops") == Ok([Data(MeasurementId("iops", Read), x + z)])
  {
    assert DirectionCount("randread") == 1 by {
      assert !EndsWith("randread", "readwrite");
      assert "randread"[6] != "rw"[0];
    }
    var id := MeasurementId("iops", Read);
    var a := Sample(id, 0, x);
    var b := Sample(id, 1, y);
    var c := Sample(id, 0, z);
    ExampleSamples(ReadLogs(logs), x, y, z);
    ExampleGrouped(a, b, c, x, y, z);
  }

  lemma ExampleGrouped(a: Sample, b: Sample, c: Sample, x: int, y: int, z: int)
    requires a.id == b.id == c.id
    requires a == Sample(a.id, 0, x) && b == Sample(a.id, 1, y) && c == Sample(a.id, 0, z)
    ensures DataCalls(FullBuckets(Grouped([a, b, c]), 2)) == [Data(a.id, x + z)]
  {
    ExampleGroupedTwo(a, b, x, y);
    ExampleGroupedThree(a, b, c, x, y, z);
    ExamplePoints(a.id, x, y, z);
  }

  lemma ExampleGroupedTwo(a: Sample, b: Sample, x: int, y: int)
    requires a.id == b.id && a == Sample(a.id, 0, x) && b == Sample(a.id, 1, y)
    ensures Grouped([a, b]) == [Series(a.id, [Bucket(0, [x]), Bucket(1, [y])])]
  {
    var id := a.id;
    assert [a, b][..1] == [a] && [a][..0] == [];
    assert Grouped([a]) == [Series(id, [Bucket(0, [x])])];
    var one := [Bucket(0, [x])];
    assert AddToBuckets(one, 1, y) == [Bucket(0, [x])] + AddToBuckets([], 1, y);
    assert AddSample([Series(id, one)], b) == [Series(id, AddToBuckets(one, 1, y))] + [Series(id, one)][1..];
    assert [Series(id, one)][1..] == [] && [Bucket(0, [x])] + [Bucket(1, [y])] == [Bucket(0, [x]), Bucket(1, [y])];
    assert Grouped([a, b]) == AddSample(Grouped([a]), b);
  }

  lemma ExampleGroupedThree(a: Sample, b: Sample, c: Sample, x: int, y: int, z: int)
    requires a.id == b.id == c.id && c == Sample(a.id, 0, z)
    requires Grouped([a, b]) == [Series(a.id, [Bucket(0, [x]), Bucket(1, [y])])]
    ensures Grouped([a, b, c]) == [Series(a.id, [Bucket(0, [x, z]), Bucket(1, [y])])]
  {
    var id := a.id;
    var two := [Bucket(0, [x]), Bucket(1, [y])];
    assert [a, b, c][..2] == [a, b];
    assert AddToBuckets(two, 0, z) == [Bucket(0, [x] + [z])] + two[1..];
    assert [x] + [z] == [x, z];
    assert AddSample([Series(id, two)], c) == [Series(id, AddToBuckets(two, 0, z))] + [Series(id, two)][1..];
    assert [Series(id, two)][1..] == [] && [Bucket(0, [x, z])] + two[1..] == [Bucket(0, [x, z]), Bucket(1, [y])];
    assert Grouped([a, b, c]) == AddSample(Grouped([a, b]), c);
  }

  lemma ExamplePoints(id: string, x: int, y: int, z: int)
    ensures DataCalls(FullBuckets([Series(id, [Bucket(0, [x, z]), Bucket(1, [y])])], 2)) == [Data(id, x + z)]
  {
    var vs := [Series(id, [Bucket(0, [x, z]), Bucket(1, [y])])];
    var bs0 := vs[0].buckets;
    assert bs0[..1] == [bs0[0]] && [bs0[0]][..0] == [];
    assert Sum([x, z]) == x + z by {
      assert [x, z][..1] == [x] && [x][..0] == [];
      assert Sum([x]) == x;
    }
    assert BucketPoints(id, bs0[..1], 2) == [Point(id, 0, x + z)];
    assert BucketPoints(id, bs0, 2) == [Point(id, 0, x + z)];
    assert vs[..0] == [];
    assert FullBuckets(vs, 2) == [Point(id, 0, x + z)];
  }

  lemma ExampleReadings(l1: string, l2: string, l3: string, x: int, y: int, z: int)
    requires ParseLine(l1) == Ok((Read, x)) && ParseLine(l2) == Ok((Read, y)) && ParseLine(l3) == Ok((Read, z))
    ensures ReadLogs([[l1, l2], [l3]]) == [[Ok((Read, x)), Ok((Read, y))], [Ok((Read, z))]]
  {
    var job1, job2 := [l1, l2], [l3];
    assert job1[0] == l1 && job1[1] == l2 && job2[0] == l3;
    assert ReadLog(job1) == [Ok((Read, x)), Ok((Read, y))];
    assert ReadLog(job2) == [Ok((Read, z))];
  }

  lemma ExampleSamples(rs: seq<seq<Reading>>, x: int, y: int, z: int)
    requires rs == [[Ok((Read, x)), Ok((Read, y))], [Ok((Read, z))]]
    ensures AllSamples("iops", rs, 1)
         == Ok([Sample(MeasurementId("iops", Read), 0, x), Sample(MeasurementId("iops", Read), 1, y), Sample(MeasurementId("iops", Read), 0, z)])
  {
    var id := MeasurementId("iops", Read);
    var a := Sample(id, 0, x);
    var b := Sample(id, 1, y);
    var c := Sample(id, 0, z);
    var r0: seq<Reading> := [Ok((Read, x)), Ok((Read, y))];
    var r1: seq<Reading> := [Ok((Read, z))];
    assert r0[..1] == [Ok((Read, x))];
    assert r0[..1][..0] == [] && r1[..0] == [];
    assert LinesSamples("iops", [], 1) == Ok([]);
    assert LinesSamples("iops", r0[..1], 1).value == [a];
    assert LinesSamples("iops", r0, 1).value == [a, b];
    assert LinesSamples("iops", r1, 1).value == [c];
    assert rs[..1] == [r0] && rs[..1][..0] == [];
    assert AllSamples("iops", [], 1) == Ok([]);
    assert JobSamples("iops", r0, 1).value == [a, b];
    assert JobSamples("iops", r1, 1).value == [c];
    assert AllSamples("iops", rs[..1], 1).value == [a, b];
    assert rs[1] == r1;
    assert AllSamples("iops", rs, 1).value == [a, b] + [c];
    assert AllSamples("iops", rs, 1).Ok?;
    assert [a, b] + [c] == [a, b, c];
    assert AllSamples("iops", rs, 1) == Ok([a, b, c]);
  }
}
