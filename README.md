# Block-device benchmark result shaping and the baseline parser

This project models two pieces of Firecracker's performance tooling and
proves properties of the model.

**The block-device benchmark's consumer side.** This is the part of
`test_block_performance.py` that turns one fio run into statistics.

- `read_values` reads each job's fio log (`time, value, direction, bs`
  lines). It groups the values by measurement id and value index, and
  passes on the sum of every bucket that all `numjobs` jobs reported.
- `consume_fio_output` records the two CPU-utilisation statistics, then
  runs `read_values` for iops and for bw.
- The tail of `run_fio` checks the sampled CPU load of the VMM thread and
  of each vCPU thread, and reduces it to two numbers.
- `DataDirection` decodes the direction code of a log line.
- `BlockBaselinesProvider` selects the host CPU's baselines from the test
  configuration and answers `get(ms, st)` with a target and a delta.
- `fio_workload` builds the env id, the fio id and the pipe tag.

The statistics consumer is modelled as a log of the calls it receives
(`Statistics.Consumer`).

**The baseline parser** (`DataParser` in `tools/parse_baselines`). It reads
decoded result records until an empty line. It collects every configured
`<metric>/<statistic>` value into a six-level `nested_dict`: cpu model,
metric, kernel, rootfs, statistic, configuration. It then replaces every
list with `calculate_baseline(list)` and emits one document per cpu model.
The `nested_dict` is the `BaselineTree.Tree` datatype. The parser is a
class whose `data` field the methods reassign. Each method is proved
against a function of the old state:
`Apply(old(data), steps)`, `Populated(old(data), calculate)` and
`Documents(data)`.

Modules:

- `Python`: exceptions, `Result`, `sum`, and the first-seen order of dict keys.
- `Strings`: `split`, `strip`, `int()` and `str()`.
- `Json`: decoded values and dict access.
- `Statistics`: the consumer call log.
- `FioLog`: the specification of `read_values`.
- `BlockPerformance`: the `read_values`, `consume_fio_output` and `run_fio` methods, plus the pipe ids.
- `BlockBaselines`: the baseline provider.
- `BaselineTree`: `nested_dict` and `_populate_baselines`.
- `DataParser`: the parser class and the whole-parse lemmas.

## Model

| member | source | states |
|---|---|---|
| BlockBaselines.Iterate | tests/integration_tests/performance/test_block_performance.py:45-47 | iterating a list yields its items; only null, booleans and numbers are not iterable |
| BlockBaselines.MatchingModelOk | tests/integration_tests/performance/test_block_performance.py:45-47 | the model filter succeeds exactly when every CPU entry is a dict with a "model" key (a KeyError or TypeError otherwise, even after a match) |
| BlockBaselines.MatchingModelKeeps | tests/integration_tests/performance/test_block_performance.py:45-47 | every entry the filter keeps is one of the given entries and is for the host's CPU model |
| BlockBaselines.MatchingModelFirst | tests/integration_tests/performance/test_block_performance.py:45-51 | when some entry is for the host's model, the filter's first element is the first such entry |
| BlockBaselines.FirstFor | tests/integration_tests/performance/test_block_performance.py:45-51 | the position of the first entry for the host's model: that entry matches and none before it does, or there is none |
| BlockBaselines.BeforeEmpty | tests/integration_tests/performance/test_block_performance.py:45-50 | with no entry for the host's model the filter keeps nothing |
| BlockBaselines.SelectBaselinesSpec | tests/integration_tests/performance/test_block_performance.py:44-51 | the provider's dict is the first CPU entry for the host's model, or an empty dict when none matches; building fails exactly when an entry lacks "model" |
| BlockBaselines.NewProvider | tests/integration_tests/performance/test_block_performance.py:42-53 | the constructor fails exactly when the selection does, with its exception; otherwise a fresh provider holds the selected dict and the key template |
| BlockBaselines.BlockBaselinesProvider.constructor | tests/integration_tests/performance/test_block_performance.py:49-53 | the provider keeps the dict it wraps and the key template |
| BlockBaselines.FormatPlain | tests/integration_tests/performance/test_block_performance.py:57 | `str.format` copies brace-free text unchanged and fails where the rest fails |
| BlockBaselines.FormatHole | tests/integration_tests/performance/test_block_performance.py:57 | a `{}` field takes the next argument |
| BlockBaselines.FormatField | tests/integration_tests/performance/test_block_performance.py:57 | a `{}` after brace-free text takes the next argument after that text |
| BlockBaselines.TagShape | tests/integration_tests/performance/test_block_performance.py:53 | the key template is brace-free text and two `{}` fields |
| BlockBaselines.FormatTag | tests/integration_tests/performance/test_block_performance.py:53-57 | formatting the template with (ms, st) gives `baselines/<ms>/<env_id>/<st>/<fio_id>` when env_id and fio_id hold no braces |
| BlockBaselines.GetFound | tests/integration_tests/performance/test_block_performance.py:55-65 | a stored entry with a numeric target and percentage gives the target unchanged and delta = percentage * target / 100 |
| BlockBaselines.EntryFound | tests/integration_tests/performance/test_block_performance.py:59-65 | a dict entry with numeric target and percentage yields the (target, percentage of target) pair |
| BlockBaselines.GetMissing | tests/integration_tests/performance/test_block_performance.py:57-66 | nothing stored under the key, or a falsy entry, gives None and never an exception |
| BlockBaselines.GetFails | tests/integration_tests/performance/test_block_performance.py:59-64 | a truthy non-dict entry raises AttributeError; a dict entry succeeds exactly when target and percentage are numbers, and raises TypeError otherwise |
| BlockBaselines.UnknownCpuNone | tests/integration_tests/performance/test_block_performance.py:44-66 | on a host whose CPU model the configuration does not list, the provider wraps an empty dict and `get` returns None for every metric and statistic |
| BlockBaselines.DeltaWithinTarget | tests/integration_tests/performance/test_block_performance.py:64 | a percentage between 0 and 100 of a non-negative target gives a delta between 0 and the target |
| FioLog.DirectionOf | tests/integration_tests/performance/test_block_performance.py:157-162 | decoding a direction code succeeds exactly for 0, 1 and 2 (ValueError otherwise), and gives the member with that value |
| FioLog.DirectionNames | tests/integration_tests/performance/test_block_performance.py:157-175 | codes 0, 1, 2 decode to members named "read", "write", "trim", and no two members share a name |
| FioLog.DirectionRoundTrip | tests/integration_tests/performance/test_block_performance.py:157-162 | decoding a member's value gives the member back |
| FioLog.ParseLogLine | tests/integration_tests/performance/test_block_performance.py:200-209 | reading a line written as `time, value, direction, bs` gives back its direction and value |
| FioLog.LogLineFields | tests/integration_tests/performance/test_block_performance.py:200 | such a line splits at ',' into its four fields |
| FioLog.ParseIntSpaced | tests/integration_tests/performance/test_block_performance.py:201 | `int()` reads back an int written after a blank |
| FioLog.DirectionCount | tests/integration_tests/performance/test_block_performance.py:193-195 | the direction count is 1 or 2 |
| FioLog.JobSamplesAlign | tests/integration_tests/performance/test_block_performance.py:197-209 | a job log that reads without error has a whole number of value indices, and its line k gives the sample (id of its direction, k div direction count, value) |
| FioLog.JobSamplesShort | tests/integration_tests/performance/test_block_performance.py:197-200 | a read-write log with an odd number of lines fails with IndexError |
| FioLog.LinesSamplesAlign | tests/integration_tests/performance/test_block_performance.py:197-209 | every line read gives one sample, at its own position, with its direction's id and value index |
| FioLog.AllSamplesIds | tests/integration_tests/performance/test_block_performance.py:203 | every sample carries the id `<measurement>_<direction>` of some direction |
| FioLog.LinesSamplesErr | tests/integration_tests/performance/test_block_performance.py:197-209 | once a line of a job's log fails, reading the rest of that log fails the same way |
| FioLog.LineStep | tests/integration_tests/performance/test_block_performance.py:199-209 | reading line k either appends its sample or makes its exception the log's |
| FioLog.LogEnd | tests/integration_tests/performance/test_block_performance.py:197-200 | a log that reads to its end succeeds exactly when its length is a multiple of the direction count, and fails with IndexError otherwise |
| FioLog.AllSamplesErr | tests/integration_tests/performance/test_block_performance.py:187-209 | once a job's log fails, the whole read fails with that exception |
| FioLog.AddToBucketsIdxs | tests/integration_tests/performance/test_block_performance.py:207-209 | storing a value keeps the known value indices in place and adds a new index at the end |
| FioLog.AddToBucketsAt | tests/integration_tests/performance/test_block_performance.py:207-209 | storing a value appends it to its index's list, or creates the singleton list for a new index, and changes nothing else |
| FioLog.AddSampleIds | tests/integration_tests/performance/test_block_performance.py:204-205 | storing a sample keeps the known ids in place and adds a new id at the end |
| FioLog.AddSampleAt | tests/integration_tests/performance/test_block_performance.py:204-209 | storing a sample updates only its id's buckets, or creates a new series holding it |
| FioLog.AddToBucketsKeeps | tests/integration_tests/performance/test_block_performance.py:207-209 | storing a sample keeps its id's buckets exact: first-seen indices, each with its values in reading order |
| FioLog.AddSampleKeeps | tests/integration_tests/performance/test_block_performance.py:203-209 | storing a sample keeps the whole `values` dict exact |
| FioLog.GroupedDescribes | tests/integration_tests/performance/test_block_performance.py:185-209 | `values` after reading holds one series per measurement id in first-seen order and one bucket per value index in first-seen order, each holding that index's values in reading order |
| FioLog.BucketPointsMember | tests/integration_tests/performance/test_block_performance.py:212-220 | a series passes on (id, idx, total) exactly when its bucket idx holds numjobs values summing to total |
| FioLog.FullBucketsMember | tests/integration_tests/performance/test_block_performance.py:211-220 | all series together pass on exactly the points some series passes on |
| FioLog.FullBucketsExact | tests/integration_tests/performance/test_block_performance.py:211-220 | (id, idx, total) is passed on exactly when numjobs > 0, exactly numjobs values were read for (id, idx), and total is their sum; buckets with any other count emit nothing |
| FioLog.OriginsSpec | tests/integration_tests/performance/test_block_performance.py:211-220 | each passed-on point comes from one bucket holding numjobs values, and the buckets are visited in increasing (series, bucket) order |
| FioLog.EmissionOrder | tests/integration_tests/performance/test_block_performance.py:211-220 | points are emitted in first-seen order of id, then of value index within an id |
| FioLog.EmittedOnce | tests/integration_tests/performance/test_block_performance.py:211-220 | no (id, value index) bucket is emitted twice |
| FioLog.DataCallsExact | tests/integration_tests/performance/test_block_performance.py:211-220 | the calls are exactly one `consume_data(id, sum)` per (id, index) holding exactly numjobs values, each for an id that was read |
| FioLog.ReadValuesCallsExact | tests/integration_tests/performance/test_block_performance.py:178-220 | every call read_values makes is `consume_data(<measurement>_<direction>, total)` for a bucket of exactly numjobs values, and every such bucket gives a call |
| FioLog.TwoJobsExample | tests/integration_tests/performance/test_block_performance.py:178-220 | two jobs where only index 0 is reported by both give the single call `consume_data("iops_read", x + z)` |
| Statistics.Consumer.ConsumeData | tests/integration_tests/performance/test_block_performance.py:220 | the consumer log gains exactly the `consume_data` call |
| Statistics.Consumer.ConsumeStat | tests/integration_tests/performance/test_block_performance.py:228-231 | the consumer log gains exactly the `consume_stat` call |
| BlockPerformance.ReadValues | tests/integration_tests/performance/test_block_performance.py:178-220 | the consumer log gains exactly the calls of ReadValuesCalls over the logs and the result is its outcome; on an exception no call is made |
| BlockPerformance.EmitFull | tests/integration_tests/performance/test_block_performance.py:211-220 | the emitting loop appends exactly one `consume_data` call per full bucket, series by series |
| BlockPerformance.EmitStep | tests/integration_tests/performance/test_block_performance.py:214-220 | emitting one more bucket appends its call exactly when it holds numjobs values |
| BlockPerformance.ReadJob | tests/integration_tests/performance/test_block_performance.py:187-209 | reading one job's log extends `values` with exactly that job's samples, or raises that job's exception |
| BlockPerformance.ReadIndex | tests/integration_tests/performance/test_block_performance.py:197-209 | one pass of the index loop reads the direction_count lines of that value index, or raises the job's exception |
| BlockPerformance.ReadDirection | tests/integration_tests/performance/test_block_performance.py:199-209 | one pass of the direction loop stores that line's sample, or raises the job's exception |
| BlockPerformance.ReadLine | tests/integration_tests/performance/test_block_performance.py:200-201 | the line is read as its direction and value, or as its exception |
| BlockPerformance.JobStep | tests/integration_tests/performance/test_block_performance.py:187-209 | job j's samples follow the earlier jobs', or its exception is the run's |
| BlockPerformance.AllJobsRead | tests/integration_tests/performance/test_block_performance.py:178-220 | once every job's log reads, the run makes the full-bucket calls and returns |
| BlockPerformance.PastEnd | tests/integration_tests/performance/test_block_performance.py:197-200 | a read-write log that ends after the first line of an index fails with IndexError |
| BlockPerformance.SampleStep | tests/integration_tests/performance/test_block_performance.py:199-209 | a good line adds its sample both to the job's samples and to `values` |
| BlockPerformance.ReduceCpuLoad | tests/integration_tests/performance/test_block_performance.py:125-153 | the loop returns exactly what CpuUtilization specifies |
| BlockPerformance.VcpusUtilStuck | tests/integration_tests/performance/test_block_performance.py:138-151 | once a vCPU fails its check, every later count fails the same way |
| BlockPerformance.VcpuMeans | tests/integration_tests/performance/test_block_performance.py:139-151 | one mean load per vCPU thread |
| BlockPerformance.VcpusUtilSpec | tests/integration_tests/performance/test_block_performance.py:138-153 | the vCPU loop succeeds exactly when every vCPU tag passes the checks (AssertionError otherwise), and then yields the sum of their mean loads |
| BlockPerformance.CpuUtilizationOk | tests/integration_tests/performance/test_block_performance.py:125-153 | run_fio returns exactly when time > 0 and the VMM tag and every vCPU tag pass; otherwise AssertionError, or ZeroDivisionError when time is 0 |
| BlockPerformance.CpuUtilizationValues | tests/integration_tests/performance/test_block_performance.py:125-153 | the result has exactly the two keys: the mean of the single "firecracker" series, and the sum of the means of the "fc_vcpu k" series |
| BlockPerformance.MeanBounds | tests/integration_tests/performance/test_block_performance.py:134 | a mean lies between the smallest and largest possible sample |
| BlockPerformance.ThreadMeanBounds | tests/integration_tests/performance/test_block_performance.py:134 | each thread's mean load lies within the sample bounds |
| BlockPerformance.CpuUtilizationBounds | tests/integration_tests/performance/test_block_performance.py:134-153 | with samples in [lo, hi], the VMM figure lies in [lo, hi] and the vCPU total in [vcpus*lo, vcpus*hi] |
| BlockPerformance.VcpuMeansBounds | tests/integration_tests/performance/test_block_performance.py:138-151 | the sum of n vCPU means lies in [n*lo, n*hi] |
| BlockPerformance.MeansWithin | tests/integration_tests/performance/test_block_performance.py:139-151 | every vCPU mean lies in [lo, hi] |
| BlockPerformance.VcpuTagsDistinct | tests/integration_tests/performance/test_block_performance.py:127-142 | distinct vCPUs use distinct tags, none of them the VMM's |
| BlockPerformance.ConsumeFioOutput | tests/integration_tests/performance/test_block_performance.py:223-234 | the consumer log gains exactly the calls of FioOutputRun, and the result is its outcome |
| BlockPerformance.ConsumeStats | tests/integration_tests/performance/test_block_performance.py:228-231 | the two utilisation statistics are recorded, VMM first |
| BlockPerformance.ReadBoth | tests/integration_tests/performance/test_block_performance.py:233-234 | read_values for iops, then for bw unless iops raised |
| BlockPerformance.ReadValuesCallsOf | tests/integration_tests/performance/test_block_performance.py:203-220 | every call read_values makes for a measurement is data under one of that measurement's ids |
| BlockPerformance.FioOutputOrder | tests/integration_tests/performance/test_block_performance.py:225-234 | a returning run records the VMM stat, then the vCPU total stat, then all iops data, then all bw data, and nothing else |
| BlockPerformance.DataOfDisjoint | tests/integration_tests/performance/test_block_performance.py:203 | iops data and bw data are told apart by their ids |
| BlockPerformance.FioOutputFailure | tests/integration_tests/performance/test_block_performance.py:225-234 | a missing key raises KeyError before any call; a failing iops read stops after the stats; a failing bw read stops after the iops data |
| BlockPerformance.ProducerToConsumer | tests/integration_tests/performance/test_block_performance.py:225-231 | fed what run_fio returned, the first two calls record the VMM mean load and the vCPU mean total |
| BlockPerformance.PipeTagSplit | tests/integration_tests/performance/test_block_performance.py:315-333 | a pipe tag `<kernel>/<disk>/<fio_id>` splits at "/" into exactly those three names when they hold no "/" |
| BaselineTree.ChildSpec | tools/parse_baselines/providers/types.py:75-80 | `parent[k]` finds something exactly when the dict holds k, and finds one of its entries |
| BaselineTree.PutLabels | tools/parse_baselines/providers/types.py:76 | storing a key keeps existing keys in place and adds a new one at the end |
| BaselineTree.PutMembers | tools/parse_baselines/providers/types.py:76 | after storing a key every entry is the new one or an old one |
| BaselineTree.PutChild | tools/parse_baselines/providers/types.py:76 | after storing k, k finds the new value and every other key what it found before |
| BaselineTree.AppendAtCollected | tools/parse_baselines/providers/types.py:106-111 | appending keeps the parser's shape: six levels of dicts with distinct keys above non-empty lists |
| BaselineTree.AppendedChildCollected | tools/parse_baselines/providers/types.py:106-111 | the subtree appended to keeps the shape of the one it replaces |
| BaselineTree.PutCollected | tools/parse_baselines/providers/types.py:106-111 | storing a subtree of the right shape keeps the dict's shape |
| BaselineTree.AppendAtLabels | tools/parse_baselines/providers/types.py:106 | appending adds the path's first key to the root's keys when it is new, after the existing ones |
| BaselineTree.LookupEmpty | tools/parse_baselines/providers/types.py:15-17 | a fresh nested dict holds nothing under any path |
| BaselineTree.AppendAtHere | tools/parse_baselines/providers/types.py:108-111 | appending to a path extends that path's list by the value, creating the singleton list when there was none |
| BaselineTree.AppendAtElsewhere | tools/parse_baselines/providers/types.py:106-111 | appending to a path leaves every other path of the same depth unchanged |
| BaselineTree.PopulatedLabels | tools/parse_baselines/providers/types.py:66-81 | populating keeps every key of a dict in place |
| BaselineTree.PopulatedChild | tools/parse_baselines/providers/types.py:79-81 | populating a dict populates each child under its own key |
| BaselineTree.PopulatedLookup | tools/parse_baselines/providers/types.py:66-81 | what sits under a path after populating is what sat there, populated; a path that led nowhere still does |
| BaselineTree.PopulatedLeaf | tools/parse_baselines/providers/types.py:75-77 | the list under a full path becomes `calculate_baseline(list)` |
| BaselineTree.PopulatedTwoLevels | tools/parse_baselines/providers/types.py:66-81 | a populated tree of the parser's shape is still a dict of dicts with distinct keys at the top |
| BaselineTree.PopulateEntries | tools/parse_baselines/providers/types.py:66-81 | the recursive traversal leaves every key in place, replaces each list by its baseline and populates each nested dict |
| Json.Find | tools/parse_baselines/providers/types.py:95 | `d.get(k)` finds nothing exactly when k is not a key, and otherwise one of the entries for k |
| Json.Index | tools/parse_baselines/providers/types.py:88-89 | `v[k]` succeeds exactly on a dict holding k, and raises KeyError exactly on a dict without it |
| Json.GetOrNull | tools/parse_baselines/providers/types.py:95-100 | `v.get(k)` raises exactly on a non-dict, and gives None for a missing key |
| Json.Update | tools/parse_baselines/providers/types.py:55 | `d[k] = v` keeps existing keys in place and adds a new key at the end |
| Json.UpdateFind | tools/parse_baselines/providers/types.py:55 | after `d[k] = v`, k finds v and every other key what it found before |
| Json.MergeFind | tools/parse_baselines/providers/types.py:56 | `{**a, **b}` finds a key in b when b has it, otherwise in a |
| Json.MergeKeys | tools/parse_baselines/providers/types.py:56 | merging in keys new to a puts them after a's keys, in b's order |
| Json.UpdateNew | tools/parse_baselines/providers/types.py:55 | storing a new key appends it |
| Json.UpdatePrefix | tools/parse_baselines/providers/types.py:52-56 | rebuilding a dict with distinct keys entry by entry puts each key last when it is stored |
| Json.FindEntry | tools/parse_baselines/providers/types.py:61-62 | in a dict with distinct keys each entry is what its key finds |
| Strings.Split | tools/parse_baselines/providers/types.py:94 | `str.split(sep)` gives at least one piece and no piece holds the separator |
| Strings.SplitJoin | tools/parse_baselines/providers/types.py:102-104 | splitting undoes joining pieces that hold no separator |
| Strings.JoinSplit | tools/parse_baselines/providers/types.py:94 | joining the pieces of a split gives the string back |
| Strings.StripLeftSuffix | tests/integration_tests/performance/test_block_performance.py:201 | `lstrip` keeps a suffix and removes only whitespace |
| Strings.StripRightPrefix | tests/integration_tests/performance/test_block_performance.py:201 | `rstrip` keeps a prefix and removes only whitespace |
| Strings.StripIdempotent | tests/integration_tests/performance/test_block_performance.py:201 | stripping twice strips no more than once, so `int(s.strip()) == int(s)` |
| Strings.ParseShowInt | tests/integration_tests/performance/test_block_performance.py:319 | `int(str(n)) == n` |
| Python.Distinct | tools/parse_baselines/providers/types.py:54 | the keys of an insertion-ordered dict filled from a sequence: each element once, in first-seen order |
| DataParser.KeyPath | tools/parse_baselines/providers/types.py:106-107 | every value is stored six keys deep: cpu, metric, kernel, rootfs, statistic, config |
| DataParser.DefinitionSteps | tools/parse_baselines/providers/types.py:94-111 | one (tag, definition) pair appends at most one value |
| DataParser.AppendedKeyJoins | tools/parse_baselines/providers/types.py:94-104 | a definition that collects a value has split into exactly two names and its tag into exactly three, which the key joins back |
| DataParser.MissingMetricSkipped | tools/parse_baselines/providers/types.py:95-98 | a metric the tag does not report is skipped, even when the tag is malformed |
| DataParser.MissingStatisticNull | tools/parse_baselines/providers/types.py:100-111 | a reported metric without the statistic still appends null under the key |
| DataParser.PipeTagKey | tools/parse_baselines/providers/types.py:94-111 | data recorded under a benchmark pipe tag `<kernel>/<disk>/<fio_id>` is collected under that kernel, disk and fio id |
| DataParser.ApplyConcat | tools/parse_baselines/providers/types.py:92-111 | carrying out two runs of steps is carrying out the first, then the second unless the first raised |
| DataParser.ApplyBlock | tools/parse_baselines/providers/types.py:92-111 | carrying out one more block of steps after the earlier blocks |
| DataParser.ApplyCollected | tools/parse_baselines/providers/types.py:106-111 | collecting keeps the tree's shape: six levels of distinct-keyed dicts above non-empty lists |
| DataParser.ApplyResult | tools/parse_baselines/providers/types.py:92-111 | collecting succeeds exactly when no step raises |
| DataParser.ApplyValues | tools/parse_baselines/providers/types.py:106-111 | each list gains exactly the values appended under its key, in order, after those it held |
| DataParser.LeafAppend | tools/parse_baselines/providers/types.py:106-111 | appending under one key extends that key's list and no other |
| DataParser.ApplyCpus | tools/parse_baselines/providers/types.py:106 | from an empty tree, the top-level keys are the cpu models of the appended values, each once, in first-seen order |
| DataParser.ReadLinesSteps | tools/parse_baselines/providers/types.py:85-112 | reading the lines comes to carrying out all their steps in one go |
| DataParser.ReadLinesStops | tools/parse_baselines/providers/types.py:85-112 | nothing after the first empty line is read |
| DataParser.ReadLinesNoEnd | tools/parse_baselines/providers/types.py:85-112 | lines with no empty line run the provider dry and the parse raises |
| DataParser.ParsedLeaf | tools/parse_baselines/providers/types.py:83-112 | after a parse, each key's list holds exactly the values the records gave for it, in reading order |
| DataParser.ParsedBaseline | tools/parse_baselines/providers/types.py:83-114 | after populating, every key that collected values holds `calculate_baseline` of them; a single value x gives `calculate_baseline([x])` |
| DataParser.ParsedModels | tools/parse_baselines/providers/types.py:83-116 | the populated tree has one entry per cpu model read, each once, in first-seen order |
| DataParser.Documents | tools/parse_baselines/providers/types.py:50-64 | one document per cpu model |
| DataParser.DocumentFind | tools/parse_baselines/providers/types.py:55-56 | a model's document maps each metric to its populated subtree, and "model" to the cpu model unless a metric of that name overrides it |
| DataParser.DocumentKeys | tools/parse_baselines/providers/types.py:55-56 | a document's keys are "model" followed by the metrics in their order |
| DataParser.MetricEntries | tools/parse_baselines/providers/types.py:56 | the entries `**metrics` spreads have the metrics' keys, distinct |
| DataParser.ByModel | tools/parse_baselines/providers/types.py:52-56 | the first dict of `_format_baselines` maps each cpu model, in order and once, to its document |
| DataParser.ChildJson | tools/parse_baselines/providers/types.py:56 | a metric's entry in the JSON is its subtree's JSON |
| DataParser.DataParser.constructor | tools/parse_baselines/providers/types.py:39-44 | the parser starts over the provider's lines and the definitions, with an empty nested dict |
| DataParser.DataParser.Next | tools/parse_baselines/providers/types.py:85 | `next` returns the first line and consumes it, or raises StopIteration when there is none |
| DataParser.DataParser.AddDefinition | tools/parse_baselines/providers/types.py:94-111 | the tree and result are those of carrying out the definition's step |
| DataParser.DataParser.AddTag | tools/parse_baselines/providers/types.py:93-111 | the tree and result are those of carrying out every definition's step in order, up to the first raise |
| DataParser.DataParser.AddMeasurements | tools/parse_baselines/providers/types.py:92-111 | the same for every measurement tag of a record in order |
| DataParser.DataParser.AddRecord | tools/parse_baselines/providers/types.py:87-111 | the same for one decoded record, including the `results` / `custom` / `cpu_model_name` lookups |
| DataParser.DataParser.PopulateBaselines | tools/parse_baselines/providers/types.py:114 | the data becomes its populated tree |
| DataParser.DataParser.DocumentsByModel | tools/parse_baselines/providers/types.py:52-56 | the loop builds exactly ByModel of the data |
| DataParser.DataParser.FormatBaselines | tools/parse_baselines/providers/types.py:50-64 | the returned list is the documents of the cpu models in first-seen order |
| DataParser.DataParser.Parse | tools/parse_baselines/providers/types.py:83-116 | the provider is consumed up to the first empty line; on an exception the collected tree stays; otherwise data is populated and the documents are returned |

## Left out

- Files, SSH, processes and the VM: the scheduler and cache writes, `scp_get_file`, `makedirs` and `rmtree`, building and pinning the VM, choosing artifacts, and the fio command line. `read_values` takes each job's log as in-memory lines instead of reading files.
- The background CPU sampler (`ThreadPoolExecutor`, `get_cpu_percent`): its returned `cpu_load` mapping is a parameter.
- `CONFIG` and `json.load`/`json.loads`: the configuration is a decoded `Value` parameter. The run time is a parameter. The parser's `loads` is a function parameter from a line to a decoded value or an exception.
- `FileDataProvider`: the data provider is the sequence of lines it returns.
- `framework.statistics` (`Core`, the producer and consumer lambdas, `DictMetadataProvider`) is not part of this model. Only the calls into the consumer are modelled.
- `DictQuery` is not part of this model. `BlockBaselines.Query` models it as a walk over the key's "/"-separated parts. A missing key, a null value, or a value that is not a dict part-way along the path reads as None; Firecracker's `DictQuery` may instead raise on a truthy non-dict found part-way.
- `get_cpu_model_name` is not part of this model: the host's CPU model is a parameter.
- The DEBUG branches (`consume_custom` and the per-sample tags) are left out, because `DEBUG` is `False`.
- Floating point: loads, means, targets and deltas are mathematical reals. Log values are integers.
- `calculate_baseline` is abstract in the source. It is a function parameter `calculate`.
- BlockBaselines.Format: only `{}` fields and doubled braces are modelled. Other replacement-field syntax (names, indices, format specs) gives ValueError instead.
- DataParser.DefinitionSteps: a cpu model that is not a string raises TypeError. Python would also accept numbers, booleans and null as dict keys.
- Json.Value: a decoded object never holds two entries with the same key, as `json.loads` keeps only the last.
- DataParser.DataParser.Parse: requires the tree to have the parser's shape. A parser has it when built and keeps it, but a second `parse()` on the same parser is not modelled.
- BlockPerformance.ReadValues: requires one log per job (`|logs| == numjobs`). In the source a missing log file makes `open` raise.
- FioLog.Direction: the `return ""` at the end of `DataDirection.__str__` cannot be reached, because only three members exist.
