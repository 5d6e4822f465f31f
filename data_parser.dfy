/** The baseline parser: it reads result records line by line from a data
    provider, collects the value of every (metric, statistic) baseline
    definition into a list per cpu model, metric, kernel, rootfs, statistic
    and configuration, turns each list into a baseline, and emits one
    document per cpu model. */
module DataParser {
  import opened Python
  import opened Strings
  import opened Json
  import opened BaselineTree
  import BlockPerformance

  /** Where one collected value goes in the tree. */
  datatype Key = Key(cpu: string, metric: string, kernel: string, rootfs: string, statistic: string, config: string)

  /** The number of keys on the path to every collected list. */
  const Depth: nat := 6

  function KeyPath(k: Key): (p: seq<string>)
    ensures |p| == Depth
  {
    [k.cpu, k.metric, k.kernel, k.rootfs, k.statistic, k.config]
  }

  /** What handling one record does to the tree, one action at a time:
      append a value to the list under a key, or raise. */
  datatype Step = Append(key: Key, value: Value) | Raise(error: PyError)

  // ---------------------------------------------------------------------
  // The steps of one record.

  /** One baseline definition `"<metric>/<statistic>"` against the data of
      one measurement tag `"<kernel>/<rootfs>/<config>"`. The definition
      must split in two and the tag in three (ValueError); a metric the tag
      does not report (or reports as null) is skipped before the tag is
      split; a missing statistic is collected as null; the cpu model must
      be usable as a dict key. */
  function DefinitionSteps(cpu: Value, tag: string, tagData: Value, definition: string): (r: seq<Step>)
    ensures |r| <= 1
  {
    var names := Split(definition, '/');
    if |names| != 2 then [Raise(ValueError)]
    else match GetOrNull(tagData, names[0])
      case Err(e) => [Raise(e)]
      case Ok(msData) =>
        if msData == Null then []
        else match GetOrNull(msData, names[1])
          case Err(e) => [Raise(e)]
          case Ok(stData) =>
            var parts := Split(tag, '/');
            if |parts| != 3 then [Raise(ValueError)]
            else if !cpu.Str? then [Raise(TypeError)]
            else [Append(Key(cpu.s, names[0], parts[0], parts[1], names[1], parts[2]), stData)]
  }

  /** A definition that collects a value has split in exactly two and its
      tag in exactly three: the key's names join back into both, and the
      cpu model was a string. */
  lemma AppendedKeyJoins(cpu: Value, tag: string, tagData: Value, definition: string)
    requires DefinitionSteps(cpu, tag, tagData, definition) != []
    requires DefinitionSteps(cpu, tag, tagData, definition)[0].Append?
    ensures var k := DefinitionSteps(cpu, tag, tagData, definition)[0].key;
      && definition == k.metric + "/" + k.statistic
      && tag == k.kernel + "/" + k.rootfs + "/" + k.config
      && cpu == Str(k.cpu)
  {
    var names, parts := Split(definition, '/'), Split(tag, '/');
    JoinSplit(definition, '/');
    JoinSplit(tag, '/');
    assert Join(names, '/') == names[0] + "/" + names[1];
    assert parts[1..][1..] == [parts[2]];
    assert Join(parts[1..], '/') == parts[1] + "/" + parts[2];
    assert Join(parts, '/') == parts[0] + "/" + (parts[1] + "/" + parts[2]);
    assert parts[0] + "/" + (parts[1] + "/" + parts[2]) == parts[0] + "/" + parts[1] + "/" + parts[2];
  }

  /** A metric the tag does not report is skipped, whatever the tag looks
      like and whatever the cpu model is. */
  lemma MissingMetricSkipped(cpu: Value, tag: string, tagData: Value, metric: string, statistic: string)
    requires '/' !in metric && '/' !in statistic
    requires tagData.Obj? && metric !in Keys(tagData.entries)
    ensures DefinitionSteps(cpu, tag, tagData, metric + "/" + statistic) == []
  {
    assert Join([metric, statistic], '/') == metric + "/" + statistic;
    SplitJoin([metric, statistic], '/');
  }

  /** A statistic the metric does not report is collected as null. */
  lemma MissingStatisticNull(cpu: string, tag: string, tagData: Value, metric: string, statistic: string, msData: Value)
    requires '/' !in metric && '/' !in statistic
    requires GetOrNull(tagData, metric) == Ok(msData) && msData.Obj? && statistic !in Keys(msData.entries)
    requires |Split(tag, '/')| == 3
    ensures var parts := Split(tag, '/');
      DefinitionSteps(Str(cpu), tag, tagData, metric + "/" + statistic)
      == [Append(Key(cpu, metric, parts[0], parts[1], statistic, parts[2]), Null)]
  {
    assert Join([metric, statistic], '/') == metric + "/" + statistic;
    SplitJoin([metric, statistic], '/');
  }

  /** All definitions, in order, against one measurement tag. */
  function TagSteps(cpu: Value, tag: string, tagData: Value, definitions: seq<string>): seq<Step> {
    Flatten(DefinitionBlocks(cpu, tag, tagData, definitions))
  }

  function DefinitionBlocks(cpu: Value, tag: string, tagData: Value, definitions: seq<string>): (r: seq<seq<Step>>)
    ensures |r| == |definitions|
  {
    seq(|definitions|, j requires 0 <= j < |definitions| => DefinitionSteps(cpu, tag, tagData, definitions[j]))
  }

  /** All measurement tags of a record, in order. */
  function MeasurementSteps(cpu: Value, measurements: seq<(string, Value)>, definitions: seq<string>): seq<Step> {
    Flatten(TagBlocks(cpu, measurements, definitions))
  }

  function TagBlocks(cpu: Value, measurements: seq<(string, Value)>, definitions: seq<string>): (r: seq<seq<Step>>)
    ensures |r| == |measurements|
  {
    seq(|measurements|, i requires 0 <= i < |measurements| =>
      TagSteps(cpu, measurements[i].0, measurements[i].1, definitions))
  }

  /** One decoded record: `record['results']`, then
      `record['custom']['cpu_model_name']`, then the measurements by tag. */
  function RecordSteps(record: Value, definitions: seq<string>): seq<Step> {
    match Index(record, "results")
    case Err(e) => [Raise(e)]
    case Ok(measurements) =>
      match Index(record, "custom")
      case Err(e) => [Raise(e)]
      case Ok(custom) =>
        match Index(custom, "cpu_model_name")
        case Err(e) => [Raise(e)]
        case Ok(cpu) =>
          if !measurements.Obj? then [Raise(AttributeError)]
          else MeasurementSteps(cpu, measurements.entries, definitions)
  }

  // ---------------------------------------------------------------------
  // Carrying steps out.

  /** The exception raised, if any, and the tree as it then stands. */
  datatype Outcome = Outcome(result: Result<()>, tree: Tree)

  /** Steps carried out in order until the first one that raises. */
  function Apply(t: Tree, steps: seq<Step>): Outcome
    decreases |steps|
  {
    if steps == [] then Outcome(Ok(()), t)
    else
      var before := Apply(t, steps[..|steps| - 1]);
      if before.result.Err? then before
      else match steps[|steps| - 1]
        case Raise(e) => Outcome(Err(e), before.tree)
        case Append(k, x) => Outcome(Ok(()), AppendAt(before.tree, KeyPath(k), x))
  }

  /** Carrying out `a + b` is carrying out `a`, then `b` unless `a` raised. */
  lemma {:induction false} ApplyConcat(t: Tree, a: seq<Step>, b: seq<Step>)
    ensures Apply(t, a + b) == if Apply(t, a).result.Err? then Apply(t, a) else Apply(Apply(t, a).tree, b)
    decreases |b|
  {
    if b == [] {
      assert a + b == a;
    } else {
      var n := |b| - 1;
      assert (a + b)[..|a + b| - 1] == a + b[..n];
      ApplyConcat(t, a, b[..n]);
    }
  }

  /** One more block carried out: the outcome of the first `j + 1` blocks,
      and when the block raised, the outcome of them all. */
  lemma ApplyBlock(t: Tree, blocks: seq<seq<Step>>, j: nat, before: Tree, after: Outcome)
    requires j < |blocks|
    requires Apply(t, Flatten(blocks[..j])) == Outcome(Ok(()), before)
    requires after == Apply(before, blocks[j])
    ensures Apply(t, Flatten(blocks[..j + 1])) == after
    ensures after.result.Err? ==> Apply(t, Flatten(blocks)) == after
  {
    FlattenAt(blocks, j);
    ApplyConcat(t, Flatten(blocks[..j]), blocks[j]);
    ApplyConcat(t, Flatten(blocks[..j + 1]), Flatten(blocks[j + 1..]));
  }

  /** Carrying out steps keeps the parser's tree shape. */
  lemma {:induction false} ApplyCollected(t: Tree, steps: seq<Step>)
    requires Collected(t, Depth)
    ensures Collected(Apply(t, steps).tree, Depth)
    decreases |steps|
  {
    if steps != [] {
      var before := Apply(t, steps[..|steps| - 1]);
      ApplyCollected(t, steps[..|steps| - 1]);
      if before.result.Ok? && steps[|steps| - 1].Append? {
        var last := steps[|steps| - 1];
        AppendAtCollected(before.tree, KeyPath(last.key), last.value);
      }
    }
  }

  /** The values appended under one key, in the order of the steps. */
  function ValuesFor(steps: seq<Step>, k: Key): seq<Value>
    decreases |steps|
  {
    if steps == [] then []
    else
      var n := |steps| - 1;
      ValuesFor(steps[..n], k) + (if steps[n].Append? && steps[n].key == k then [steps[n].value] else [])
  }

  /** The cpu models of the appended values, in the order of the steps. */
  function CpusOf(steps: seq<Step>): seq<string>
    decreases |steps|
  {
    if steps == [] then []
    else
      var n := |steps| - 1;
      CpusOf(steps[..n]) + (if steps[n].Append? then [steps[n].key.cpu] else [])
  }

  predicate Raises(steps: seq<Step>) {
    exists i :: 0 <= i < |steps| && steps[i].Raise?
  }

  /** A list of steps raises when its front does or its last step is a raise. */
  lemma RaisesSnoc(steps: seq<Step>)
    requires steps != []
    ensures Raises(steps) <==> Raises(steps[..|steps| - 1]) || steps[|steps| - 1].Raise?
  {
    var n := |steps| - 1;
    var front := steps[..n];
    if Raises(front) {
      var i :| 0 <= i < |front| && front[i].Raise?;
      assert steps[i].Raise?;
    }
    if Raises(steps) {
      var i :| 0 <= i < |steps| && steps[i].Raise?;
      if i < n {
        assert front[i].Raise?;
      }
    }
    if steps[n].Raise? {
      assert Raises(steps);
    }
  }

  /** Steps that raise nothing succeed, and those that do fail. */
  lemma {:induction false} ApplyResult(t: Tree, steps: seq<Step>)
    ensures Apply(t, steps).result.Ok? <==> !Raises(steps)
    decreases |steps|
  {
    if steps != [] {
      ApplyResult(t, steps[..|steps| - 1]);
      RaisesSnoc(steps);
    }
  }

  /** Every list collects the values appended under its key, in the order
      they came, after the values it already held. */
  lemma {:induction false} ApplyValues(t: Tree, steps: seq<Step>, k: Key)
    requires !Raises(steps)
    ensures Leaf(Apply(t, steps).tree, KeyPath(k)) == Leaf(t, KeyPath(k)) + ValuesFor(steps, k)
    decreases |steps|
  {
    if steps == [] {
      assert Leaf(t, KeyPath(k)) + [] == Leaf(t, KeyPath(k));
    } else {
      var n := |steps| - 1;
      var front, last := steps[..n], steps[n];
      RaisesSnoc(steps);
      ApplyValues(t, front, k);
      ApplyResult(t, front);
      var before := Apply(t, front).tree;
      LeafAppend(before, last.key, last.value, k);
      Associative(Leaf(t, KeyPath(k)), ValuesFor(front, k), if last.key == k then [last.value] else []);
    }
  }

  /** Appending under one key extends that key's list and no other. */
  lemma LeafAppend(t: Tree, key: Key, x: Value, k: Key)
    ensures Leaf(AppendAt(t, KeyPath(key), x), KeyPath(k)) == Leaf(t, KeyPath(k)) + if key == k then [x] else []
  {
    if key == k {
      AppendAtHere(t, KeyPath(k), x);
    } else {
      assert KeyPath(key) != KeyPath(k);
      AppendAtElsewhere(t, KeyPath(key), x, KeyPath(k));
      assert Leaf(t, KeyPath(k)) + [] == Leaf(t, KeyPath(k));
    }
  }

  /** Starting from an empty tree, the cpu models at the top are those of
      the appended values, each once, in the order first seen. */
  lemma {:induction false} ApplyCpus(steps: seq<Step>)
    requires !Raises(steps)
    ensures Apply(Node([]), steps).tree.Node?
    ensures Labels(Apply(Node([]), steps).tree.children) == Distinct(CpusOf(steps))
    decreases |steps|
  {
    if steps != [] {
      var n := |steps| - 1;
      var front, last := steps[..n], steps[n];
      RaisesSnoc(steps);
      ApplyCpus(front);
      ApplyResult(Node([]), front);
      var before := Apply(Node([]), front).tree;
      var cpu := last.key.cpu;
      assert Apply(Node([]), steps).tree == AppendAt(before, KeyPath(last.key), last.value);
      AppendAtLabels(before, KeyPath(last.key), last.value);
      AppendAtUnfold(before, KeyPath(last.key), last.value);
      assert CpusOf(steps) == CpusOf(front) + [cpu];
      DistinctSnoc(CpusOf(front), cpu);
      DistinctHas(CpusOf(front), cpu);
    }
  }

  // ---------------------------------------------------------------------
  // Reading the provider.

  /** How far reading got: the outcome, and how many lines `next` returned. */
  datatype Progress = Progress(outcome: Outcome, read: nat)

  /** The parse loop over the provider's lines: each line is decoded and
      its record handled, until a line is empty. Running out of lines
      raises StopIteration; a line that does not decode, or a record that
      raises, ends the loop with its own exception. */
  function ReadLines(t: Tree, lines: seq<string>, definitions: seq<string>, loads: string -> Result<Value>): (p: Progress)
    ensures p.read <= |lines|
    decreases |lines|
  {
    if lines == [] then Progress(Outcome(Err(StopIteration), t), 0)
    else if lines[0] == "" then Progress(Outcome(Ok(()), t), 1)
    else match loads(lines[0])
      case Err(e) => Progress(Outcome(Err(e), t), 1)
      case Ok(record) =>
        var o := Apply(t, RecordSteps(record, definitions));
        if o.result.Err? then Progress(o, 1)
        else
          var rest := ReadLines(o.tree, lines[1..], definitions, loads);
          Progress(rest.outcome, rest.read + 1)
  }

  /** The steps of every line up to the first empty one. */
  function LinesSteps(lines: seq<string>, definitions: seq<string>, loads: string -> Result<Value>): seq<Step>
    decreases |lines|
  {
    if lines == [] then [Raise(StopIteration)]
    else if lines[0] == "" then []
    else match loads(lines[0])
      case Err(e) => [Raise(e)]
      case Ok(record) => RecordSteps(record, definitions) + LinesSteps(lines[1..], definitions, loads)
  }

  /** Reading the lines comes to the same as carrying out all their steps
      in one go. */
  lemma {:induction false} ReadLinesSteps(t: Tree, lines: seq<string>, definitions: seq<string>, loads: string -> Result<Value>)
    ensures ReadLines(t, lines, definitions, loads).outcome == Apply(t, LinesSteps(lines, definitions, loads))
    decreases |lines|
  {
    assert Apply(t, [Raise(StopIteration)]).result == Err(StopIteration);
    if lines != [] && lines[0] != "" {
      match loads(lines[0])
      case Err(e) =>
        assert Apply(t, [Raise(e)]) == Outcome(Err(e), t);
      case Ok(record) =>
        var steps := RecordSteps(record, definitions);
        ApplyConcat(t, steps, LinesSteps(lines[1..], definitions, loads));
        if Apply(t, steps).result.Ok? {
          ReadLinesSteps(Apply(t, steps).tree, lines[1..], definitions, loads);
        }
    }
  }

  /** Nothing after the first empty line is ever read. */
  lemma {:induction false} ReadLinesStops(t: Tree, lines: seq<string>, rest: seq<string>, definitions: seq<string>, loads: string -> Result<Value>)
    requires "" in lines
    ensures ReadLines(t, lines + rest, definitions, loads) == ReadLines(t, lines, definitions, loads)
    decreases |lines|
  {
    assert (lines + rest)[0] == lines[0];
    if lines[0] != "" {
      assert (lines + rest)[1..] == lines[1..] + rest;
      assert "" in lines[1..] by {
        var i :| 0 <= i < |lines| && lines[i] == "";
        assert i > 0 && lines[1..][i - 1] == "";
      }
      match loads(lines[0])
      case Err(_) =>
      case Ok(record) =>
        var o := Apply(t, RecordSteps(record, definitions));
        if o.result.Ok? {
          ReadLinesStops(o.tree, lines[1..], rest, definitions, loads);
        }
    }
  }

  /** Lines that hold no empty line run the provider dry: the parse raises. */
  lemma {:induction false} ReadLinesNoEnd(t: Tree, lines: seq<string>, definitions: seq<string>, loads: string -> Result<Value>)
    requires "" !in lines
    ensures ReadLines(t, lines, definitions, loads).outcome.result.Err?
    decreases |lines|
  {
    if lines != [] {
      assert lines[0] in lines;
      assert "" !in lines[1..] by {
        forall i | 0 <= i < |lines[1..]|
          ensures lines[1..][i] != ""
        {
          assert lines[1..][i] == lines[i + 1];
        }
      }
      match loads(lines[0])
      case Err(_) =>
      case Ok(record) =>
        var o := Apply(t, RecordSteps(record, definitions));
        if o.result.Ok? {
          ReadLinesNoEnd(o.tree, lines[1..], definitions, loads);
        }
    }
  }

  // ---------------------------------------------------------------------
  // A whole parse, from an empty tree.

  /** A parse that reaches an empty line has collected, under every key,
      exactly the values the records gave for it, in the order read. */
  lemma ParsedLeaf(lines: seq<string>, definitions: seq<string>, loads: string -> Result<Value>, k: Key)
    requires ReadLines(Node([]), lines, definitions, loads).outcome.result.Ok?
    ensures Leaf(ReadLines(Node([]), lines, definitions, loads).outcome.tree, KeyPath(k))
      == ValuesFor(LinesSteps(lines, definitions, loads), k)
  {
    var steps := LinesSteps(lines, definitions, loads);
    ReadLinesSteps(Node([]), lines, definitions, loads);
    ApplyResult(Node([]), steps);
    ApplyValues(Node([]), steps, k);
    LookupEmpty(KeyPath(k));
    assert [] + ValuesFor(steps, k) == ValuesFor(steps, k);
  }

  /** Populating then turns every key that collected something into the
      baseline computed from its values. */
  lemma ParsedBaseline(lines: seq<string>, definitions: seq<string>, loads: string -> Result<Value>,
                       calculate: seq<Value> -> Value, k: Key)
    requires ReadLines(Node([]), lines, definitions, loads).outcome.result.Ok?
    requires ValuesFor(LinesSteps(lines, definitions, loads), k) != []
    ensures Lookup(Populated(ReadLines(Node([]), lines, definitions, loads).outcome.tree, calculate), KeyPath(k))
      == Some(Computed(calculate(ValuesFor(LinesSteps(lines, definitions, loads), k))))
  {
    var steps := LinesSteps(lines, definitions, loads);
    var tree := ReadLines(Node([]), lines, definitions, loads).outcome.tree;
    ParsedLeaf(lines, definitions, loads, k);
    ReadLinesSteps(Node([]), lines, definitions, loads);
    ApplyCollected(Node([]), steps);
    PopulatedLeaf(tree, KeyPath(k), calculate);
  }

  /** The populated tree holds one entry per cpu model of the collected
      values, each once, in the order first read: the order of the
      documents. */
  lemma ParsedModels(lines: seq<string>, definitions: seq<string>, loads: string -> Result<Value>,
                     calculate: seq<Value> -> Value)
    requires ReadLines(Node([]), lines, definitions, loads).outcome.result.Ok?
    ensures Populated(ReadLines(Node([]), lines, definitions, loads).outcome.tree, calculate).Node?
    ensures Labels(Populated(ReadLines(Node([]), lines, definitions, loads).outcome.tree, calculate).children)
      == Distinct(CpusOf(LinesSteps(lines, definitions, loads)))
  {
    var steps := LinesSteps(lines, definitions, loads);
    ReadLinesSteps(Node([]), lines, definitions, loads);
    ApplyResult(Node([]), steps);
    ApplyCpus(steps);
    PopulatedLabels(Apply(Node([]), steps).tree.children, calculate);
  }

  /** A definition `"<metric>/<statistic>"` against the data a block
      performance test records under its pipe tag collects the statistic
      under that test's kernel, disk and fio id. */
  lemma PipeTagKey(cpu: string, kernel: string, disk: string, mode: string, bs: int, vcpus: int,
                   tagData: Value, metric: string, statistic: string, msData: Value, stData: Value)
    requires '/' !in kernel && '/' !in disk && '/' !in mode
    requires '/' !in metric && '/' !in statistic
    requires GetOrNull(tagData, metric) == Ok(msData) && msData != Null
    requires GetOrNull(msData, statistic) == Ok(stData)
    ensures var fio := BlockPerformance.FioId(mode, bs, vcpus);
      DefinitionSteps(Str(cpu), BlockPerformance.PipeTag(BlockPerformance.EnvId(kernel, disk), fio),
                      tagData, metric + "/" + statistic)
      == [Append(Key(cpu, metric, kernel, disk, statistic, fio), stData)]
  {
    BlockPerformance.PipeTagSplit(kernel, disk, mode, bs, vcpus);
    assert Join([metric, statistic], '/') == metric + "/" + statistic;
    SplitJoin([metric, statistic], '/');
  }

  // ---------------------------------------------------------------------
  // The emitted documents.

  /** `{'model': cpu_model, **metrics}`. */
  function Document(cpu: string, metrics: Tree): Value
    requires metrics.Node?
  {
    Obj(Merge([("model", Str(cpu))], ToJson(metrics).entries))
  }

  /** One document per cpu model, in the tree's order. */
  function Documents(t: Tree): (r: seq<Value>)
    requires TwoLevels(t)
    ensures |r| == |t.children|
  {
    seq(|t.children|, i requires 0 <= i < |t.children| =>
      assert t.children[i] in t.children;
      Document(t.children[i].0, t.children[i].1))
  }

  /** The document of a cpu model holds "model" (unless a metric of that
      name overrides it) and each metric's populated subtree. */
  lemma DocumentFind(cpu: string, metrics: Tree, m: string)
    requires metrics.Node? && Unique(Labels(metrics.children))
    ensures Find(Document(cpu, metrics).entries, m)
      == if m in Labels(metrics.children) then ChildToJson(metrics.children, m)
         else if m == "model" then Some(Str(cpu)) else None
  {
    var es := MetricEntries(metrics);
    MergeFind([("model", Str(cpu))], es, m);
    if m in Labels(metrics.children) {
      ChildJson(metrics.children, m);
    }
  }

  /** Its keys are "model" followed by the metrics in their order. */
  lemma DocumentKeys(cpu: string, metrics: Tree)
    requires metrics.Node? && Unique(Labels(metrics.children))
    requires "model" !in Labels(metrics.children)
    ensures Keys(Document(cpu, metrics).entries) == ["model"] + Labels(metrics.children)
  {
    var es := MetricEntries(metrics);
    MergeKeys([("model", Str(cpu))], es);
  }

  /** The entries `**metrics` spreads: the metrics' JSON, keys distinct. */
  function MetricEntries(metrics: Tree): (es: seq<(string, Value)>)
    requires metrics.Node? && Unique(Labels(metrics.children))
    ensures es == ToJson(metrics).entries
    ensures Keys(es) == Labels(metrics.children) && DistinctKeys(es)
  {
    var es := ToJson(metrics).entries;
    assert forall i :: 0 <= i < |es| ==> es[i].0 == Labels(metrics.children)[i];
    es
  }

  /** The dict `_format_baselines` builds first: each cpu model with its
      document, in the tree's order. */
  function ByModel(t: Tree): (r: seq<(string, Value)>)
    requires TwoLevels(t)
    ensures Keys(r) == Labels(t.children) && DistinctKeys(r)
    ensures forall j :: 0 <= j < |r| ==> r[j].1 == Documents(t)[j]
  {
    var docs := Documents(t);
    var r := seq(|t.children|, j requires 0 <= j < |t.children| => (t.children[j].0, docs[j]));
    assert forall j :: 0 <= j < |r| ==> Keys(r)[j] == Labels(t.children)[j];
    r
  }

  /** The JSON of the subtree under `m`, if there is one. */
  function ChildToJson(children: seq<(string, Tree)>, m: string): Option<Value> {
    match Child(children, m)
    case None => None
    case Some(c) => Some(ToJson(c))
  }

  lemma {:induction false} ChildJson(children: seq<(string, Tree)>, m: string)
    ensures Find(ToJson(Node(children)).entries, m) == ChildToJson(children, m)
  {
    if children != [] {
      ChildJson(children[1..], m);
      assert ToJson(Node(children)).entries[1..] == ToJson(Node(children[1..])).entries;
    }
  }

  // ---------------------------------------------------------------------
  // The parser.

  class DataParser {
    /** The lines the data provider has yet to return. */
    var provider: seq<string>
    /** The baseline definitions, each `"<metric>/<statistic>"`. */
    const definitions: seq<string>
    /** `_data`, the nested dict the values are collected in. */
    var data: Tree

    constructor (lines: seq<string>, definitions: seq<string>)
      ensures provider == lines && this.definitions == definitions && data == Node([])
    {
      provider := lines;
      this.definitions := definitions;
      data := Node([]);
    }

    /** `next(self._data_provider)`. */
    method Next() returns (r: Result<string>)
      modifies this`provider
      ensures old(provider) == [] ==> r == Err(StopIteration) && provider == []
      ensures old(provider) != [] ==> r == Ok(old(provider)[0]) && provider == old(provider)[1..]
    {
      if provider == [] {
        return Err(StopIteration);
      }
      r := Ok(provider[0]);
      provider := provider[1..];
    }

    /** The body of the innermost loop of `parse`, for one definition. */
    method AddDefinition(cpu: Value, tag: string, tagData: Value, definition: string) returns (r: Result<()>)
      modifies this`data
      ensures Outcome(r, data) == Apply(old(data), DefinitionSteps(cpu, tag, tagData, definition))
    {
      var names := Split(definition, '/');
      if |names| != 2 {
        return Err(ValueError);
      }
      var msData := GetOrNull(tagData, names[0]);
      if msData.Err? {
        return Err(msData.error);
      }
      if msData.value == Null {
        return Ok(());
      }
      var stData := GetOrNull(msData.value, names[1]);
      if stData.Err? {
        return Err(stData.error);
      }
      var parts := Split(tag, '/');
      if |parts| != 3 {
        return Err(ValueError);
      }
      if !cpu.Str? {
        return Err(TypeError);
      }
      var key := Key(cpu.s, names[0], parts[0], parts[1], names[1], parts[2]);
      data := AppendAt(data, KeyPath(key), stData.value);
      r := Ok(());
    }

    /** The loop over the definitions for one measurement tag. */
    method AddTag(cpu: Value, tag: string, tagData: Value) returns (r: Result<()>)
      modifies this`data
      ensures Outcome(r, data) == Apply(old(data), TagSteps(cpu, tag, tagData, definitions))
    {
      ghost var start := data;
      ghost var blocks := DefinitionBlocks(cpu, tag, tagData, definitions);
      r := Ok(());
      var j := 0;
      while j < |definitions| && r.Ok?
        invariant j <= |definitions|
        invariant Apply(start, Flatten(blocks[..j])) == Outcome(r, data)
        invariant r.Err? ==> Apply(start, Flatten(blocks)) == Outcome(r, data)
      {
        ghost var before := data;
        r := AddDefinition(cpu, tag, tagData, definitions[j]);
        ApplyBlock(start, blocks, j, before, Outcome(r, data));
        j := j + 1;
      }
      if r.Ok? {
        assert blocks[..j] == blocks;
      }
    }

    /** The loop over the measurement tags of one record. */
    method AddMeasurements(cpu: Value, measurements: seq<(string, Value)>) returns (r: Result<()>)
      modifies this`data
      ensures Outcome(r, data) == Apply(old(data), MeasurementSteps(cpu, measurements, definitions))
    {
      ghost var start := data;
      ghost var blocks := TagBlocks(cpu, measurements, definitions);
      r := Ok(());
      var i := 0;
      while i < |measurements| && r.Ok?
        invariant i <= |measurements|
        invariant Apply(start, Flatten(blocks[..i])) == Outcome(r, data)
        invariant r.Err? ==> Apply(start, Flatten(blocks)) == Outcome(r, data)
      {
        ghost var before := data;
        r := AddTag(cpu, measurements[i].0, measurements[i].1);
        ApplyBlock(start, blocks, i, before, Outcome(r, data));
        i := i + 1;
      }
      if r.Ok? {
        assert blocks[..i] == blocks;
      }
    }

    /** The body of the `while line:` loop for one decoded record. */
    method AddRecord(record: Value) returns (r: Result<()>)
      modifies this`data
      ensures Outcome(r, data) == Apply(old(data), RecordSteps(record, definitions))
    {
      var measurements := Index(record, "results");
      if measurements.Err? {
        return Err(measurements.error);
      }
      var custom := Index(record, "custom");
      if custom.Err? {
        return Err(custom.error);
      }
      var cpu := Index(custom.value, "cpu_model_name");
      if cpu.Err? {
        return Err(cpu.error);
      }
      if !measurements.value.Obj? {
        return Err(AttributeError);
      }
      r := AddMeasurements(cpu.value, measurements.value.entries);
    }

    /** `_populate_baselines(None, self._data)`. */
    method PopulateBaselines(calculate: seq<Value> -> Value)
      modifies this`data
      requires data.Node?
      ensures data == Populated(old(data), calculate)
    {
      var children := PopulateEntries(data, calculate);
      data := Node(children);
    }

    /** The first loop of `_format_baselines`: the dict from each cpu
        model to its document `{'model': cpu_model, **metrics}`. */
    method DocumentsByModel() returns (byModel: seq<(string, Value)>)
      requires TwoLevels(data)
      ensures byModel == ByModel(data)
    {
      var cs := data.children;
      ghost var all := ByModel(data);
      byModel := [];
      for i := 0 to |cs|
        invariant byModel == all[..i]
      {
        var doc := Document(cs[i].0, cs[i].1);
        UpdatePrefix(all, i, doc);
        byModel := Update(byModel, cs[i].0, doc);
        assert all[..i + 1] == all[..i] + [all[i]];
      }
    }

    /** `_format_baselines`: the documents looked up by cpu model, in the
        order of the cpu models. */
    method FormatBaselines() returns (r: seq<Value>)
      requires TwoLevels(data)
      ensures r == Documents(data)
    {
      var byModel := DocumentsByModel();
      var cs := data.children;
      r := [];
      for i := 0 to |cs|
        invariant r == Documents(data)[..i]
      {
        FindEntry(byModel, i);
        r := r + [Find(byModel, cs[i].0).value];
      }
    }

    /** `parse()`: read and collect until the first empty line, then
        populate and format. */
    method Parse(loads: string -> Result<Value>, calculate: seq<Value> -> Value) returns (r: Result<seq<Value>>)
      modifies this
      requires Collected(data, Depth)
      ensures var p := ReadLines(old(data), old(provider), definitions, loads);
        && provider == old(provider)[p.read..]
        && (p.outcome.result.Err? ==> r == Err(p.outcome.result.error) && data == p.outcome.tree)
        && (p.outcome.result.Ok? ==>
              && data == Populated(p.outcome.tree, calculate)
              && TwoLevels(data)
              && r == Ok(Documents(data)))
    {
      ghost var lines, start := provider, data;
      var line := Next();
      if line.Err? {
        return Err(line.error);
      }
      ghost var pos := 1;
      while line.value != ""
        invariant 1 <= pos <= |lines| && provider == lines[pos..] && line == Ok(lines[pos - 1])
        invariant Collected(data, Depth)
        invariant var p := ReadLines(data, lines[pos - 1..], definitions, loads);
          ReadLines(start, lines, definitions, loads) == Progress(p.outcome, p.read + pos - 1)
        decreases |provider|
      {
        assert lines[pos - 1..][1..] == lines[pos..];
        var record := loads(line.value);
        if record.Err? {
          return Err(record.error);
        }
        ghost var before := data;
        var added := AddRecord(record.value);
        ApplyCollected(before, RecordSteps(record.value, definitions));
        if added.Err? {
          return Err(added.error);
        }
        line := Next();
        if line.Err? {
          return Err(line.error);
        }
        pos := pos + 1;
      }
      PopulatedTwoLevels(data, Depth, calculate);
      PopulateBaselines(calculate);
      var documents := FormatBaselines();
      r := Ok(documents);
    }
  }
}
