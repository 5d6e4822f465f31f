/** The baseline provider of the block-device benchmark: the CPU entry it
    selects from the test configuration when it is built, the key template
    it keeps, and the (target, delta) pairs it hands out. */
module BlockBaselines {
  import opened Python
  import opened Strings
  import opened Json

  /** The baseline `get` returns: the target as stored, and the allowed
      deviation derived from the stored percentage. */
  datatype Baseline = Baseline(target: Value, delta: real)

  // ---------------------------------------------------------------------
  // Selecting the CPU entry.

  /** `CONFIG["hosts"]["instances"]["m5d.metal"]["cpus"]`. */
  function CpuEntries(config: Value): Result<Value> {
    var hosts :- Index(config, "hosts");
    var instances :- Index(hosts, "instances");
    var host :- Index(instances, "m5d.metal");
    Index(host, "cpus")
  }

  /** What iterating over a decoded value yields: a list its items, a dict
      its keys, a string its characters; anything else is not iterable. */
  function Iterate(v: Value): (r: Result<seq<Value>>)
    ensures r.Err? <==> v.Null? || v.Bool? || v.Num?
    ensures v.Arr? ==> r == Ok(v.items)
  {
    match v
    case Arr(items) => Ok(items)
    case Obj(entries) => Ok(seq(|entries|, i requires 0 <= i < |entries| => Str(entries[i].0)))
    case Str(s) => Ok(seq(|s|, i requires 0 <= i < |s| => Str([s[i]])))
    case _ => Err(TypeError)
  }

  /** `entry["model"] == cpu_model_name`. */
  function IsModel(entry: Value, cpuModel: string): Result<bool> {
    var model :- Index(entry, "model");
    Ok(model == Str(cpuModel))
  }

  /** `list(filter(lambda e: e["model"] == cpu_model_name, entries))`:
      the predicate is applied to every entry, so one without a "model" key
      fails the whole filter even after a match. */
  function MatchingModel(entries: seq<Value>, cpuModel: string): Result<seq<Value>> {
    if entries == [] then Ok([])
    else
      var before :- MatchingModel(entries[..|entries| - 1], cpuModel);
      var last := entries[|entries| - 1];
      var keep :- IsModel(last, cpuModel);
      Ok(if keep then before + [last] else before)
  }

  /** The dict the provider's DictQuery wraps: the first CPU entry of the
      configuration whose model is the host's, or an empty dict. */
  function SelectBaselines(config: Value, cpuModel: string): Result<Value> {
    var cpus :- CpuEntries(config);
    var entries :- Iterate(cpus);
    var matching :- MatchingModel(entries, cpuModel);
    Ok(if |matching| > 0 then matching[0] else Obj([]))
  }

  /** An entry that is a dict holding a "model" key. */
  predicate HasModel(entry: Value) {
    entry.Obj? && "model" in Keys(entry.entries)
  }

  /** An entry for the host's CPU model. */
  predicate ForModel(entry: Value, cpuModel: string) {
    entry.Obj? && Find(entry.entries, "model") == Some(Str(cpuModel))
  }

  /** The filter succeeds exactly when every entry is a dict holding a
      "model" key. */
  lemma {:induction false} MatchingModelOk(entries: seq<Value>, cpuModel: string)
    ensures MatchingModel(entries, cpuModel).Ok? <==> forall i :: 0 <= i < |entries| ==> HasModel(entries[i])
  {
    if entries != [] {
      var front := entries[..|entries| - 1];
      MatchingModelOk(front, cpuModel);
      assert forall i :: 0 <= i < |front| ==> front[i] == entries[i];
    }
  }

  /** The filter keeps only entries for the host's model, and only entries
      it was given. */
  lemma {:induction false} MatchingModelKeeps(entries: seq<Value>, cpuModel: string)
    requires MatchingModel(entries, cpuModel).Ok?
    ensures var m := MatchingModel(entries, cpuModel).value;
      forall j :: 0 <= j < |m| ==> ForModel(m[j], cpuModel) && m[j] in entries
  {
    if entries != [] {
      var front := entries[..|entries| - 1];
      MatchingModelKeeps(front, cpuModel);
      var last := entries[|entries| - 1];
      assert forall v :: v in front ==> v in entries;
      assert IsModel(last, cpuModel) == Ok(true) ==> ForModel(last, cpuModel);
    }
  }

  /** When some entry is for the host's model, the filter's first element
      is the first such entry. */
  lemma {:induction false} MatchingModelFirst(entries: seq<Value>, cpuModel: string)
    requires MatchingModel(entries, cpuModel).Ok?
    ensures FirstFor(entries, cpuModel) < |entries| ==>
      var m := MatchingModel(entries, cpuModel).value;
      m != [] && m[0] == entries[FirstFor(entries, cpuModel)]
  {
    if entries != [] {
      var front := entries[..|entries| - 1];
      MatchingModelFirst(front, cpuModel);
      if FirstFor(entries, cpuModel) < |entries| {
        FirstForSnoc(entries, cpuModel);
      }
    }
  }

  /** The position of the first entry for the host's model, or |entries|. */
  function FirstFor(entries: seq<Value>, cpuModel: string): (r: nat)
    ensures r <= |entries|
    ensures r < |entries| ==> ForModel(entries[r], cpuModel)
    ensures forall i :: 0 <= i < r ==> !ForModel(entries[i], cpuModel)
  {
    if entries == [] then 0
    else if ForModel(entries[0], cpuModel) then 0
    else 1 + FirstFor(entries[1..], cpuModel)
  }

  lemma FirstForSnoc(entries: seq<Value>, cpuModel: string)
    requires FirstFor(entries, cpuModel) < |entries|
    requires MatchingModel(entries, cpuModel).Ok?
    requires var front := entries[..|entries| - 1];
      && MatchingModel(front, cpuModel).Ok?
      && (FirstFor(front, cpuModel) < |front| ==>
           MatchingModel(front, cpuModel).value != [] && front[FirstFor(front, cpuModel)] == MatchingModel(front, cpuModel).value[0])
    ensures MatchingModel(entries, cpuModel).value != []
    ensures entries[FirstFor(entries, cpuModel)] == MatchingModel(entries, cpuModel).value[0]
  {
    var front := entries[..|entries| - 1];
    var last := entries[|entries| - 1];
    var before := MatchingModel(front, cpuModel).value;
    var f := FirstFor(entries, cpuModel);
    FirstForPrefix(entries, cpuModel);
    if f < |front| {
      assert front[f] == entries[f];
      assert MatchingModel(entries, cpuModel).value[..|before|] == before;
    } else {
      assert forall j :: 0 <= j < |front| ==> front[j] == entries[j];
      BeforeEmpty(front, cpuModel);
      assert Index(last, "model") == Ok(Str(cpuModel));
    }
  }

  lemma FirstForPrefix(entries: seq<Value>, cpuModel: string)
    requires entries != []
    ensures FirstFor(entries, cpuModel) < |entries| - 1 ==>
      FirstFor(entries[..|entries| - 1], cpuModel) == FirstFor(entries, cpuModel)
  {
    var front := entries[..|entries| - 1];
    var f := FirstFor(entries, cpuModel);
    if f < |front| {
      var g := FirstFor(front, cpuModel);
      assert front[f] == entries[f];
      assert g <= f;
      assert g < |front| ==> front[g] == entries[g];
    }
  }

  /** With no entry for the host's model, the filter keeps nothing. */
  lemma {:induction false} BeforeEmpty(entries: seq<Value>, cpuModel: string)
    requires forall j :: 0 <= j < |entries| ==> !ForModel(entries[j], cpuModel)
    requires MatchingModel(entries, cpuModel).Ok?
    ensures MatchingModel(entries, cpuModel).value == []
  {
    if entries != [] {
      var front := entries[..|entries| - 1];
      assert forall j :: 0 <= j < |front| ==> front[j] == entries[j];
      BeforeEmpty(front, cpuModel);
      var last := entries[|entries| - 1];
      assert !ForModel(last, cpuModel);
    }
  }

  /** The provider is built over the first CPU entry for the host's model,
      or over an empty dict when the configuration lists none; a CPU entry
      without a "model" key makes building it fail. */
  lemma SelectBaselinesSpec(config: Value, cpuModel: string, cpus: seq<Value>)
    requires CpuEntries(config) == Ok(Arr(cpus))
    ensures SelectBaselines(config, cpuModel).Ok? <==> forall i :: 0 <= i < |cpus| ==> HasModel(cpus[i])
    ensures SelectBaselines(config, cpuModel).Ok? ==>
      SelectBaselines(config, cpuModel).value
        == if FirstFor(cpus, cpuModel) < |cpus| then cpus[FirstFor(cpus, cpuModel)] else Obj([])
  {
    MatchingModelOk(cpus, cpuModel);
    if SelectBaselines(config, cpuModel).Ok? {
      if FirstFor(cpus, cpuModel) == |cpus| {
        BeforeEmpty(cpus, cpuModel);
      } else {
        MatchingModelFirst(cpus, cpuModel);
      }
    }
  }

  // ---------------------------------------------------------------------
  // The key template.

  /** `"baselines/{}/" + env_id + "/{}/" + fio_id`. */
  function Tag(envId: string, fioId: string): string {
    "baselines/{}/" + envId + "/{}/" + fioId
  }

  /** `template.format(*args)` for templates whose replacement fields are
      all `{}`: each `{}` takes the next argument (IndexError when none is
      left), `{{` and `}}` stand for single braces, and any other brace is
      refused with ValueError. */
  function Format(template: string, args: seq<string>): Result<string>
    decreases |template|
  {
    if template == [] then Ok([])
    else if template[0] == '{' then
      if |template| >= 2 && template[1] == '{' then
        var rest :- Format(template[2..], args);
        Ok("{" + rest)
      else if |template| >= 2 && template[1] == '}' then
        if args == [] then Err(IndexError)
        else
          var rest :- Format(template[2..], args[1..]);
          Ok(args[0] + rest)
      else Err(ValueError)
    else if template[0] == '}' then
      if |template| >= 2 && template[1] == '}' then
        var rest :- Format(template[2..], args);
        Ok("}" + rest)
      else Err(ValueError)
    else
      var rest :- Format(template[1..], args);
      Ok([template[0]] + rest)
  }

  predicate NoBraces(s: string) {
    '{' !in s && '}' !in s
  }

  /** Text without braces is copied as it is. */
  lemma {:induction false} FormatPlain(s: string, rest: string, args: seq<string>)
    requires NoBraces(s)
    ensures Format(rest, args).Err? ==> Format(s + rest, args) == Format(rest, args)
    ensures Format(rest, args).Ok? ==> Format(s + rest, args) == Ok(s + Format(rest, args).value)
    decreases |s|
  {
    if s == [] {
      assert s + rest == rest;
      if Format(rest, args).Ok? {
        assert s + Format(rest, args).value == Format(rest, args).value;
      }
    } else {
      assert s[0] in s;
      var t := s + rest;
      assert t[0] == s[0] && t[1..] == s[1..] + rest;
      FormatPlain(s[1..], rest, args);
      if Format(rest, args).Ok? {
        assert [s[0]] + (s[1..] + Format(rest, args).value) == s + Format(rest, args).value;
      }
    }
  }

  /** A `{}` takes the first argument. */
  lemma FormatHole(rest: string, x: string, args: seq<string>)
    requires Format(rest, args).Ok?
    ensures Format("{}" + rest, [x] + args) == Ok(x + Format(rest, args).value)
  {
    var t := "{}" + rest;
    var xs := [x] + args;
    assert t[0] == '{' && t[1] == '}' && t[2..] == rest;
    assert xs != [] && xs[0] == x && xs[1..] == args;
  }

  /** A `{}` after brace-free text takes the first argument. */
  lemma FormatField(a: string, rest: string, x: string, args: seq<string>)
    requires NoBraces(a)
    requires Format(rest, args).Ok?
    ensures Format(a + "{}" + rest, [x] + args) == Ok(a + x + Format(rest, args).value)
  {
    var t, xs, r := "{}" + rest, [x] + args, Format(rest, args).value;
    assert Format(a + t, xs) == Ok(a + (x + r)) by {
      FormatHole(rest, x, args);
      FormatPlain(a, t, xs);
    }
    assert a + "{}" + rest == a + t;
    assert a + (x + r) == a + x + r;
  }

  lemma TagShape(envId: string, fioId: string)
    ensures Tag(envId, fioId) == "baselines/" + "{}" + (("/" + envId + "/") + "{}" + ("/" + fioId))
  {
    var a, h, sl := "baselines/", "{}", "/";
    assert "baselines/{}/" == a + h + sl;
    assert "/{}/" == sl + h + sl;
    calc {
      Tag(envId, fioId);
      (a + h + sl) + envId + (sl + h + sl) + fioId;
      { Associative(a + h, sl, envId); }
      (a + h + (sl + envId)) + (sl + h + sl) + fioId;
      { Associative(a + h, sl + envId, sl + h + sl); }
      a + h + (sl + envId + (sl + h + sl)) + fioId;
      { Associative(a + h, sl + envId + (sl + h + sl), fioId); }
      a + h + (sl + envId + (sl + h + sl) + fioId);
      { Associative(sl + envId, sl, h + sl);
        Associative(sl + envId + sl, h, sl);
        Associative(sl + envId + sl + h, sl, fioId); }
      a + h + ((sl + envId + sl) + h + (sl + fioId));
    }
  }

  /** With env_id and fio_id free of braces, get looks up the key
      `baselines/<ms>/<env_id>/<st>/<fio_id>`. */
  lemma FormatTag(envId: string, fioId: string, ms: string, st: string)
    requires NoBraces(envId) && NoBraces(fioId)
    ensures Format(Tag(envId, fioId), [ms, st]) == Ok("baselines/" + ms + "/" + envId + "/" + st + "/" + fioId)
  {
    var mid, tail := "/" + envId + "/", "/" + fioId;
    assert NoBraces(mid) by {
      assert forall c :: c in mid ==> c == '/' || c in envId;
    }
    assert NoBraces(tail) by {
      assert forall c :: c in tail ==> c == '/' || c in fioId;
    }
    assert Format(tail, []) == Ok(tail) by {
      FormatPlain(tail, [], []);
      assert tail + [] == tail;
    }
    var inner := mid + "{}" + tail;
    assert Format(inner, [st]) == Ok(mid + st + tail) by {
      FormatField(mid, tail, st, []);
      assert [st] + [] == [st];
    }
    assert Format(Tag(envId, fioId), [ms, st]) == Ok("baselines/" + ms + (mid + st + tail)) by {
      FormatField("baselines/", inner, ms, [st]);
      assert [ms] + [st] == [ms, st];
      TagShape(envId, fioId);
    }
    calc {
      "baselines/" + ms + (mid + st + tail);
      { Associative("baselines/" + ms, mid + st, tail);
        Associative("baselines/" + ms, mid, st); }
      "baselines/" + ms + mid + st + tail;
      { Associative("baselines/" + ms, "/", envId);
        Associative("baselines/" + ms, "/" + envId, "/"); }
      "baselines/" + ms + "/" + envId + "/" + st + tail;
      { Associative("baselines/" + ms + "/" + envId + "/" + st, "/", fioId); }
      "baselines/" + ms + "/" + envId + "/" + st + "/" + fioId;
    }
  }

  // ---------------------------------------------------------------------
  // The lookup.

  /** The DictQuery lookup of a "/"-separated key path: each key looked up
      in the dict reached so far; None as soon as a key is missing, maps
      to null, or the value reached is not a dict. */
  function Query(root: Value, path: string): Option<Value> {
    Walk(root, Split(path, '/'))
  }

  function Walk(v: Value, keys: seq<string>): Option<Value>
    decreases |keys|
  {
    if keys == [] then Some(v)
    else if !v.Obj? then None
    else match Find(v.entries, keys[0])
      case None => None
      case Some(Null) => None
      case Some(child) => Walk(child, keys[1..])
  }

  /** A number as Python's arithmetic sees it: booleans count as 0 and 1. */
  function Numeric(v: Value): Option<real> {
    match v
    case Num(n) => Some(n)
    case Bool(b) => Some(if b then 1.0 else 0.0)
    case _ => None
  }

  /** `p` percent of `t`. */
  function Percent(p: real, t: real): real {
    p * t / 100.0
  }

  /** `delta_percentage * target / 100`: TypeError unless both are numbers
      (a missing key reads as None). */
  function Delta(deltaPercentage: Value, target: Value): Result<real> {
    match (Numeric(deltaPercentage), Numeric(target))
    case (Some(p), Some(t)) => Ok(Percent(p, t))
    case _ => Err(TypeError)
  }

  /** `BlockBaselinesProvider.get(ms_name, st_name)` over the provider's
      dict and key template: None when nothing (or something falsy) is
      stored under the key; otherwise the stored target and the delta its
      percentage gives. */
  function GetBaseline(baselines: Value, tag: string, ms: string, st: string): Result<Option<Baseline>> {
    var key :- Format(tag, [ms, st]);
    match Query(baselines, key)
    case None => Ok(None)
    case Some(entry) => EntryBaseline(entry)
  }

  /** What get makes of the entry stored under its key. */
  function EntryBaseline(entry: Value): Result<Option<Baseline>> {
    if !Truthy(entry) then Ok(None)
    else
      match GetOrNull(entry, "target")
      case Err(e) => Err(e)
      case Ok(target) =>
        // the entry is a dict here, so the second `.get` cannot fail
        var deltaPercentage := GetOrNull(entry, "delta_percentage").value;
        var delta :- Delta(deltaPercentage, target);
        Ok(Some(Baseline(target, delta)))
  }

  /** The provider of one (env_id, fio_id) pair. */
  class BlockBaselinesProvider {
    /** The dict the provider's DictQuery wraps. */
    var baselines: Value
    /** `_tag`, the key template with the ms and st places left open. */
    var tag: string

    constructor (baselines: Value, tag: string)
      ensures this.baselines == baselines && this.tag == tag
    {
      this.baselines := baselines;
      this.tag := tag;
    }

    function Get(ms: string, st: string): Result<Option<Baseline>>
      reads this
    {
      GetBaseline(baselines, tag, ms, st)
    }
  }

  /** `BlockBaselinesProvider(env_id, fio_id)` on a host whose CPU model is
      `cpuModel`: the CPU entry selected, then the key template. */
  method NewProvider(config: Value, cpuModel: string, envId: string, fioId: string)
    returns (r: Result<BlockBaselinesProvider>)
    ensures r.Err? <==> SelectBaselines(config, cpuModel).Err?
    ensures r.Err? ==> r.error == SelectBaselines(config, cpuModel).error
    ensures r.Ok? ==> && fresh(r.value)
                      && r.value.baselines == SelectBaselines(config, cpuModel).value
                      && r.value.tag == Tag(envId, fioId)
  {
    var selected := SelectBaselines(config, cpuModel);
    if selected.Err? {
      return Err(selected.error);
    }
    var provider := new BlockBaselinesProvider(selected.value, Tag(envId, fioId));
    return Ok(provider);
  }

  /** A stored entry with numeric target and percentage gives that target
      unchanged, and the percentage of it as delta. */
  lemma GetFound(baselines: Value, envId: string, fioId: string, ms: string, st: string, entries: seq<(string, Value)>, t: real, p: real)
    requires NoBraces(envId) && NoBraces(fioId)
    requires Query(baselines, "baselines/" + ms + "/" + envId + "/" + st + "/" + fioId) == Some(Obj(entries))
    requires Find(entries, "target") == Some(Num(t)) && Find(entries, "delta_percentage") == Some(Num(p))
    ensures GetBaseline(baselines, Tag(envId, fioId), ms, st) == Ok(Some(Baseline(Num(t), Percent(p, t))))
  {
    FormatTag(envId, fioId, ms, st);
    EntryFound(entries, t, p);
  }

  lemma EntryFound(entries: seq<(string, Value)>, t: real, p: real)
    requires Find(entries, "target") == Some(Num(t)) && Find(entries, "delta_percentage") == Some(Num(p))
    ensures EntryBaseline(Obj(entries)) == Ok(Some(Baseline(Num(t), Percent(p, t))))
  {
    var entry := Obj(entries);
    assert Truthy(entry);
    assert GetOrNull(entry, "target") == Ok(Num(t));
    assert GetOrNull(entry, "delta_percentage") == Ok(Num(p));
    assert Numeric(Num(p)) == Some(p) && Numeric(Num(t)) == Some(t);
    assert Delta(Num(p), Num(t)) == Ok(Percent(p, t));
  }

  /** Nothing (or something falsy) stored under the key gives None, never
      an exception. */
  lemma GetMissing(baselines: Value, envId: string, fioId: string, ms: string, st: string)
    requires NoBraces(envId) && NoBraces(fioId)
    requires var q := Query(baselines, "baselines/" + ms + "/" + envId + "/" + st + "/" + fioId);
      q.None? || !Truthy(q.value)
    ensures GetBaseline(baselines, Tag(envId, fioId), ms, st) == Ok(None)
  {
    FormatTag(envId, fioId, ms, st);
  }

  /** A truthy entry that is not a dict has no `.get`, and a dict entry
      lacking a numeric target or percentage fails the arithmetic. */
  lemma GetFails(baselines: Value, envId: string, fioId: string, ms: string, st: string)
    requires NoBraces(envId) && NoBraces(fioId)
    requires var q := Query(baselines, "baselines/" + ms + "/" + envId + "/" + st + "/" + fioId);
      q.Some? && Truthy(q.value)
    ensures var entry := Query(baselines, "baselines/" + ms + "/" + envId + "/" + st + "/" + fioId).value;
      var r := GetBaseline(baselines, Tag(envId, fioId), ms, st);
      && (!entry.Obj? ==> r == Err(AttributeError))
      && (entry.Obj? ==>
            (r.Ok? <==> (&& Numeric(GetOrNull(entry, "target").value).Some?
                         && Numeric(GetOrNull(entry, "delta_percentage").value).Some?)))
      && (entry.Obj? && r.Err? ==> r.error == TypeError)
  {
    FormatTag(envId, fioId, ms, st);
  }

  /** On a host whose CPU model the configuration does not list, the
      provider wraps an empty dict and get answers None for every key. */
  lemma UnknownCpuNone(config: Value, cpuModel: string, cpus: seq<Value>, envId: string, fioId: string, ms: string, st: string)
    requires CpuEntries(config) == Ok(Arr(cpus))
    requires forall i :: 0 <= i < |cpus| ==> HasModel(cpus[i]) && !ForModel(cpus[i], cpuModel)
    requires NoBraces(envId) && NoBraces(fioId)
    ensures SelectBaselines(config, cpuModel) == Ok(Obj([]))
    ensures GetBaseline(SelectBaselines(config, cpuModel).value, Tag(envId, fioId), ms, st) == Ok(None)
  {
    SelectBaselinesSpec(config, cpuModel, cpus);
    assert FirstFor(cpus, cpuModel) == |cpus|;
    GetMissing(Obj([]), envId, fioId, ms, st);
  }

  /** A percentage between 0 and 100 of a non-negative target gives a
      delta between 0 and the target. */
  lemma DeltaWithinTarget(p: real, t: real)
    requires 0.0 <= p <= 100.0 && 0.0 <= t
    ensures Delta(Num(p), Num(t)).Ok?
    ensures 0.0 <= Delta(Num(p), Num(t)).value <= t
  {
    assert p * t <= 100.0 * t;
  }
}
