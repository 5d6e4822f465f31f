/** Decoded JSON values, as `json.load`/`json.loads` hand them to the modelled
    code, and the dict operations the code applies to them. */
module Json {
  import opened Python

  /** A decoded JSON value. An object is a dict: its entries in insertion
      order; a decoded object never holds two entries with the same key.
      JSON numbers are modelled as reals. */
  datatype Value =
    | Null
    | Bool(b: bool)
    | Num(n: real)
    | Str(s: string)
    | Arr(items: seq<Value>)
    | Obj(entries: seq<(string, Value)>)

  function Keys(entries: seq<(string, Value)>): (r: seq<string>)
    ensures |r| == |entries|
  {
    seq(|entries|, i requires 0 <= i < |entries| => entries[i].0)
  }

  predicate DistinctKeys(entries: seq<(string, Value)>) {
    forall i, j :: 0 <= i < j < |entries| ==> entries[i].0 != entries[j].0
  }

  /** The value stored under `k`, if any. */
  function Find(entries: seq<(string, Value)>, k: string): (r: Option<Value>)
    ensures r.None? <==> k !in Keys(entries)
    ensures r.Some? ==> exists i :: 0 <= i < |entries| && entries[i] == (k, r.value)
  {
    if entries == [] then None
    else if entries[0].0 == k then
      assert Keys(entries)[0] == k;
      Some(entries[0].1)
    else
      KeysCons(entries[0], entries[1..]);
      assert entries == [entries[0]] + entries[1..];
      Find(entries[1..], k)
  }

  /** `v[k]` with a string key: KeyError on a dict without `k`, TypeError on
      anything that is not a dict (lists and strings take integer indices). */
  function Index(v: Value, k: string): (r: Result<Value>)
    ensures r.Ok? <==> v.Obj? && k in Keys(v.entries)
    ensures r == Err(KeyError) <==> v.Obj? && k !in Keys(v.entries)
  {
    if !v.Obj? then Err(TypeError)
    else match Find(v.entries, k)
      case Some(x) => Ok(x)
      case None => Err(KeyError)
  }

  /** `v.get(k)`: the value under `k`, or None (Null) when absent;
      AttributeError on anything that is not a dict. */
  function GetOrNull(v: Value, k: string): (r: Result<Value>)
    ensures r.Err? <==> !v.Obj?
    ensures v.Obj? && k !in Keys(v.entries) ==> r == Ok(Null)
  {
    if !v.Obj? then Err(AttributeError)
    else match Find(v.entries, k)
      case Some(x) => Ok(x)
      case None => Ok(Null)
  }

  /** Python truthiness of a decoded value (`if v:`). */
  predicate Truthy(v: Value) {
    match v
    case Null => false
    case Bool(b) => b
    case Num(n) => n != 0.0
    case Str(s) => s != ""
    case Arr(items) => items != []
    case Obj(entries) => entries != []
  }

  /** `d[k] = v` on a dict: an existing key keeps its place and takes the new
      value; a new key goes to the end. */
  function Update(entries: seq<(string, Value)>, k: string, v: Value): (r: seq<(string, Value)>)
    ensures Keys(r) == if k in Keys(entries) then Keys(entries) else Keys(entries) + [k]
  {
    if entries == [] then [(k, v)]
    else if entries[0].0 == k then
      assert Keys(entries)[0] == k;
      KeysCons(entries[0], entries[1..]);
      KeysCons((k, v), entries[1..]);
      [(k, v)] + entries[1..]
    else
      var rest := Update(entries[1..], k, v);
      KeysCons(entries[0], entries[1..]);
      KeysCons(entries[0], rest);
      assert entries == [entries[0]] + entries[1..];
      assert k in Keys(entries) <==> k in Keys(entries[1..]);
      assert [entries[0].0] + (Keys(entries[1..]) + [k]) == Keys(entries) + [k];
      [entries[0]] + rest
  }

  lemma KeysCons(e: (string, Value), rest: seq<(string, Value)>)
    ensures Keys([e] + rest) == [e.0] + Keys(rest)
  {
    assert forall i :: 0 <= i < |rest| ==> Keys([e] + rest)[i + 1] == Keys(rest)[i];
  }

  lemma FindCons(e: (string, Value), rest: seq<(string, Value)>, k: string)
    ensures Find([e] + rest, k) == if e.0 == k then Some(e.1) else Find(rest, k)
  {
    assert ([e] + rest)[1..] == rest;
  }

  /** After `d[k] = v`, `k` maps to `v` and every other key to what it did before. */
  lemma {:induction false} UpdateFind(entries: seq<(string, Value)>, k: string, v: Value, k': string)
    ensures Find(Update(entries, k, v), k') == if k' == k then Some(v) else Find(entries, k')
  {
    if entries != [] {
      FindCons(entries[0], entries[1..], k');
      assert entries == [entries[0]] + entries[1..];
      if entries[0].0 == k {
        FindCons((k, v), entries[1..], k');
      } else {
        UpdateFind(entries[1..], k, v, k');
        FindCons(entries[0], Update(entries[1..], k, v), k');
      }
    }
  }

  /** `{**a, **b}`-style merge: the entries of `b` written into `a` one by one. */
  function Merge(a: seq<(string, Value)>, b: seq<(string, Value)>): seq<(string, Value)>
    decreases |b|
  {
    if b == [] then a else Merge(Update(a, b[0].0, b[0].1), b[1..])
  }

  /** Looking a key up after a merge finds it in `b` when `b` has it, and
      in `a` otherwise. */
  lemma {:induction false} MergeFind(a: seq<(string, Value)>, b: seq<(string, Value)>, k: string)
    requires DistinctKeys(b)
    ensures Find(Merge(a, b), k) == if k in Keys(b) then Find(b, k) else Find(a, k)
    decreases |b|
  {
    if b != [] {
      var a' := Update(a, b[0].0, b[0].1);
      assert DistinctKeys(b[1..]);
      MergeFind(a', b[1..], k);
      UpdateFind(a, b[0].0, b[0].1, k);
      FindCons(b[0], b[1..], k);
      assert b == [b[0]] + b[1..];
      KeysCons(b[0], b[1..]);
      if k == b[0].0 {
        assert k !in Keys(b[1..]);
      }
    }
  }

  /** Keys new to `a` follow its own, in `b`'s order. */
  lemma {:induction false} MergeKeys(a: seq<(string, Value)>, b: seq<(string, Value)>)
    requires DistinctKeys(b)
    requires forall k :: k in Keys(b) ==> k !in Keys(a)
    ensures Keys(Merge(a, b)) == Keys(a) + Keys(b)
    decreases |b|
  {
    if b != [] {
      var first, rest := b[0], b[1..];
      var a' := Update(a, first.0, first.1);
      assert b == [first] + rest;
      KeysCons(first, rest);
      assert DistinctKeys(rest);
      assert first.0 !in Keys(rest) by {
        assert forall i :: 0 <= i < |rest| ==> Keys(rest)[i] == b[i + 1].0;
      }
      assert Keys(a') == Keys(a) + [first.0];
      assert forall k :: k in Keys(rest) ==> k !in Keys(a') by {
        assert forall k :: k in Keys(rest) ==> k in Keys(b);
      }
      MergeKeys(a', rest);
      Associative(Keys(a), [first.0], Keys(rest));
    }
  }

  /** Storing a key the dict does not hold appends it. */
  lemma {:induction false} UpdateNew(entries: seq<(string, Value)>, k: string, v: Value)
    requires k !in Keys(entries)
    ensures Update(entries, k, v) == entries + [(k, v)]
  {
    if entries != [] {
      KeysCons(entries[0], entries[1..]);
      assert entries == [entries[0]] + entries[1..];
      UpdateNew(entries[1..], k, v);
    }
  }

  /** Rebuilding a dict with distinct keys entry by entry: each key is new
      when it is stored, so it goes last. */
  lemma UpdatePrefix(entries: seq<(string, Value)>, i: nat, v: Value)
    requires DistinctKeys(entries) && i < |entries|
    ensures Update(entries[..i], entries[i].0, v) == entries[..i] + [(entries[i].0, v)]
  {
    assert entries[i].0 !in Keys(entries[..i]) by {
      assert forall j :: 0 <= j < i ==> Keys(entries[..i])[j] == entries[j].0;
    }
    UpdateNew(entries[..i], entries[i].0, v);
  }

  /** In a dict with distinct keys each entry is what its key finds. */
  lemma {:induction false} FindEntry(entries: seq<(string, Value)>, i: nat)
    requires DistinctKeys(entries) && i < |entries|
    ensures Find(entries, entries[i].0) == Some(entries[i].1)
  {
    if i > 0 {
      assert entries[0].0 != entries[i].0;
      assert DistinctKeys(entries[1..]);
      FindEntry(entries[1..], i - 1);
    }
  }
}
