/** The parser's `nested_dict`: a dict whose missing keys spring into
    existence as further nested dicts. The parser only ever stores lists at
    a fixed depth below the root (cpu model, metric, kernel, rootfs,
    statistic, configuration), and populating later swaps each list for the
    baseline computed from it. */
module BaselineTree {
  import opened Python
  import opened Json

  datatype Tree =
    | Node(children: seq<(string, Tree)>)   // a nested dict, keys in insertion order
    | Samples(items: seq<Value>)             // a list of collected values
    | Computed(baseline: Value)              // the baseline that replaced a list

  function Labels(children: seq<(string, Tree)>): (r: seq<string>)
    ensures |r| == |children|
    ensures forall i :: 0 <= i < |children| ==> r[i] == children[i].0
  {
    seq(|children|, i requires 0 <= i < |children| => children[i].0)
  }

  predicate Unique(keys: seq<string>) {
    forall i, j :: 0 <= i < j < |keys| ==> keys[i] != keys[j]
  }

  lemma UniqueSnoc(keys: seq<string>, k: string)
    requires Unique(keys) && k !in keys
    ensures Unique(keys + [k])
  {
  }

  /** `parent[k]` on a dict that holds `k`. */
  function Child(children: seq<(string, Tree)>, k: string): Option<Tree> {
    if children == [] then None
    else if children[0].0 == k then Some(children[0].1)
    else Child(children[1..], k)
  }

  /** `parent[k] = t`: an existing key keeps its place, a new one goes last. */
  function Put(children: seq<(string, Tree)>, k: string, t: Tree): seq<(string, Tree)> {
    if children == [] then [(k, t)]
    else if children[0].0 == k then [(k, t)] + children[1..]
    else [children[0]] + Put(children[1..], k, t)
  }

  /** A key is found exactly when the dict holds it, and what is found is
      one of its entries. */
  lemma {:induction false} ChildSpec(children: seq<(string, Tree)>, k: string)
    ensures Child(children, k).None? <==> k !in Labels(children)
    ensures Child(children, k).Some? ==> (k, Child(children, k).value) in children
  {
    if children != [] {
      ChildSpec(children[1..], k);
      assert Labels(children) == [children[0].0] + Labels(children[1..]);
    }
  }

  lemma LabelsCons(e: (string, Tree), rest: seq<(string, Tree)>)
    ensures Labels([e] + rest) == [e.0] + Labels(rest)
  {
    assert forall i :: 0 < i <= |rest| ==> ([e] + rest)[i] == rest[i - 1];
  }

  /** Storing a key leaves the keys in place and adds a new one at the end. */
  lemma {:induction false} PutLabels(children: seq<(string, Tree)>, k: string, t: Tree)
    ensures Labels(Put(children, k, t)) == if k in Labels(children) then Labels(children) else Labels(children) + [k]
  {
    if children != [] {
      var first, rest := children[0], children[1..];
      assert children == [first] + rest;
      PutLabels(rest, k, t);
      LabelsCons(first, rest);
      if first.0 == k {
        LabelsCons((k, t), rest);
      } else {
        LabelsCons(first, Put(rest, k, t));
        Associative([first.0], Labels(rest), [k]);
      }
    }
  }

  /** Every entry after storing a key is the new one or an old one. */
  lemma {:induction false} PutMembers(children: seq<(string, Tree)>, k: string, t: Tree)
    ensures forall e | e in Put(children, k, t) :: e == (k, t) || e in children
  {
    if children != [] {
      PutMembers(children[1..], k, t);
      assert forall e | e in children[1..] :: e in children;
    }
  }

  /** After storing `k`, looking `k` up finds the new value and any other
      key what it found before. */
  lemma {:induction false} PutChild(children: seq<(string, Tree)>, k: string, t: Tree, k': string)
    ensures Child(Put(children, k, t), k') == if k' == k then Some(t) else Child(children, k')
  {
    if children != [] && children[0].0 != k {
      PutChild(children[1..], k, t, k');
    }
  }

  /** A tree of the shape the parser builds, `depth` levels of dicts above
      the lists: keys distinct at every level, every list non-empty. */
  predicate Collected(t: Tree, depth: nat)
    decreases t
  {
    if depth == 0 then t.Samples? && t.items != []
    else
      && t.Node?
      && Unique(Labels(t.children))
      && forall e | e in t.children :: Collected(e.1, depth - 1)
  }

  /** The entries of a dict; anything else reads as an empty one, which
      happens only off the trees the parser builds. */
  function ChildrenOf(t: Tree): seq<(string, Tree)> {
    if t.Node? then t.children else []
  }

  /** Appending `x` to the list under `path`, as in
      `if isinstance(d[..][c], list): d[..][c].append(x) else: d[..][c] = [x]`
      on a nested dict: missing dicts along the way are created. */
  function AppendAt(t: Tree, path: seq<string>, x: Value): Tree
    requires path != []
    decreases |path|
  {
    var k := path[0];
    var child :=
      if |path| == 1 then
        match Child(ChildrenOf(t), k)
        case Some(Samples(items)) => Samples(items + [x])
        case _ => Samples([x])
      else
        match Child(ChildrenOf(t), k)
        case Some(c) => AppendAt(c, path[1..], x)
        case None => AppendAt(Node([]), path[1..], x);
    Node(Put(ChildrenOf(t), k, child))
  }

  /** The subtree under `path`, if the dicts along it hold its keys. */
  function Lookup(t: Tree, path: seq<string>): Option<Tree>
    decreases |path|
  {
    if path == [] then Some(t)
    else if !t.Node? then None
    else match Child(t.children, path[0])
      case None => None
      case Some(c) => Lookup(c, path[1..])
  }

  /** The list collected under `path`, empty when there is none. */
  function Leaf(t: Tree, path: seq<string>): seq<Value> {
    match Lookup(t, path)
    case Some(Samples(items)) => items
    case _ => []
  }

  /** Appending keeps the parser's shape: the lists stay at the same depth,
      none of them empty, and keys stay distinct. */
  lemma {:induction false} AppendAtCollected(t: Tree, path: seq<string>, x: Value)
    requires path != [] && Collected(t, |path|)
    ensures Collected(AppendAt(t, path, x), |path|)
    decreases |path|, 1
  {
    AppendedChildCollected(t, path, x);
    PutCollected(t.children, path[0], AppendedChild(t, path, x), |path| - 1);
    AppendAtUnfold(t, path, x);
  }

  /** The subtree appended to has the shape of the one it replaces. */
  lemma {:induction false} AppendedChildCollected(t: Tree, path: seq<string>, x: Value)
    requires path != [] && Collected(t, |path|)
    ensures Collected(AppendedChild(t, path, x), |path| - 1)
    decreases |path|, 0
  {
    var k, cs := path[0], t.children;
    ChildSpec(cs, k);
    if |path| > 1 {
      match Child(cs, k)
      case Some(c) =>
        assert (k, c) in cs;
        AppendAtCollected(c, path[1..], x);
      case None =>
        AppendAtCollected(Node([]), path[1..], x);
    }
  }

  /** Storing a subtree of the right shape in a dict of the right shape
      keeps the dict's shape. */
  lemma PutCollected(cs: seq<(string, Tree)>, k: string, child: Tree, depth: nat)
    requires Unique(Labels(cs)) && forall e | e in cs :: Collected(e.1, depth)
    requires Collected(child, depth)
    ensures Collected(Node(Put(cs, k, child)), depth + 1)
  {
    PutMembers(cs, k, child);
    PutLabels(cs, k, child);
    if k !in Labels(cs) {
      UniqueSnoc(Labels(cs), k);
    }
  }

  lemma AppendAtUnfold(t: Tree, path: seq<string>, x: Value)
    requires path != []
    ensures AppendAt(t, path, x) == Node(Put(ChildrenOf(t), path[0], AppendedChild(t, path, x)))
  {
  }

  /** The subtree AppendAt puts under `path[0]`. */
  function AppendedChild(t: Tree, path: seq<string>, x: Value): Tree
    requires path != []
  {
    if |path| == 1 then
      match Child(ChildrenOf(t), path[0])
      case Some(Samples(items)) => Samples(items + [x])
      case _ => Samples([x])
    else
      match Child(ChildrenOf(t), path[0])
      case Some(c) => AppendAt(c, path[1..], x)
      case None => AppendAt(Node([]), path[1..], x)
  }

  /** Appending adds the path's first key to the root's keys if it is new,
      after the keys already there. */
  lemma AppendAtLabels(t: Tree, path: seq<string>, x: Value)
    requires path != []
    ensures Labels(AppendAt(t, path, x).children)
      == if path[0] in Labels(ChildrenOf(t)) then Labels(ChildrenOf(t)) else Labels(ChildrenOf(t)) + [path[0]]
  {
    AppendAtUnfold(t, path, x);
    PutLabels(ChildrenOf(t), path[0], AppendedChild(t, path, x));
  }

  lemma LookupEmpty(path: seq<string>)
    requires path != []
    ensures Lookup(Node([]), path) == None
  {
  }

  /** Appending to one path extends that path's list by `x` ... */
  lemma {:induction false} AppendAtHere(t: Tree, path: seq<string>, x: Value)
    requires path != []
    ensures Lookup(AppendAt(t, path, x), path) == Some(Samples(Leaf(t, path) + [x]))
    decreases |path|
  {
    var k := path[0];
    var child := AppendedChild(t, path, x);
    AppendAtUnfold(t, path, x);
    PutChild(ChildrenOf(t), k, child, k);
    assert Lookup(AppendAt(t, path, x), path) == Lookup(child, path[1..]);
    match Child(ChildrenOf(t), k)
    case Some(c) =>
      assert Lookup(t, path) == Lookup(c, path[1..]);
      if |path| > 1 {
        assert child == AppendAt(c, path[1..], x);
        AppendAtHere(c, path[1..], x);
      } else if !c.Samples? {
        assert [] + [x] == [x];
      }
    case None =>
      assert Leaf(t, path) == [];
      assert [] + [x] == [x];
      if |path| > 1 {
        assert child == AppendAt(Node([]), path[1..], x);
        AppendAtHere(Node([]), path[1..], x);
        LookupEmpty(path[1..]);
      }
  }

  /** ... and leaves every other path of the same depth as it was. */
  lemma {:induction false} AppendAtElsewhere(t: Tree, path: seq<string>, x: Value, other: seq<string>)
    requires path != []
    requires |other| == |path| && other != path
    ensures Lookup(AppendAt(t, path, x), other) == Lookup(t, other)
    decreases |path|
  {
    var k := path[0];
    AppendAtUnfold(t, path, x);
    PutChild(ChildrenOf(t), k, AppendedChild(t, path, x), other[0]);
    if other[0] == k {
      assert other[1..] != path[1..] by { assert other == [k] + other[1..] && path == [k] + path[1..]; }
      match Child(ChildrenOf(t), k)
      case Some(c) =>
        AppendAtElsewhere(c, path[1..], x, other[1..]);
      case None =>
        AppendAtElsewhere(Node([]), path[1..], x, other[1..]);
        LookupEmpty(other[1..]);
    }
  }

  /** `_populate_baselines`: every list replaced by the baseline computed
      from it; the dicts and their keys stay as they are. */
  function Populated(t: Tree, calculate: seq<Value> -> Value): (r: Tree)
    decreases t
  {
    match t
    case Node(children) =>
      Node(seq(|children|, i requires 0 <= i < |children| => (children[i].0, Populated(children[i].1, calculate))))
    case Samples(items) => Computed(calculate(items))
    case Computed(_) => t
  }

  /** The children of a populated dict, as Populated computes them. */
  function PopulatedChildren(children: seq<(string, Tree)>, calculate: seq<Value> -> Value): (r: seq<(string, Tree)>)
    ensures |r| == |children|
  {
    Populated(Node(children), calculate).children
  }

  /** Populating keeps every key of every dict where it was. */
  lemma PopulatedLabels(children: seq<(string, Tree)>, calculate: seq<Value> -> Value)
    ensures Labels(PopulatedChildren(children, calculate)) == Labels(children)
  {
  }

  lemma {:induction false} PopulatedChild(children: seq<(string, Tree)>, calculate: seq<Value> -> Value, k: string)
    ensures Child(PopulatedChildren(children, calculate), k)
      == match Child(children, k) case None => None case Some(c) => Some(Populated(c, calculate))
  {
    if children != [] {
      PopulatedChild(children[1..], calculate, k);
      assert PopulatedChildren(children, calculate)[1..] == PopulatedChildren(children[1..], calculate);
    }
  }

  /** What sits under a path after populating is what sat there before,
      populated: a list of values becomes the baseline computed from it,
      and a path that led nowhere still does. */
  lemma {:induction false} PopulatedLookup(t: Tree, path: seq<string>, calculate: seq<Value> -> Value)
    ensures Lookup(Populated(t, calculate), path)
      == match Lookup(t, path) case None => None case Some(s) => Some(Populated(s, calculate))
    decreases |path|
  {
    if path != [] && t.Node? {
      PopulatedChild(t.children, calculate, path[0]);
      match Child(t.children, path[0])
      case None =>
      case Some(c) => PopulatedLookup(c, path[1..], calculate);
    }
  }

  /** In particular the list under a full path becomes its baseline. */
  lemma PopulatedLeaf(t: Tree, path: seq<string>, calculate: seq<Value> -> Value)
    requires Collected(t, |path|)
    requires Leaf(t, path) != []
    ensures Lookup(Populated(t, calculate), path) == Some(Computed(calculate(Leaf(t, path))))
  {
    PopulatedLookup(t, path, calculate);
  }

  /** The top two levels of a tree the format step reads: a dict of
      dicts, keys distinct at the top. */
  predicate TwoLevels(t: Tree) {
    && t.Node?
    && Unique(Labels(t.children))
    && forall e | e in t.children :: e.1.Node?
  }

  /** A populated tree of the parser's shape keeps its top two levels. */
  lemma PopulatedTwoLevels(t: Tree, depth: nat, calculate: seq<Value> -> Value)
    requires depth >= 2 && Collected(t, depth)
    ensures TwoLevels(Populated(t, calculate))
  {
    var cs := t.children;
    var ps := PopulatedChildren(cs, calculate);
    PopulatedLabels(cs, calculate);
    forall e | e in ps
      ensures e.1.Node?
    {
      var i :| 0 <= i < |ps| && ps[i] == e;
      assert cs[i] in cs;
      assert Collected(cs[i].1, depth - 1);
      assert e.1 == Populated(cs[i].1, calculate);
    }
  }

  /** `_populate_baselines(key, parent)` over the entries of one dict:
      each list replaced in place by its baseline, each nested dict
      populated in turn. */
  method PopulateEntries(t: Tree, calculate: seq<Value> -> Value) returns (r: seq<(string, Tree)>)
    requires t.Node?
    ensures r == PopulatedChildren(t.children, calculate)
    decreases t
  {
    var children := t.children;
    r := children;
    for i := 0 to |children|
      invariant |r| == |children|
      invariant forall j :: 0 <= j < i ==> r[j] == (children[j].0, Populated(children[j].1, calculate))
      invariant forall j :: i <= j < |children| ==> r[j] == children[j]
    {
      var k, child := children[i].0, children[i].1;
      match child {
        case Samples(items) =>
          r := r[i := (k, Computed(calculate(items)))];
        case Node(_) =>
          var populated := PopulateEntries(child, calculate);
          r := r[i := (k, Node(populated))];
        case Computed(_) =>
      }
    }
  }

  /** The JSON a tree serialises to. */
  function ToJson(t: Tree): Value
    decreases t
  {
    match t
    case Node(children) =>
      Obj(seq(|children|, i requires 0 <= i < |children| => (children[i].0, ToJson(children[i].1))))
    case Samples(items) => Arr(items)
    case Computed(baseline) => baseline
  }
}
