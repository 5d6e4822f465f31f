/** Python-level vocabulary shared by the model: the built-in exceptions the
    modelled code can raise, the Option and Result wrappers used in their
    place, and the built-ins `sum` and insertion-ordered key collection. */
module Python {

  datatype Option<+T> = None | Some(value: T)

  /** The exception classes that the modelled code can raise. */
  datatype PyError =
    | KeyError            // d[k] on a dict without k
    | IndexError          // s[i] out of range, or str.format with too few arguments
    | ValueError          // int() of a non-number, an unknown enum value, a bad unpacking
    | TypeError           // subscript of a non-container, arithmetic on non-numbers
    | AttributeError      // .get/.keys on something that is not a dict
    | ZeroDivisionError
    | AssertionError
    | StopIteration       // next() on an exhausted iterator
    | JSONDecodeError     // json.loads of a line that is not JSON

  /** Either the value a Python expression produces, or the exception it raises. */
  datatype Result<+T> = Ok(value: T) | Err(error: PyError) {
    predicate IsFailure() { Err? }
    function PropagateFailure<U>(): Result<U> requires Err? { Err(error) }
    function Extract(): T requires Ok? { value }
  }

  /** The built-in `sum` over a list of ints. */
  function Sum(s: seq<int>): int {
    if s == [] then 0 else Sum(s[..|s| - 1]) + s[|s| - 1]
  }

  /** The built-in `sum` over a list of floats, with floats modelled as reals. */
  function RealSum(s: seq<real>): real {
    if s == [] then 0.0 else RealSum(s[..|s| - 1]) + s[|s| - 1]
  }

  /** The keys of an insertion-ordered dict into which the elements of `s`
      were inserted one after the other: each element once, at the place
      where it was first seen. */
  function Distinct<T(==)>(s: seq<T>): (r: seq<T>)
    ensures forall i :: 0 <= i < |r| ==> r[i] in s
    ensures forall i :: 0 <= i < |s| ==> s[i] in r
    ensures forall i, j :: 0 <= i < j < |r| ==> r[i] != r[j]
  {
    if s == [] then []
    else
      var d := Distinct(s[..|s| - 1]);
      if s[|s| - 1] in d then d else d + [s[|s| - 1]]
  }

  /** Adding an element to the end of the input adds it to the keys exactly
      when it was not seen before. */
  lemma DistinctSnoc<T>(s: seq<T>, x: T)
    ensures Distinct(s + [x]) == if x in s then Distinct(s) else Distinct(s) + [x]
  {
    assert (s + [x])[..|s|] == s;
  }

  /** The keys are exactly the elements inserted. */
  lemma DistinctHas<T>(s: seq<T>, x: T)
    ensures x in Distinct(s) <==> x in s
  {
    if x in s {
      var i :| 0 <= i < |s| && s[i] == x;
    }
  }

  lemma Associative<T>(x: seq<T>, y: seq<T>, z: seq<T>)
    ensures x + y + z == x + (y + z)
  {
  }

  /** A non-empty list is its front followed by its last element. */
  lemma FrontLast<T>(s: seq<T>)
    requires s != []
    ensures s[..|s| - 1] + [s[|s| - 1]] == s
  {
  }

  lemma SumSnoc(s: seq<int>, x: int)
    ensures Sum(s + [x]) == Sum(s) + x
  {
    assert (s + [x])[..|s|] == s;
  }

  lemma RealSumSnoc(s: seq<real>, x: real)
    ensures RealSum(s + [x]) == RealSum(s) + x
  {
    assert (s + [x])[..|s|] == s;
  }

  /** Every element between `lo` and `hi` puts the sum between |s|*lo and |s|*hi. */
  lemma {:induction false} RealSumBounds(s: seq<real>, lo: real, hi: real)
    requires forall i :: 0 <= i < |s| ==> lo <= s[i] <= hi
    ensures (|s| as real) * lo <= RealSum(s) <= (|s| as real) * hi
  {
    if s != [] {
      RealSumBounds(s[..|s| - 1], lo, hi);
    }
  }

  lemma {:induction false} RealSumBoundsN(s: seq<real>, n: nat, lo: real, hi: real)
    requires |s| == n
    requires forall i :: 0 <= i < |s| ==> lo <= s[i] <= hi
    ensures (n as real) * lo <= RealSum(s) <= (n as real) * hi
  {
    RealSumBounds(s, lo, hi);
  }

  /** The blocks of `blocks` one after the other. */
  function Flatten<T>(blocks: seq<seq<T>>): seq<T>
    decreases |blocks|
  {
    if blocks == [] then [] else Flatten(blocks[..|blocks| - 1]) + blocks[|blocks| - 1]
  }

  lemma {:induction false} FlattenConcat<T>(a: seq<seq<T>>, b: seq<seq<T>>)
    ensures Flatten(a + b) == Flatten(a) + Flatten(b)
    decreases |b|
  {
    if b == [] {
      assert a + b == a;
    } else {
      var n := |b| - 1;
      assert (a + b)[..|a + b| - 1] == a + b[..n];
      assert (a + b)[|a + b| - 1] == b[n];
      FlattenConcat(a, b[..n]);
      Associative(Flatten(a), Flatten(b[..n]), b[n]);
    }
  }

  /** Flattening the first `j + 1` blocks adds block `j` to the first `j`,
      and the rest follows. */
  lemma FlattenAt<T>(blocks: seq<seq<T>>, j: nat)
    requires j < |blocks|
    ensures Flatten(blocks[..j + 1]) == Flatten(blocks[..j]) + blocks[j]
    ensures Flatten(blocks) == Flatten(blocks[..j + 1]) + Flatten(blocks[j + 1..])
  {
    assert blocks[..j + 1][..j] == blocks[..j];
    FlattenConcat(blocks[..j + 1], blocks[j + 1..]);
    assert blocks[..j + 1] + blocks[j + 1..] == blocks;
  }
}
