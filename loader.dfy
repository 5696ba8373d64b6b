/**
 * The loader of the test generator: the document's `arr` list, already
 * parsed into a tree, is matched element by element against the two
 * tuple shapes of `NestedArray`, and the matched tuples are turned into
 * the entries of the stimulus program.
 */
module Loader {

  import opened Wrappers
  import opened Vectors

  /** A parsed document node: an integer, a list, or any other scalar or mapping. */
  datatype Node = Int(n: int) | List(items: seq<Node>) | Other

  /** `enum NestedArray`, one element of `arr`. */
  datatype NestedArray =
    | Simple(a: Byte, b: Byte, c: Byte)
    | WithAsserts(a: Byte, b: Byte, c: Byte, asserts: seq<Byte>)

  datatype LoadError =
    | NoVariantMatched(index: nat)        // the element at `index` fits neither shape
    | AssertIndexOutOfBounds(index: nat)  // `asserts[0]` or `asserts[1]` at `index` does not exist

  /** A `u8` read from a node. */
  function ReadU8(n: Node): Option<Byte>
  {
    if n.Int? && 0 <= n.n < 256 then Some(n.n) else None
  }

  /** A `Vec<u8>` read from a list of nodes; every element must be a `u8`. */
  function ReadU8s(ns: seq<Node>): (r: Option<seq<Byte>>)
    ensures r.Some? <==> forall i :: 0 <= i < |ns| ==> ReadU8(ns[i]).Some?
    ensures r.Some? ==> |r.value| == |ns| && forall i :: 0 <= i < |ns| ==> ns[i] == Int(r.value[i])
  {
    if |ns| == 0 then Some([])
    else
      var head := ReadU8(ns[0]);
      var tail := ReadU8s(ns[1..]);
      if head.None? || tail.None? then
        None
      else Some([head.value] + tail.value)
  }

  /** The `Simple(u8, u8, u8)` variant: exactly three `u8`. */
  function TrySimple(n: Node): Option<NestedArray>
  {
    if n.List? && |n.items| == 3 then
      var a, b, c := ReadU8(n.items[0]), ReadU8(n.items[1]), ReadU8(n.items[2]);
      if a.Some? && b.Some? && c.Some? then Some(Simple(a.value, b.value, c.value)) else None
    else None
  }

  /** The `WithAsserts(u8, u8, u8, Vec<u8>)` variant: three `u8` and a list of `u8`. */
  function TryWithAsserts(n: Node): Option<NestedArray>
  {
    if n.List? && |n.items| == 4 && n.items[3].List? then
      var a, b, c := ReadU8(n.items[0]), ReadU8(n.items[1]), ReadU8(n.items[2]);
      var l := ReadU8s(n.items[3].items);
      if a.Some? && b.Some? && c.Some? && l.Some? then Some(WithAsserts(a.value, b.value, c.value, l.value))
      else None
    else None
  }

  /** `#[serde(untagged)]`: the variants are tried in declaration order. */
  function ParseItem(n: Node): Option<NestedArray>
  {
    var s := TrySimple(n);
    if s.Some? then s else TryWithAsserts(n)
  }

  /** The node a tuple is written as; the inverse of ParseItem. */
  function ItemNode(item: NestedArray): Node
  {
    match item
    case Simple(a, b, c) => List([Int(a), Int(b), Int(c)])
    case WithAsserts(a, b, c, l) => List([Int(a), Int(b), Int(c), List(seq(|l|, i requires 0 <= i < |l| => Int(l[i])))])
  }

  /** Every tuple is recognised as itself. */
  lemma ParseItemOfNode(item: NestedArray)
    ensures ParseItem(ItemNode(item)) == Some(item)
  {
    var n := ItemNode(item);
    match item
    case Simple(a, b, c) =>
    case WithAsserts(a, b, c, l) =>
      var r := ReadU8s(n.items[3].items);
      assert r.Some? && r.value == l;
  }

  /** ...and a node is recognised only if it is exactly the node of what it is recognised as. */
  lemma NodeOfParseItem(n: Node)
    requires ParseItem(n).Some?
    ensures ItemNode(ParseItem(n).value) == n
  {
    var item := ParseItem(n).value;
    match item
    case Simple(a, b, c) =>
      assert n.items == [Int(a), Int(b), Int(c)];
    case WithAsserts(a, b, c, l) =>
      assert TrySimple(n).None?;
      var inner := n.items[3].items;
      assert inner == seq(|l|, i requires 0 <= i < |l| => Int(l[i]));
      assert n.items == [Int(a), Int(b), Int(c), List(inner)];
  }

  /** The body of the `for item in arr` loop; None where indexing `asserts` panics. */
  function ToEntry(item: NestedArray): Option<InputWithAsserts>
  {
    match item
    case Simple(a, b, c) => Some(InputWithAsserts(Input(a != 0, b, c != 0), None))
    case WithAsserts(a, b, c, l) =>
      if |l| < 2 then None
      else Some(InputWithAsserts(Input(a != 0, b, c != 0), Some(Assert(l[0] != 0, l[1] != 0))))
  }

  /** Deserialising `arr`: every element is parsed, or the first that fails is reported. */
  function ParseAll(arr: seq<Node>): (r: Result<seq<NestedArray>, nat>)
    ensures r.Ok? <==> forall i :: 0 <= i < |arr| ==> ParseItem(arr[i]).Some?
    ensures r.Ok? ==> |r.value| == |arr| && forall i :: 0 <= i < |arr| ==> ParseItem(arr[i]) == Some(r.value[i])
    ensures r.Err? ==> r.error < |arr| && ParseItem(arr[r.error]).None? &&
                       forall j :: 0 <= j < r.error ==> ParseItem(arr[j]).Some?
  {
    if |arr| == 0 then Ok([])
    else
      var front := ParseAll(arr[..|arr| - 1]);
      if front.Err? then Err(front.error)
      else
        var last := ParseItem(arr[|arr| - 1]);
        if last.None? then Err(|arr| - 1) else Ok(front.value + [last.value])
  }

  /** The loop over the parsed tuples: each becomes an entry, or the first panic is reported. */
  function ConvertAll(items: seq<NestedArray>): (r: Result<seq<InputWithAsserts>, LoadError>)
    ensures r.Ok? <==> forall i :: 0 <= i < |items| ==> ToEntry(items[i]).Some?
    ensures r.Ok? ==> |r.value| == |items| && forall i :: 0 <= i < |items| ==> ToEntry(items[i]) == Some(r.value[i])
    ensures r.Err? ==> r.error.AssertIndexOutOfBounds? && r.error.index < |items| &&
                       ToEntry(items[r.error.index]).None? &&
                       forall j :: 0 <= j < r.error.index ==> ToEntry(items[j]).Some?
  {
    if |items| == 0 then Ok([])
    else
      var front := ConvertAll(items[..|items| - 1]);
      if front.Err? then front
      else
        var last := ToEntry(items[|items| - 1]);
        if last.None? then Err(AssertIndexOutOfBounds(|items| - 1)) else Ok(front.value + [last.value])
  }

  /** `InputListWithAsserts::from_str`, as a function of the parsed `arr`. */
  function Load(arr: seq<Node>): Result<seq<InputWithAsserts>, LoadError>
  {
    match ParseAll(arr)
    case Err(k) => Err(NoVariantMatched(k))
    case Ok(items) => ConvertAll(items)
  }

  /**
   * `InputListWithAsserts::from_str`: deserialise `arr`, then push one entry
   * per tuple; indexing a short assertion list ends the load.
   */
  method FromStr(arr: seq<Node>) returns (r: Result<seq<InputWithAsserts>, LoadError>)
    ensures r == Load(arr)
  {
    var parsed := ParseAll(arr);
    if parsed.Err? {
      return Err(NoVariantMatched(parsed.error));
    }
    var items := parsed.value;
    var v: seq<InputWithAsserts> := [];
    var i := 0;
    while i < |items|
      invariant 0 <= i <= |items| && |v| == i
      invariant forall j :: 0 <= j < i ==> ToEntry(items[j]) == Some(v[j])
    {
      match items[i] {
        case Simple(a, b, c) =>
          v := v + [InputWithAsserts(Input(a != 0, b, c != 0), None)];
        case WithAsserts(a, b, c, asserts) =>
          if |asserts| < 2 {
            ghost var e := ConvertAll(items);
            assert ToEntry(items[i]).None?;
            assert e.Err? && e.error.index == i;
            return Err(AssertIndexOutOfBounds(i));
          }
          v := v + [InputWithAsserts(Input(a != 0, b, c != 0), Some(Assert(asserts[0] != 0, asserts[1] != 0)))];
      }
      i := i + 1;
    }
    assert ConvertAll(items).Ok? && ConvertAll(items).value == v;
    return Ok(v);
  }

  /** What one element of `arr` loads as: its tuple, then its entry. */
  function LoadItem(n: Node): Option<InputWithAsserts>
  {
    var item := ParseItem(n);
    if item.None? then None else ToEntry(item.value)
  }

  /**
   * Loading succeeds exactly when every element loads, and then it keeps
   * length and order: the i-th element gives the i-th entry.
   */
  lemma LoadElementwise(arr: seq<Node>)
    ensures Load(arr).Ok? <==> forall i :: 0 <= i < |arr| ==> LoadItem(arr[i]).Some?
    ensures Load(arr).Ok? ==>
      |Load(arr).value| == |arr| &&
      forall i :: 0 <= i < |arr| ==> LoadItem(arr[i]) == Some(Load(arr).value[i])
  {
    var p := ParseAll(arr);
    if p.Ok? {
      assert forall i :: 0 <= i < |arr| ==> LoadItem(arr[i]) == ToEntry(p.value[i]);
    } else {
      assert LoadItem(arr[p.error]).None?;
    }
  }

  /** The shape failure is reported at the first element that fits neither tuple shape. */
  lemma LoadShapeError(arr: seq<Node>, k: nat)
    ensures Load(arr) == Err(NoVariantMatched(k)) <==>
      k < |arr| && ParseItem(arr[k]).None? && forall j :: 0 <= j < k ==> ParseItem(arr[j]).Some?
  {
    var p := ParseAll(arr);
    if k < |arr| && ParseItem(arr[k]).None? && forall j :: 0 <= j < k ==> ParseItem(arr[j]).Some? {
      assert p.Err?;
      assert !(p.error < k) && !(k < p.error);
    }
  }

  /**
   * The panic on a short assertion list happens only once every element has
   * the right shape, at the first element whose list is short.
   */
  lemma LoadAssertError(arr: seq<Node>, k: nat)
    ensures Load(arr) == Err(AssertIndexOutOfBounds(k)) <==>
      (forall i :: 0 <= i < |arr| ==> ParseItem(arr[i]).Some?) &&
      k < |arr| && LoadItem(arr[k]).None? && forall j :: 0 <= j < k ==> LoadItem(arr[j]).Some?
  {
    var p := ParseAll(arr);
    if p.Ok? {
      ConvertFirstError(p.value, k);
      assert forall i :: 0 <= i < |arr| ==> LoadItem(arr[i]) == ToEntry(p.value[i]);
    }
  }

  /** The conversion loop stops at the first tuple whose assertion list is short, and only there. */
  lemma ConvertFirstError(items: seq<NestedArray>, k: nat)
    ensures ConvertAll(items) == Err(AssertIndexOutOfBounds(k)) <==>
      k < |items| && ToEntry(items[k]).None? && forall j :: 0 <= j < k ==> ToEntry(items[j]).Some?
  {
    var c := ConvertAll(items);
    if k < |items| && ToEntry(items[k]).None? && forall j :: 0 <= j < k ==> ToEntry(items[j]).Some? {
      assert !(c.error.index < k) && !(k < c.error.index);
    }
  }

  /** A three-number element `[a, b, c]` gives `reset = a != 0`, `number = b`, `first = c != 0`, no check. */
  lemma LoadSimpleRow(arr: seq<Node>, i: nat, a: int, b: int, c: int)
    requires Load(arr).Ok? && i < |arr| && arr[i] == List([Int(a), Int(b), Int(c)])
    ensures 0 <= a < 256 && 0 <= b < 256 && 0 <= c < 256
    ensures Load(arr).value[i] == InputWithAsserts(Input(a != 0, b, c != 0), None)
  {
    LoadElementwise(arr);
  }

  /**
   * An element `[a, b, c, l]` gives the same input and the check
   * `unlock = l[0] != 0`, `warning = l[1] != 0`; the list has at least two
   * numbers, and those after the second are ignored.
   */
  lemma LoadAssertRow(arr: seq<Node>, i: nat, a: int, b: int, c: int, l: seq<Node>)
    requires Load(arr).Ok? && i < |arr| && arr[i] == List([Int(a), Int(b), Int(c), List(l)])
    ensures 0 <= a < 256 && 0 <= b < 256 && 0 <= c < 256
    ensures |l| >= 2 && forall j :: 0 <= j < |l| ==> l[j].Int? && 0 <= l[j].n < 256
    ensures Load(arr).value[i] ==
      InputWithAsserts(Input(a != 0, b, c != 0), Some(Assert(l[0].n != 0, l[1].n != 0)))
  {
    LoadElementwise(arr);
    assert TrySimple(arr[i]).None?;
    assert forall j :: 0 <= j < |l| ==> ReadU8(l[j]).Some?;
  }

  /** `[0, 256, 0]`: 256 is not a `u8`, so the element fits no shape. */
  lemma OutOfRangeRejected()
    ensures Load([List([Int(0), Int(256), Int(0)])]) == Err(NoVariantMatched(0))
  {
    LoadShapeError([List([Int(0), Int(256), Int(0)])], 0);
  }

  /** `[0, 1, 0, [1]]` has the right shape but panics on `asserts[1]`. */
  lemma ShortAssertsRejected()
    ensures Load([List([Int(0), Int(1), Int(0), List([Int(1)])])]) == Err(AssertIndexOutOfBounds(0))
  {
    var arr := [List([Int(0), Int(1), Int(0), List([Int(1)])])];
    var l: seq<Byte> := [1];
    assert ItemNode(WithAsserts(0, 1, 0, l)) == arr[0] by {
      assert seq(|l|, i requires 0 <= i < |l| => Int(l[i])) == [Int(1)];
    }
    ParseItemOfNode(WithAsserts(0, 1, 0, l));
    LoadAssertError(arr, 0);
  }

  /** `arr` = `[0, 36, 1], [0, 19, 0], [0, 255, 0, [0, 0]]`: two plain cycles, then one with a check. */
  lemma ExampleLoads()
    ensures Load([List([Int(0), Int(36), Int(1)]),
                  List([Int(0), Int(19), Int(0)]),
                  List([Int(0), Int(255), Int(0), List([Int(0), Int(0)])])]) ==
            Ok([InputWithAsserts(Input(false, 36, true), None),
                InputWithAsserts(Input(false, 19, false), None),
                InputWithAsserts(Input(false, 255, false), Some(Assert(false, false)))])
  {
    var arr := [List([Int(0), Int(36), Int(1)]),
                List([Int(0), Int(19), Int(0)]),
                List([Int(0), Int(255), Int(0), List([Int(0), Int(0)])])];
    var l: seq<Byte> := [0, 0];
    assert ItemNode(WithAsserts(0, 255, 0, l)) == arr[2] by {
      assert seq(|l|, i requires 0 <= i < |l| => Int(l[i])) == [Int(0), Int(0)];
    }
    ParseItemOfNode(WithAsserts(0, 255, 0, l));
    LoadElementwise(arr);
    LoadSimpleRow(arr, 0, 0, 36, 1);
    LoadSimpleRow(arr, 1, 0, 19, 0);
    LoadAssertRow(arr, 2, 0, 255, 0, [Int(0), Int(0)]);
    var v := Load(arr).value;
    assert |v| == 3;
    assert v == [v[0], v[1], v[2]];
  }
}
