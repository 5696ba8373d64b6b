/**
 * The test-vector builder that writes the tuples the loader reads: one
 * tuple per number of a sequence, with the first-flag raised on the first
 * tuple only, and optionally an all-zero expected-output list.
 */
module Generator {

  import opened Wrappers
  import opened Vectors
  import opened Loader

  /** The tuple written for one number: `[0, n, first]`, plus `[0, 0]` when asked. */
  function Row(n: int, first: bool, withAsserts: bool): Node
  {
    List([Int(0), Int(n), Int(if first then 1 else 0)] + (if withAsserts then [List([Int(0), Int(0)])] else []))
  }

  /** `generate_input(seq, with_asserts)` as a value. */
  function GeneratedRows(s: seq<int>, withAsserts: bool): seq<Node>
  {
    seq(|s|, i requires 0 <= i < |s| => Row(s[i], i == 0, withAsserts))
  }

  /**
   * `generate_input`: the first tuple, then one per remaining number.
   * `seq[0]` is read unconditionally, so the sequence must not be empty.
   */
  method GenerateInput(s: seq<int>, withAsserts: bool := false) returns (rv: seq<Node>)
    requires |s| > 0
    ensures rv == GeneratedRows(s, withAsserts)
    ensures |rv| == |s|
    ensures forall i :: 0 <= i < |rv| ==>
      rv[i].List? && |rv[i].items| == (if withAsserts then 4 else 3) &&
      rv[i].items[0] == Int(0) &&
      rv[i].items[1] == Int(s[i]) &&
      rv[i].items[2] == Int(if i == 0 then 1 else 0) &&
      (withAsserts ==> rv[i].items[3] == List([Int(0), Int(0)]))
  {
    rv := [];
    var tmp := [Int(0), Int(s[0]), Int(1)];
    if withAsserts {
      tmp := tmp + [List([Int(0), Int(0)])];
    }
    rv := rv + [List(tmp)];
    for i := 1 to |s|
      invariant |rv| == i
      invariant forall j :: 0 <= j < i ==> rv[j] == Row(s[j], j == 0, withAsserts)
    {
      tmp := [Int(0), Int(s[i]), Int(0)];
      if withAsserts {
        tmp := tmp + [List([Int(0), Int(0)])];
      }
      rv := rv + [List(tmp)];
    }
  }

  /** `reset()`: the tuple that asserts reset and nothing else. */
  function Reset(): Node
  {
    List([Int(1), Int(0), Int(0)])
  }

  /** The reset tuple loads as a cycle with reset asserted, number 0, no first-flag, no check. */
  lemma ResetLoads()
    ensures Load([Reset()]) == Ok([InputWithAsserts(Input(true, 0, false), None)])
  {
    LoadElementwise([Reset()]);
    LoadSimpleRow([Reset()], 0, 1, 0, 0);
    var v := Load([Reset()]).value;
    assert v == [v[0]];
  }

  /**
   * Generated tuples load exactly when every number is a `u8`, into one
   * cycle per number: reset low, that number, the first-flag on the first
   * cycle only, and an all-zero check on every cycle when asked.
   */
  lemma LoadGenerated(s: seq<int>, withAsserts: bool)
    ensures Load(GeneratedRows(s, withAsserts)).Ok? <==> forall i :: 0 <= i < |s| ==> 0 <= s[i] < 256
    ensures Load(GeneratedRows(s, withAsserts)).Ok? ==>
      var v := Load(GeneratedRows(s, withAsserts)).value;
      |v| == |s| &&
      forall i :: 0 <= i < |s| ==>
        v[i] == InputWithAsserts(Input(false, s[i], i == 0),
                                 if withAsserts then Some(Assert(false, false)) else None)
  {
    var rows := GeneratedRows(s, withAsserts);
    LoadElementwise(rows);
    forall i | 0 <= i < |s|
      ensures LoadItem(rows[i]).Some? <==> 0 <= s[i] < 256
      ensures 0 <= s[i] < 256 ==>
        LoadItem(rows[i]) == Some(InputWithAsserts(Input(false, s[i], i == 0),
                                                   if withAsserts then Some(Assert(false, false)) else None))
    {
      RowLoads(s[i], i == 0, withAsserts);
    }
  }

  /** A number outside `u8` makes loading fail at the first tuple that holds one. */
  lemma LoadGeneratedOutOfRange(s: seq<int>, withAsserts: bool, k: nat)
    requires k < |s| && !(0 <= s[k] < 256) && forall j :: 0 <= j < k ==> 0 <= s[j] < 256
    ensures Load(GeneratedRows(s, withAsserts)) == Err(NoVariantMatched(k))
  {
    var rows := GeneratedRows(s, withAsserts);
    forall j | 0 <= j <= k
      ensures ParseItem(rows[j]).Some? <==> 0 <= s[j] < 256
    {
      RowLoads(s[j], j == 0, withAsserts);
    }
    LoadShapeError(rows, k);
  }

  /**
   * One generated tuple is recognised exactly when its number is a byte,
   * and then loads as a cycle with reset low, that number, and the all-zero
   * check when asked.
   */
  lemma RowLoads(n: int, first: bool, withAsserts: bool)
    ensures ParseItem(Row(n, first, withAsserts)).Some? <==> 0 <= n < 256
    ensures LoadItem(Row(n, first, withAsserts)).Some? <==> 0 <= n < 256
    ensures 0 <= n < 256 ==>
      LoadItem(Row(n, first, withAsserts)) ==
        Some(InputWithAsserts(Input(false, n, first), if withAsserts then Some(Assert(false, false)) else None))
  {
    var r := Row(n, first, withAsserts);
    if withAsserts {
      assert TrySimple(r).None?;
      if 0 <= n < 256 {
        var item := WithAsserts(0, n, if first then 1 else 0, [0, 0]);
        assert ItemNode(item) == r by {
          var l: seq<Byte> := [0, 0];
          assert seq(|l|, i requires 0 <= i < |l| => Int(l[i])) == [Int(0), Int(0)];
        }
        ParseItemOfNode(item);
      }
    }
  }
}
