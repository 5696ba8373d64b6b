/**
 * The statements of the stimulus process that the generator writes, and a
 * reader for them: whitespace between statements is insignificant, and
 * every statement ends at its first `;`.
 */
module Vhdl {

  import opened Wrappers
  import opened Vectors
  import opened Hex

  /** The statement forms the stimulus body is made of. */
  datatype Stmt =
    | DriveReset(bit: bool)        // reset <= '0' / '1'
    | DriveNumber(value: Byte)     // number <= x"hh"
    | DriveFirst(bit: bool)        // first <= '0' / '1'
    | WaitClock                    // wait for CLK_PERIOD
    | CheckUnlock(bit: bool)       // assert unlock = ... report "Unlock error"
    | CheckWarning(bit: bool)      // assert warning = ... report "Warning error"
    | Halt                         // wait (suspends the process for good)

  /** `if b { '1' } else { '0' }`. */
  function BitChar(b: bool): char
  {
    if b then '1' else '0'
  }

  /** The text of a statement up to, not including, its `;`. */
  function StmtBody(s: Stmt): string
  {
    match s
    case DriveReset(b) => "reset <= '" + [BitChar(b)] + "'"
    case DriveNumber(v) => "number <= x\"" + Hex2(v) + "\""
    case DriveFirst(b) => "first <= '" + [BitChar(b)] + "'"
    case WaitClock => "wait for CLK_PERIOD"
    case CheckUnlock(b) => "assert unlock = '" + [BitChar(b)] + "' report \"Unlock error\" severity error"
    case CheckWarning(b) => "assert warning = '" + [BitChar(b)] + "' report \"Warning error\" severity error"
    case Halt => "wait"
  }

  function StmtText(s: Stmt): string
  {
    StmtBody(s) + ";"
  }

  /** The four statement forms that carry one bit. */
  datatype Slot = ResetSlot | FirstSlot | UnlockSlot | WarningSlot

  function FillBit(slot: Slot, b: bool): Stmt
  {
    match slot
    case ResetSlot => DriveReset(b)
    case FirstSlot => DriveFirst(b)
    case UnlockSlot => CheckUnlock(b)
    case WarningSlot => CheckWarning(b)
  }

  /** How a statement's text is laid out: fixed, or a bit or a byte between fixed text. */
  datatype Form =
    | Fixed(text: string, stmt: Stmt)
    | BitForm(prefix: string, slot: Slot, suffix: string)
    | ByteForm(prefix: string, suffix: string)

  /** The table of forms the reader knows, in the order it tries them. */
  const Forms: seq<Form> := [
    Fixed("wait", Halt),
    Fixed("wait for CLK_PERIOD", WaitClock),
    BitForm("reset <= '", ResetSlot, "'"),
    ByteForm("number <= x\"", "\""),
    BitForm("first <= '", FirstSlot, "'"),
    BitForm("assert unlock = '", UnlockSlot, "' report \"Unlock error\" severity error"),
    BitForm("assert warning = '", WarningSlot, "' report \"Warning error\" severity error")
  ]

  /** True when `t` starts with `prefix`, ends with `suffix`, and has `width` characters between. */
  predicate Framed(t: string, prefix: string, width: nat, suffix: string)
  {
    |t| == |prefix| + width + |suffix| && t[..|prefix|] == prefix && t[|prefix| + width..] == suffix
  }

  /** Reads `t` with one form. */
  function Match(t: string, f: Form): (r: Option<Stmt>)
  {
    match f
    case Fixed(text, stmt) => if t == text then Some(stmt) else None
    case BitForm(prefix, slot, suffix) =>
      if Framed(t, prefix, 1, suffix) && (t[|prefix|] == '0' || t[|prefix|] == '1')
      then Some(FillBit(slot, t[|prefix|] == '1'))
      else None
    case ByteForm(prefix, suffix) =>
      if Framed(t, prefix, 2, suffix) then
        var v := Unhex2(t[|prefix|..|prefix| + 2]);
        if v.Some? then Some(DriveNumber(v.value)) else None
      else None
  }

  /** Reads `t` with the first form in `fs` that fits. */
  function MatchFirst(t: string, fs: seq<Form>): Option<Stmt>
  {
    if |fs| == 0 then None
    else
      var r := Match(t, fs[0]);
      if r.Some? then r else MatchFirst(t, fs[1..])
  }

  /** Reads one statement's text (without its `;`). */
  function ParseBody(t: string): Option<Stmt>
  {
    MatchFirst(t, Forms)
  }

  lemma FramedOf(prefix: string, mid: string, suffix: string)
    ensures Framed(prefix + mid + suffix, prefix, |mid|, suffix)
    ensures (prefix + mid + suffix)[|prefix|..|prefix| + |mid|] == mid
  {
    var t := prefix + mid + suffix;
    assert t[..|prefix|] == prefix;
    assert t[|prefix| + |mid|..] == suffix;
  }

  /** A form whose first character differs from the text's does not read it. */
  lemma MatchMiss(t: string, f: Form)
    requires |t| > 0
    requires f.Fixed? ==> |f.text| > 0 && f.text[0] != t[0]
    requires f.BitForm? ==> |f.prefix| > 0 && f.prefix[0] != t[0]
    requires f.ByteForm? ==> |f.prefix| > 0 && f.prefix[0] != t[0]
    ensures Match(t, f).None?
  {
    match f
    case Fixed(text, _) =>
    case BitForm(prefix, _, suffix) =>
      if |prefix| <= |t| { assert t[..|prefix|][0] != prefix[0]; }
    case ByteForm(prefix, suffix) =>
      if |prefix| <= |t| { assert t[..|prefix|][0] != prefix[0]; }
  }

  lemma MatchBit(prefix: string, slot: Slot, b: bool, suffix: string)
    ensures Match(prefix + [BitChar(b)] + suffix, BitForm(prefix, slot, suffix)) == Some(FillBit(slot, b))
  {
    FramedOf(prefix, [BitChar(b)], suffix);
    assert (prefix + [BitChar(b)] + suffix)[|prefix|] == BitChar(b);
  }

  /** The reader uses the first form of the table that fits. */
  lemma {:induction false} MatchFirstAt(t: string, fs: seq<Form>, k: nat)
    requires k < |fs|
    requires forall j :: 0 <= j < k ==> Match(t, fs[j]).None?
    requires Match(t, fs[k]).Some?
    ensures MatchFirst(t, fs) == Match(t, fs[k])
  {
    if k > 0 {
      assert forall j :: 0 <= j < k - 1 ==> fs[1..][j] == fs[j + 1];
      MatchFirstAt(t, fs[1..], k - 1);
    }
  }

  /** Reading a statement's text gives back the statement. */
  lemma ParseBodyRoundTrip(s: Stmt)
    ensures ParseBody(StmtBody(s)) == Some(s)
  {
    match s
    case Halt => MatchFirstAt(StmtBody(s), Forms, 0);
    case WaitClock =>
      assert Forms[0].text != StmtBody(s);
      MatchFirstAt(StmtBody(s), Forms, 1);
    case DriveReset(b) => ParseDriveReset(b);
    case DriveNumber(v) => ParseDriveNumber(v);
    case DriveFirst(b) => ParseDriveFirst(b);
    case CheckUnlock(b) => ParseCheckUnlock(b);
    case CheckWarning(b) => ParseCheckWarning(b);
  }

  lemma ParseDriveReset(b: bool)
    ensures ParseBody(StmtBody(DriveReset(b))) == Some(DriveReset(b))
  {
    var t := StmtBody(DriveReset(b));
    MatchMiss(t, Forms[0]);
    MatchMiss(t, Forms[1]);
    MatchBit("reset <= '", ResetSlot, b, "'");
    MatchFirstAt(t, Forms, 2);
  }

  lemma ParseDriveNumber(v: Byte)
    ensures ParseBody(StmtBody(DriveNumber(v))) == Some(DriveNumber(v))
  {
    var t := StmtBody(DriveNumber(v));
    MatchMiss(t, Forms[0]);
    MatchMiss(t, Forms[1]);
    MatchMiss(t, Forms[2]);
    FramedOf("number <= x\"", Hex2(v), "\"");
    Hex2RoundTrip(v);
    assert Match(t, Forms[3]) == Some(DriveNumber(v));
    MatchFirstAt(t, Forms, 3);
  }

  lemma ParseDriveFirst(b: bool)
    ensures ParseBody(StmtBody(DriveFirst(b))) == Some(DriveFirst(b))
  {
    var t := StmtBody(DriveFirst(b));
    MatchMiss(t, Forms[0]);
    MatchMiss(t, Forms[1]);
    MatchMiss(t, Forms[2]);
    MatchMiss(t, Forms[3]);
    MatchBit("first <= '", FirstSlot, b, "'");
    MatchFirstAt(t, Forms, 4);
  }

  lemma ParseCheckUnlock(b: bool)
    ensures ParseBody(StmtBody(CheckUnlock(b))) == Some(CheckUnlock(b))
  {
    var t := StmtBody(CheckUnlock(b));
    MatchMiss(t, Forms[0]);
    MatchMiss(t, Forms[1]);
    MatchMiss(t, Forms[2]);
    MatchMiss(t, Forms[3]);
    MatchMiss(t, Forms[4]);
    MatchBit("assert unlock = '", UnlockSlot, b, "' report \"Unlock error\" severity error");
    MatchFirstAt(t, Forms, 5);
  }

  lemma ParseCheckWarning(b: bool)
    ensures ParseBody(StmtBody(CheckWarning(b))) == Some(CheckWarning(b))
  {
    var t := StmtBody(CheckWarning(b));
    var unlock := Forms[5];
    MatchMiss(t, Forms[0]);
    MatchMiss(t, Forms[1]);
    MatchMiss(t, Forms[2]);
    MatchMiss(t, Forms[3]);
    MatchMiss(t, Forms[4]);
    assert t[..|unlock.prefix|][7] == 'w' != unlock.prefix[7];
    MatchBit("assert warning = '", WarningSlot, b, "' report \"Warning error\" severity error");
    MatchFirstAt(t, Forms, 6);
  }

  /** `f` reads a text only as a statement whose text it is. */
  ghost predicate FormSound(t: string, f: Form)
  {
    Match(t, f).Some? ==> StmtBody(Match(t, f).value) == t
  }

  lemma {:induction false} MatchFirstSound(t: string, fs: seq<Form>)
    requires forall k :: 0 <= k < |fs| ==> FormSound(t, fs[k])
    ensures MatchFirst(t, fs).Some? ==> StmtBody(MatchFirst(t, fs).value) == t
    decreases |fs|
  {
    if |fs| > 0 && Match(t, fs[0]).None? {
      assert forall k :: 0 <= k < |fs| - 1 ==> fs[1..][k] == fs[k + 1];
      MatchFirstSound(t, fs[1..]);
    }
  }

  lemma BitFormSound(t: string, prefix: string, slot: Slot, suffix: string)
    requires StmtBody(FillBit(slot, false)) == prefix + "0" + suffix
    requires StmtBody(FillBit(slot, true)) == prefix + "1" + suffix
    ensures FormSound(t, BitForm(prefix, slot, suffix))
  {
    if Match(t, BitForm(prefix, slot, suffix)).Some? {
      var c := t[|prefix|];
      assert Framed(t, prefix, 1, suffix) && (c == '0' || c == '1');
      assert Match(t, BitForm(prefix, slot, suffix)).value == FillBit(slot, c == '1');
      assert t == t[..|prefix|] + [c] + t[|prefix| + 1..];
      assert t == prefix + [c] + suffix;
      if c == '1' {
        assert [c] == "1";
      } else {
        assert [c] == "0";
      }
    }
  }

  lemma ByteFormSound(t: string)
    ensures FormSound(t, Forms[3])
  {
    var prefix, suffix := Forms[3].prefix, Forms[3].suffix;
    if Match(t, Forms[3]).Some? {
      var mid := t[|prefix|..|prefix| + 2];
      Unhex2RoundTrip(mid);
      assert t == t[..|prefix|] + mid + t[|prefix| + 2..];
    }
  }

  /**
   * The other half of the round trip: a text the reader accepts is exactly
   * the text of the statement it yields, so no other spelling is accepted.
   */
  lemma ParseBodySound(t: string)
    ensures ParseBody(t).Some? ==> StmtBody(ParseBody(t).value) == t
  {
    BitFormSound(t, "reset <= '", ResetSlot, "'");
    ByteFormSound(t);
    BitFormSound(t, "first <= '", FirstSlot, "'");
    BitFormSound(t, "assert unlock = '", UnlockSlot, "' report \"Unlock error\" severity error");
    BitFormSound(t, "assert warning = '", WarningSlot, "' report \"Warning error\" severity error");
    MatchFirstSound(t, Forms);
  }

  predicate IsBlank(c: char)
  {
    c == ' ' || c == '\n' || c == '\t'
  }

  /** Index of the first `;` in `s`. */
  function FindSemicolon(s: string): (r: Option<nat>)
    ensures r.Some? ==> r.value < |s| && s[r.value] == ';' && ';' !in s[..r.value]
    ensures r.None? ==> ';' !in s
  {
    if |s| == 0 then None
    else if s[0] == ';' then Some(0)
    else
      var r := FindSemicolon(s[1..]);
      if r.None? then
        assert s == [s[0]] + s[1..];
        None
      else
        assert s[..r.value + 1] == [s[0]] + s[1..][..r.value];
        Some(r.value + 1)
  }

  /** `xs` in front of a read that succeeded; a failed read stays failed. */
  function Prepend(xs: seq<Stmt>, r: Option<seq<Stmt>>): Option<seq<Stmt>>
  {
    if r.Some? then Some(xs + r.value) else None
  }

  /**
   * Reads a stimulus text as a statement list: skips whitespace, reads up
   * to the next `;`, parses that statement and goes on; None when some
   * piece of text is not one of the known statements.
   */
  function ReadStatements(s: string): (r: Option<seq<Stmt>>)
    decreases |s|
  {
    if |s| == 0 then Some([])
    else if IsBlank(s[0]) then ReadStatements(s[1..])
    else
      var k := FindSemicolon(s);
      if k.None? then None
      else
        var st := ParseBody(s[..k.value]);
        if st.None? then None else Prepend([st.value], ReadStatements(s[k.value + 1..]))
  }

  predicate AllBlank(w: string)
  {
    forall i :: 0 <= i < |w| ==> IsBlank(w[i])
  }

  /** Whitespace in front of a text changes nothing that is read. */
  lemma {:induction false} ReadSkipsBlank(w: string, rest: string)
    requires AllBlank(w)
    ensures ReadStatements(w + rest) == ReadStatements(rest)
    decreases |w|
  {
    if |w| > 0 {
      assert (w + rest)[0] == w[0] && (w + rest)[1..] == w[1..] + rest;
      assert ReadStatements(w + rest) == ReadStatements(w[1..] + rest);
      ReadSkipsBlank(w[1..], rest);
    } else {
      assert w + rest == rest;
    }
  }

  lemma FindSemicolonAfter(a: string, b: string)
    requires ';' !in a
    ensures FindSemicolon(a + ";" + b) == Some(|a|)
  {
    var s := a + ";" + b;
    assert s[|a|] == ';' && s[|a|] in s;
    assert s[..|a|] == a;
    assert forall i :: 0 <= i < |a| ==> s[i] == a[i] && a[i] in a;
    var k := FindSemicolon(s).value;
  }

  lemma NoSemicolonInBody(s: Stmt)
    ensures ';' !in StmtBody(s)
  {
    match s
    case DriveReset(b) => NoSemicolonAround("reset <= '", [BitChar(b)], "'");
    case DriveNumber(v) =>
      var h := Hex2(v);
      assert h == [h[0], h[1]];
      NoSemicolonAround("number <= x\"", h, "\"");
    case DriveFirst(b) => NoSemicolonAround("first <= '", [BitChar(b)], "'");
    case WaitClock =>
    case CheckUnlock(b) => NoSemicolonInUnlock(b);
    case CheckWarning(b) => NoSemicolonInWarning(b);
    case Halt =>
  }

  lemma NoSemicolonInUnlock(b: bool)
    ensures ';' !in StmtBody(CheckUnlock(b))
  {
    NoSemicolonAround("assert unlock = '", [BitChar(b)], "' report \"Unlock error\" severity error");
  }

  lemma NoSemicolonInWarning(b: bool)
    ensures ';' !in StmtBody(CheckWarning(b))
  {
    NoSemicolonAround("assert warning = '", [BitChar(b)], "' report \"Warning error\" severity error");
  }

  lemma NoSemicolonAround(x: string, y: string, z: string)
    requires ';' !in x && ';' !in y && ';' !in z
    ensures ';' !in x + y + z
  {
  }

  /** A statement's text is read back as that statement, whatever follows it. */
  lemma ReadStatement(s: Stmt, rest: string)
    ensures ReadStatements(StmtText(s) + rest) == Prepend([s], ReadStatements(rest))
  {
    var body := StmtBody(s);
    var t := StmtText(s) + rest;
    assert t == body + ";" + rest;
    NoSemicolonInBody(s);
    FindSemicolonAfter(body, rest);
    ParseBodyRoundTrip(s);
    assert t[..|body|] == body && t[|body| + 1..] == rest;
    assert !IsBlank(t[0]) by {
      assert t[0] == body[0];
      match s
      case DriveNumber(_) =>
      case _ =>
    }
  }

  /**
   * `t` stands for the statements `xs`: whatever text follows it, reading
   * the whole gives `xs` and then what the following text gives.
   */
  ghost predicate ReadsAs(t: string, xs: seq<Stmt>)
  {
    forall rest :: ReadAfter(t, rest) == Prepend(xs, ReadStatements(rest))
  }

  /** What is read from `t` followed by `rest`. */
  function ReadAfter(t: string, rest: string): Option<seq<Stmt>>
  {
    ReadStatements(t + rest)
  }

  lemma PrependAssoc(xs: seq<Stmt>, ys: seq<Stmt>, r: Option<seq<Stmt>>)
    ensures Prepend(xs, Prepend(ys, r)) == Prepend(xs + ys, r)
  {
    if r.Some? {
      assert xs + (ys + r.value) == (xs + ys) + r.value;
    }
  }

  /** Whitespace stands for no statement. */
  lemma BlankReadsAsNothing(w: string)
    requires AllBlank(w)
    ensures ReadsAs(w, [])
  {
    forall rest
      ensures ReadAfter(w, rest) == Prepend([], ReadStatements(rest))
    {
      ReadSkipsBlank(w, rest);
      var r := ReadStatements(rest);
      assert r.Some? ==> [] + r.value == r.value;
    }
  }

  /** A statement's text stands for that statement. */
  lemma StmtReadsAs(s: Stmt)
    ensures ReadsAs(StmtText(s), [s])
  {
    forall rest
      ensures ReadAfter(StmtText(s), rest) == Prepend([s], ReadStatements(rest))
    {
      ReadStatement(s, rest);
    }
  }

  /** Texts written one after the other stand for their statements one after the other. */
  lemma ConcatReadsAs(t1: string, xs1: seq<Stmt>, t2: string, xs2: seq<Stmt>)
    requires ReadsAs(t1, xs1) && ReadsAs(t2, xs2)
    ensures ReadsAs(t1 + t2, xs1 + xs2)
  {
    forall rest
      ensures ReadAfter(t1 + t2, rest) == Prepend(xs1 + xs2, ReadStatements(rest))
    {
      assert ReadAfter(t1, t2 + rest) == Prepend(xs1, ReadStatements(t2 + rest));
      assert ReadAfter(t2, rest) == Prepend(xs2, ReadStatements(rest));
      ConcatAt(t1, xs1, t2, xs2, rest);
    }
  }

  /** One instance of ConcatReadsAs, for a given following text. */
  lemma ConcatAt(t1: string, xs1: seq<Stmt>, t2: string, xs2: seq<Stmt>, rest: string)
    requires ReadStatements(t1 + (t2 + rest)) == Prepend(xs1, ReadStatements(t2 + rest))
    requires ReadStatements(t2 + rest) == Prepend(xs2, ReadStatements(rest))
    ensures ReadStatements(t1 + t2 + rest) == Prepend(xs1 + xs2, ReadStatements(rest))
  {
    assert t1 + t2 + rest == t1 + (t2 + rest);
    PrependAssoc(xs1, xs2, ReadStatements(rest));
  }

  /** A text that stands for `xs`, read on its own, gives exactly `xs`. */
  lemma ReadAlone(t: string, xs: seq<Stmt>)
    requires ReadsAs(t, xs)
    ensures ReadStatements(t) == Some(xs)
  {
    assert t + "" == t;
    assert ReadAfter(t, "") == Prepend(xs, ReadStatements(""));
    assert xs + [] == xs;
  }
}
