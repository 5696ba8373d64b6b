/**
 * The emitters of the test generator: one entry of the stimulus program is
 * written as three signal assignments, one clock wait and, when the entry
 * carries expected outputs, two assertions; the list is joined with
 * newlines and closed with `wait;`; the testbench wraps it in a fixed
 * preamble and footer. Every text is the exact string the templates
 * produce, indentation included.
 */
module Emitter {

  import opened Wrappers
  import opened Vectors
  import opened Hex
  import opened Vhdl

  function Spaces(n: nat): (w: string)
    ensures |w| == n && AllBlank(w)
  {
    seq(n, _ => ' ')
  }

  /**
   * One line of a raw-string template: the newline that ends the previous
   * line, the indentation, then the line's text.
   */
  function Line(indent: nat, text: string): string
  {
    "\n" + Spaces(indent) + text
  }

  /** `Input::emit`: all three assignments, always. */
  function InputEmit(x: Input): string
  {
    Line(12, "reset <= '" + [BitChar(x.reset)] + "';") +
    Line(12, "number <= x\"" + Hex2(x.number) + "\";") +
    Line(12, "first <= '" + [BitChar(x.first)] + "';") +
    Line(12, "")
  }

  /** The `match self.asserts` inside `InputWithAsserts::emit`. */
  function AssertsEmit(a: Option<Assert>): string
  {
    match a
    case None => ""
    case Some(a) =>
      Line(20, "assert unlock = '" + [BitChar(a.unlock)] + "' report \"Unlock error\" severity error;") +
      Line(20, "assert warning = '" + [BitChar(a.warning)] + "' report \"Warning error\" severity error;") +
      Line(20, "")
  }

  /** `InputWithAsserts::emit`. */
  function EntryEmit(e: InputWithAsserts): string
  {
    Line(16, InputEmit(e.input)) +
    Line(16, "wait for CLK_PERIOD;") +
    Line(16, AssertsEmit(e.asserts)) +
    Line(16, "")
  }

  /** `parts.join("\n")`. */
  function Join(parts: seq<string>): string
  {
    if |parts| == 0 then ""
    else if |parts| == 1 then parts[0]
    else parts[0] + "\n" + Join(parts[1..])
  }

  function EntryTexts(es: seq<InputWithAsserts>): (ts: seq<string>)
    ensures |ts| == |es|
  {
    seq(|es|, i requires 0 <= i < |es| => EntryEmit(es[i]))
  }

  /** `InputListWithAsserts::emit`: the entries joined by newlines, then `wait;`. */
  function ListEmit(es: seq<InputWithAsserts>): string
  {
    Join(EntryTexts(es)) + "\nwait;\n"
  }

  /** `PREAMBOLE`: library clauses, entity, component, clock process, and the
      opening of the stimulus process with its initial reset pulse. */
  const Preamble: string :=
    "\n"
    + "LIBRARY IEEE;\n"
    + "USE IEEE.STD_LOGIC_1164.ALL;\n"
    + "USE IEEE.NUMERIC_STD.ALL;\n"
    + "\n"
    + "ENTITY SequenceRecognizer_tb IS\n"
    + "END SequenceRecognizer_tb;\n"
    + "\n"
    + "ARCHITECTURE behavior OF SequenceRecognizer_tb IS\n"
    + "\n"
    + "    -- Component Declaration for the Unit Under Test (UUT)\n"
    + "    COMPONENT SequenceRecognizer\n"
    + "    PORT(\n"
    + "         clk : IN  std_logic;\n"
    + "         reset : IN  std_logic;\n"
    + "         number : IN  std_logic_vector(7 DOWNTO 0);\n"
    + "         first : IN  std_logic;\n"
    + "         unlock : OUT  std_logic;\n"
    + "         warning : OUT  std_logic\n"
    + "        );\n"
    + "    END COMPONENT;\n"
    + "    \n"
    + "    -- Inputs\n"
    + "    signal clk : std_logic := '0';\n"
    + "    signal reset : std_logic := '0';\n"
    + "    signal number : std_logic_vector(7 DOWNTO 0) := (others => '0');\n"
    + "    signal first : std_logic := '0';\n"
    + "\n"
    + "    -- Outputs\n"
    + "    signal unlock : std_logic;\n"
    + "    signal warning : std_logic;\n"
    + "\n"
    + "    -- Clock period definition\n"
    + "    constant clk_period : time := 10 ns;\n"
    + "\n"
    + "BEGIN\n"
    + "\n"
    + "    -- Instantiate the Unit Under Test (UUT)\n"
    + "    uut: SequenceRecognizer PORT MAP (\n"
    + "          clk => clk,\n"
    + "          reset => reset,\n"
    + "          number => number,\n"
    + "          first => first,\n"
    + "          unlock => unlock,\n"
    + "          warning => warning\n"
    + "        );\n"
    + "\n"
    + "    -- Clock process definitions\n"
    + "    clk_process :process\n"
    + "    begin\n"
    + "        clk <= '0';\n"
    + "        wait for clk_period/2;\n"
    + "        clk <= '1';\n"
    + "        wait for clk_period/2;\n"
    + "    end process;\n"
    + "\n"
    + "    -- Stimulus process\n"
    + "    stim_proc: process\n"
    + "    begin\t\t\n"
    + "    reset <= '1';\n"
    + "    WAIT FOR CLK_PERIOD; \n"

  const Footer: string := "end process;\nend behavior;\n"

  /** `emit_tb`. */
  function EmitTb(es: seq<InputWithAsserts>): string
  {
    Preamble + ListEmit(es) + Footer
  }

  // ---------------------------------------------------------------------
  // What a reader of the emitted text sees
  // ---------------------------------------------------------------------

  /** The statements one entry stands for. */
  function EntryStmts(e: InputWithAsserts): seq<Stmt>
  {
    [DriveReset(e.input.reset), DriveNumber(e.input.number), DriveFirst(e.input.first), WaitClock] +
    match e.asserts
    case None => []
    case Some(a) => [CheckUnlock(a.unlock), CheckWarning(a.warning)]
  }

  /** The statements of a whole program, entry after entry. */
  function Stimulus(es: seq<InputWithAsserts>): seq<Stmt>
  {
    if |es| == 0 then [] else EntryStmts(es[0]) + Stimulus(es[1..])
  }

  /** A template line adds only whitespace in front of its text. */
  lemma LineReadsAs(indent: nat, text: string, xs: seq<Stmt>)
    requires ReadsAs(text, xs)
    ensures ReadsAs(Line(indent, text), xs)
  {
    var w := "\n" + Spaces(indent);
    assert AllBlank(w) by {
      assert forall i :: 1 <= i < |w| ==> w[i] == Spaces(indent)[i - 1];
    }
    BlankReadsAsNothing(w);
    ConcatReadsAs(w, [], text, xs);
    assert [] + xs == xs;
  }

  /** A template line holding one statement stands for that statement. */
  lemma StmtLineReadsAs(indent: nat, s: Stmt)
    ensures ReadsAs(Line(indent, StmtText(s)), [s])
  {
    StmtReadsAs(s);
    LineReadsAs(indent, StmtText(s), [s]);
  }

  /** An empty template line stands for nothing. */
  lemma EmptyLineReadsAs(indent: nat)
    ensures ReadsAs(Line(indent, ""), [])
  {
    BlankReadsAsNothing("");
    LineReadsAs(indent, "", []);
  }

  /** Each statement line of the templates is that statement's text. */
  lemma TemplateTexts(b: bool, v: Byte)
    ensures "reset <= '" + [BitChar(b)] + "';" == StmtText(DriveReset(b))
    ensures "number <= x\"" + Hex2(v) + "\";" == StmtText(DriveNumber(v))
    ensures "first <= '" + [BitChar(b)] + "';" == StmtText(DriveFirst(b))
    ensures "wait for CLK_PERIOD;" == StmtText(WaitClock)
    ensures "assert unlock = '" + [BitChar(b)] + "' report \"Unlock error\" severity error;" == StmtText(CheckUnlock(b))
    ensures "assert warning = '" + [BitChar(b)] + "' report \"Warning error\" severity error;" == StmtText(CheckWarning(b))
  {
  }

  /** Three lines that stand for one statement each, then an empty line. */
  lemma ThreeLinesReadAs(l1: string, l2: string, l3: string, l4: string, s1: Stmt, s2: Stmt, s3: Stmt)
    requires ReadsAs(l1, [s1]) && ReadsAs(l2, [s2]) && ReadsAs(l3, [s3]) && ReadsAs(l4, [])
    ensures ReadsAs(l1 + l2 + l3 + l4, [s1, s2, s3])
  {
    ConcatReadsAs(l1, [s1], l2, [s2]);
    ConcatReadsAs(l1 + l2, [s1] + [s2], l3, [s3]);
    ConcatReadsAs(l1 + l2 + l3, [s1] + [s2] + [s3], l4, []);
    assert [s1] + [s2] + [s3] + [] == [s1, s2, s3];
  }

  /** `Input::emit` stands for its three assignments, in order. */
  lemma ReadInput(x: Input)
    ensures ReadsAs(InputEmit(x), [DriveReset(x.reset), DriveNumber(x.number), DriveFirst(x.first)])
  {
    TemplateTexts(x.reset, x.number);
    TemplateTexts(x.first, x.number);
    StmtLineReadsAs(12, DriveReset(x.reset));
    StmtLineReadsAs(12, DriveNumber(x.number));
    StmtLineReadsAs(12, DriveFirst(x.first));
    EmptyLineReadsAs(12);
    ThreeLinesReadAs(Line(12, StmtText(DriveReset(x.reset))), Line(12, StmtText(DriveNumber(x.number))),
                     Line(12, StmtText(DriveFirst(x.first))), Line(12, ""),
                     DriveReset(x.reset), DriveNumber(x.number), DriveFirst(x.first));
  }

  /** The assertion lines stand for the two checks, or for nothing. */
  lemma ReadAsserts(a: Option<Assert>)
    ensures ReadsAs(AssertsEmit(a), if a.Some? then [CheckUnlock(a.value.unlock), CheckWarning(a.value.warning)] else [])
  {
    match a
    case None =>
      BlankReadsAsNothing("");
    case Some(v) =>
      TemplateTexts(v.unlock, 0);
      TemplateTexts(v.warning, 0);
      var l1, l2, l3 := Line(20, StmtText(CheckUnlock(v.unlock))), Line(20, StmtText(CheckWarning(v.warning))), Line(20, "");
      StmtLineReadsAs(20, CheckUnlock(v.unlock));
      StmtLineReadsAs(20, CheckWarning(v.warning));
      EmptyLineReadsAs(20);
      ConcatReadsAs(l1, [CheckUnlock(v.unlock)], l2, [CheckWarning(v.warning)]);
      ConcatReadsAs(l1 + l2, [CheckUnlock(v.unlock)] + [CheckWarning(v.warning)], l3, []);
      assert [CheckUnlock(v.unlock)] + [CheckWarning(v.warning)] + [] == [CheckUnlock(v.unlock), CheckWarning(v.warning)];
  }

  /**
   * What `InputWithAsserts::emit` writes stands for the entry's three
   * assignments, one wait and its checks.
   */
  lemma ReadEntry(e: InputWithAsserts)
    ensures ReadsAs(EntryEmit(e), EntryStmts(e))
  {
    var checks := if e.asserts.Some? then [CheckUnlock(e.asserts.value.unlock), CheckWarning(e.asserts.value.warning)] else [];
    var drives := [DriveReset(e.input.reset), DriveNumber(e.input.number), DriveFirst(e.input.first)];
    ReadInput(e.input);
    ReadAsserts(e.asserts);
    EntryLinesReadAs(InputEmit(e.input), AssertsEmit(e.asserts), drives, checks);
    TemplateTexts(false, 0);
    assert EntryStmts(e) == drives + [WaitClock] + checks + [];
  }

  /** The four lines of an entry, given what its input and assertion blocks stand for. */
  lemma EntryLinesReadAs(tIn: string, tAs: string, drives: seq<Stmt>, checks: seq<Stmt>)
    requires ReadsAs(tIn, drives) && ReadsAs(tAs, checks)
    ensures ReadsAs(Line(16, tIn) + Line(16, StmtText(WaitClock)) + Line(16, tAs) + Line(16, ""),
                    drives + [WaitClock] + checks + [])
  {
    var l1, l2, l3, l4 := Line(16, tIn), Line(16, StmtText(WaitClock)), Line(16, tAs), Line(16, "");
    LineReadsAs(16, tIn, drives);
    StmtLineReadsAs(16, WaitClock);
    LineReadsAs(16, tAs, checks);
    EmptyLineReadsAs(16);
    ConcatReadsAs(l1, drives, l2, [WaitClock]);
    ConcatReadsAs(l1 + l2, drives + [WaitClock], l3, checks);
    ConcatReadsAs(l1 + l2 + l3, drives + [WaitClock] + checks, l4, []);
  }

  /** The text of one entry holds exactly its own statements. */
  lemma EntryReadBack(e: InputWithAsserts)
    ensures var r := ReadStatements(EntryEmit(e));
      r.Some? &&
      |r.value| == (if e.asserts.Some? then 6 else 4) &&
      r.value[0] == DriveReset(e.input.reset) &&
      r.value[1] == DriveNumber(e.input.number) &&
      r.value[2] == DriveFirst(e.input.first) &&
      r.value[3] == WaitClock &&
      (e.asserts.Some? ==>
         r.value[4] == CheckUnlock(e.asserts.value.unlock) &&
         r.value[5] == CheckWarning(e.asserts.value.warning))
  {
    var t := EntryEmit(e);
    ReadEntry(e);
    ReadAlone(t, EntryStmts(e));
    EntryStmtsShape(e);
  }

  lemma EntryStmtsShape(e: InputWithAsserts)
    ensures var xs := EntryStmts(e);
      |xs| == (if e.asserts.Some? then 6 else 4) &&
      xs[0] == DriveReset(e.input.reset) &&
      xs[1] == DriveNumber(e.input.number) &&
      xs[2] == DriveFirst(e.input.first) &&
      xs[3] == WaitClock &&
      (e.asserts.Some? ==>
         xs[4] == CheckUnlock(e.asserts.value.unlock) &&
         xs[5] == CheckWarning(e.asserts.value.warning))
  {
  }

  /** The joined entries stand for the program's statements, entry after entry. */
  lemma {:induction false} ReadJoin(es: seq<InputWithAsserts>)
    ensures ReadsAs(Join(EntryTexts(es)), Stimulus(es))
    decreases |es|
  {
    var ts := EntryTexts(es);
    if |es| == 0 {
      BlankReadsAsNothing("");
    } else {
      ReadEntry(es[0]);
      assert ts[1..] == EntryTexts(es[1..]);
      ReadJoin(es[1..]);
      if |es| == 1 {
        assert EntryStmts(es[0]) + [] == EntryStmts(es[0]);
      } else {
        BlankReadsAsNothing("\n");
        ConcatReadsAs(ts[0], EntryStmts(es[0]), "\n", []);
        ConcatReadsAs(ts[0] + "\n", EntryStmts(es[0]) + [], Join(ts[1..]), Stimulus(es[1..]));
        assert EntryStmts(es[0]) + [] == EntryStmts(es[0]);
      }
    }
  }

  /** The closing `wait;` line stands for the final halt. */
  lemma ReadFinalWait()
    ensures ReadsAs("\nwait;\n", [Halt])
  {
    assert "\nwait;\n" == "\n" + StmtText(Halt) + "\n";
    BlankReadsAsNothing("\n");
    StmtReadsAs(Halt);
    ConcatReadsAs("\n", [], StmtText(Halt), [Halt]);
    ConcatReadsAs("\n" + StmtText(Halt), [] + [Halt], "\n", []);
    assert [] + [Halt] + [] == [Halt];
  }

  /**
   * `InputListWithAsserts::emit` reads back as every entry's statements in
   * order, then the final `wait;`; for an empty list only the `wait;`.
   */
  lemma ListReadBack(es: seq<InputWithAsserts>)
    ensures ReadStatements(ListEmit(es)) == Some(Stimulus(es) + [Halt])
  {
    ReadJoin(es);
    ReadFinalWait();
    ConcatReadsAs(Join(EntryTexts(es)), Stimulus(es), "\nwait;\n", [Halt]);
    ReadAlone(ListEmit(es), Stimulus(es) + [Halt]);
  }

  /** The list of no entries is the bare `wait;` line. */
  lemma EmptyListEmit()
    ensures ListEmit([]) == "\nwait;\n"
  {
  }

  /** The text between `prefix` and `suffix`, when `text` starts and ends with them. */
  function Between(text: string, prefix: string, suffix: string): (r: Option<string>)
    ensures r.Some? ==> text == prefix + r.value + suffix
    ensures r.None? ==> forall mid :: text != prefix + mid + suffix
  {
    if |text| >= |prefix| + |suffix| && text[..|prefix|] == prefix && text[|text| - |suffix|..] == suffix
    then
      var mid := text[|prefix|..|text| - |suffix|];
      assert text == text[..|prefix|] + mid + text[|text| - |suffix|..];
      Some(mid)
    else
      assert forall mid: string :: var t := prefix + mid + suffix;
        |t| >= |prefix| + |suffix| && t[..|prefix|] == prefix && t[|t| - |suffix|..] == suffix;
      None
  }

  /**
   * `emit_tb` is the preamble, the list's text and the footer; the part in
   * between reads back as the program's statements followed by `wait;`.
   */
  lemma TestbenchReadBack(es: seq<InputWithAsserts>)
    ensures Between(EmitTb(es), Preamble, Footer) == Some(ListEmit(es))
    ensures ReadStatements(Between(EmitTb(es), Preamble, Footer).value) == Some(Stimulus(es) + [Halt])
  {
    BetweenOf(Preamble, ListEmit(es), Footer);
    ListReadBack(es);
  }

  lemma BetweenOf(prefix: string, mid: string, suffix: string)
    ensures Between(prefix + mid + suffix, prefix, suffix) == Some(mid)
  {
    var t := prefix + mid + suffix;
    assert t[..|prefix|] == prefix;
    assert t[|t| - |suffix|..] == suffix;
    assert t[|prefix|..|t| - |suffix|] == mid;
  }

  /** The statements of a concatenation of programs are concatenated. */
  lemma {:induction false} StimulusAppend(a: seq<InputWithAsserts>, b: seq<InputWithAsserts>)
    ensures Stimulus(a + b) == Stimulus(a) + Stimulus(b)
    decreases |a|
  {
    if |a| == 0 {
      assert a + b == b;
    } else {
      assert (a + b)[1..] == a[1..] + b;
      StimulusAppend(a[1..], b);
    }
  }

  /**
   * Each entry contributes its own block, the same whatever its neighbours:
   * there is no state carried from one entry to the next.
   */
  lemma EntryBlock(es: seq<InputWithAsserts>, i: nat)
    requires i < |es|
    ensures Stimulus(es) == Stimulus(es[..i]) + EntryStmts(es[i]) + Stimulus(es[i + 1..])
  {
    var tail := es[i..];
    assert es == es[..i] + tail;
    StimulusAppend(es[..i], tail);
    assert tail[0] == es[i] && tail[1..] == es[i + 1..];
    assert Stimulus(tail) == EntryStmts(es[i]) + Stimulus(es[i + 1..]);
  }

  function CountDrives(ss: seq<Stmt>): nat
  {
    if |ss| == 0 then 0
    else (if ss[0].DriveReset? || ss[0].DriveNumber? || ss[0].DriveFirst? then 1 else 0) + CountDrives(ss[1..])
  }

  function CountWaits(ss: seq<Stmt>): nat
  {
    if |ss| == 0 then 0 else (if ss[0].WaitClock? then 1 else 0) + CountWaits(ss[1..])
  }

  function CountChecks(ss: seq<Stmt>): nat
  {
    if |ss| == 0 then 0
    else (if ss[0].CheckUnlock? || ss[0].CheckWarning? then 1 else 0) + CountChecks(ss[1..])
  }

  /** Entries that carry expected outputs. */
  function CountAsserted(es: seq<InputWithAsserts>): nat
  {
    if |es| == 0 then 0 else (if es[0].asserts.Some? then 1 else 0) + CountAsserted(es[1..])
  }

  lemma {:induction false} CountsAppend(a: seq<Stmt>, b: seq<Stmt>)
    ensures CountDrives(a + b) == CountDrives(a) + CountDrives(b)
    ensures CountWaits(a + b) == CountWaits(a) + CountWaits(b)
    ensures CountChecks(a + b) == CountChecks(a) + CountChecks(b)
    decreases |a|
  {
    if |a| == 0 {
      assert a + b == b;
    } else {
      assert (a + b)[1..] == a[1..] + b;
      CountsAppend(a[1..], b);
    }
  }

  lemma CountsCons(x: Stmt, rest: seq<Stmt>)
    ensures CountDrives([x] + rest) == (if x.DriveReset? || x.DriveNumber? || x.DriveFirst? then 1 else 0) + CountDrives(rest)
    ensures CountWaits([x] + rest) == (if x.WaitClock? then 1 else 0) + CountWaits(rest)
    ensures CountChecks([x] + rest) == (if x.CheckUnlock? || x.CheckWarning? then 1 else 0) + CountChecks(rest)
  {
    assert ([x] + rest)[1..] == rest;
  }

  /** One entry: three assignments, one wait, and two checks exactly when it has expected outputs. */
  lemma EntryCounts(e: InputWithAsserts)
    ensures CountDrives(EntryStmts(e)) == 3
    ensures CountWaits(EntryStmts(e)) == 1
    ensures CountChecks(EntryStmts(e)) == if e.asserts.Some? then 2 else 0
  {
    var checks: seq<Stmt> := if e.asserts.Some? then [CheckUnlock(e.asserts.value.unlock), CheckWarning(e.asserts.value.warning)] else [];
    if e.asserts.Some? {
      CountsCons(CheckWarning(e.asserts.value.warning), []);
      CountsCons(CheckUnlock(e.asserts.value.unlock), [CheckWarning(e.asserts.value.warning)]);
      assert checks == [CheckUnlock(e.asserts.value.unlock)] + [CheckWarning(e.asserts.value.warning)];
    }
    var r3 := [WaitClock] + checks;
    var r2 := [DriveFirst(e.input.first)] + r3;
    var r1 := [DriveNumber(e.input.number)] + r2;
    assert EntryStmts(e) == [DriveReset(e.input.reset)] + r1;
    CountsCons(WaitClock, checks);
    CountsCons(DriveFirst(e.input.first), r3);
    CountsCons(DriveNumber(e.input.number), r2);
    CountsCons(DriveReset(e.input.reset), r1);
  }

  /**
   * Every entry drives all three inputs and waits once, so a program of n
   * entries has 3n assignments and n waits; checks come two per entry that
   * carries expected outputs.
   */
  lemma {:induction false} StimulusCounts(es: seq<InputWithAsserts>)
    ensures CountDrives(Stimulus(es)) == 3 * |es|
    ensures CountWaits(Stimulus(es)) == |es|
    ensures CountChecks(Stimulus(es)) == 2 * CountAsserted(es)
    decreases |es|
  {
    if |es| > 0 {
      CountsAppend(EntryStmts(es[0]), Stimulus(es[1..]));
      EntryCounts(es[0]);
      StimulusCounts(es[1..]);
    }
  }

  /**
   * The program `[0, 36, 1], [0, 19, 0], [0, 255, 0, [0, 0]]`: every cycle
   * drives all three inputs again, including those that keep their value,
   * and only the last one is checked.
   */
  lemma ExampleStimulus()
    ensures Stimulus([InputWithAsserts(Input(false, 36, true), None),
                      InputWithAsserts(Input(false, 19, false), None),
                      InputWithAsserts(Input(false, 255, false), Some(Assert(false, false)))]) ==
      [DriveReset(false), DriveNumber(36), DriveFirst(true), WaitClock,
       DriveReset(false), DriveNumber(19), DriveFirst(false), WaitClock,
       DriveReset(false), DriveNumber(255), DriveFirst(false), WaitClock, CheckUnlock(false), CheckWarning(false)]
  {
    var es := [InputWithAsserts(Input(false, 36, true), None),
               InputWithAsserts(Input(false, 19, false), None),
               InputWithAsserts(Input(false, 255, false), Some(Assert(false, false)))];
    assert es[1..][1..][1..] == [];
  }
}
