# SecureSequence test generator: a Dafny model

This project models the test-vector compiler of SecureSequence. The compiler reads a list of
shorthand tuples that describe one clock cycle each. It turns them into the stimulus process of
a VHDL testbench for the `SequenceRecognizer` circuit. The model also covers the Python helper
that builds such tuple lists.

- **Vector model** (`vectors.dfy`): `Input` (reset, 8-bit number, first), `Assert` (expected
  unlock and warning) and `InputWithAsserts`. `Byte` stands for Rust's `u8`.
- **Loader** (`loader.dfy`): the loader works on the document's `arr` list, already parsed
  into a tree of `Node`s (integer, list, or anything else).
  - Each element is matched against the two variants of the untagged `NestedArray`:
    - `Simple` is exactly three `u8`.
    - `WithAsserts` is three `u8` and a list of `u8`.
  - A shape or range failure anywhere fails the whole document (`NoVariantMatched`).
  - The loop then turns each tuple into an entry. An assertion list with fewer than two
    numbers makes the source panic on `asserts[0]`/`asserts[1]`. The model reports that as
    the separate error `AssertIndexOutOfBounds`.
  - `FromStr` is the imperative loop, proved equal to the function `Load`.
- **Hex codec** (`hex.dfy`): `{:02x}` on a `u8` (two lower-case digits), its decoder, and
  round-trips in both directions.
- **Statement reader** (`vhdl.dfy`): the statements the emitter writes (`Stmt`) and a reader
  for stimulus text. The reader skips whitespace, cuts each statement at its `;` and parses
  it against a table of statement forms (fixed text, or a bit or a byte between fixed text).
  This is the reference the emitted text is checked against. `ReadsAs(t, xs)` says that text
  `t` stands for the statements `xs` whatever follows it; it composes over concatenation, so
  the templates are read back piece by piece.
- **Emitter** (`emitter.dfy`):
  - `Input::emit`, `InputWithAsserts::emit`, `InputListWithAsserts::emit` and `emit_tb`
    produce the exact strings of the source's raw-string templates, indentation and newlines
    included.
  - `PREAMBOLE` is kept as the exact constant `Preamble`.
  - Lemmas show that reading the emitted text back gives each entry's three assignments,
    one `wait for CLK_PERIOD;`, and two assertions exactly when the entry has expected
    outputs. The list ends with `wait;`.
- **Tuple builder** (`generator.dfy`): `generate_input` is a loop method proved equal to the
  value `GeneratedRows`, and `reset` is the constant tuple. Lemmas connect both to the loader.

## Behaviour notes

- `Input::emit` keeps no previous-input state, so every entry writes all three assignments,
  including those whose value did not change. `ExampleStimulus` shows this on the program
  `[0, 36, 1], [0, 19, 0], [0, 255, 0, [0, 0]]`: cycle 2 drives `reset` again.
- `emit_tb` takes no name and cannot fail. The entity name `SequenceRecognizer_tb` and an
  initial reset pulse are fixed inside `PREAMBOLE`.
- Serde tries the untagged variants in declaration order, so `Simple` is tried first. The two
  shapes have different lengths, so the order cannot change a result.
- A `WithAsserts` list with fewer than two numbers makes `asserts[0]`/`asserts[1]` panic in the
  loop, after the whole document was deserialised; it is not a deserialisation error. A list
  with more than two numbers is accepted, and the extra numbers are ignored.

## Model

| member | source | states |
|---|---|---|
| `Hex.Hex2` | test_generator/src/main.rs:87 | `{:02x}` of a `u8` is exactly two lower-case hex digits; the first is `0` exactly when the value is below 16 |
| `Hex.Hex2RoundTrip` | test_generator/src/main.rs:87 | decoding the two digits gives back the original byte |
| `Hex.Unhex2RoundTrip` | test_generator/src/main.rs:87 | every two-digit lower-case string is the rendering of the byte it decodes to |
| `Hex.Hex2Injective` | test_generator/src/main.rs:87 | distinct bytes are written differently |
| `Hex.Hex2Examples` | test_generator/src/main.rs:87 | zero padding and lower case on concrete values (`05`, `ab`, `ff`) |
| `Vhdl.ParseBodyRoundTrip` | test_generator/src/main.rs:79-143 | every statement form the templates write (assignments, waits, assertions) is parsed back as itself |
| `Vhdl.ParseBodySound` | test_generator/src/main.rs:79-143 | a statement text the reader accepts is exactly the text of the statement it yields: no other spelling is read |
| `Vhdl.ReadStatement` | test_generator/src/main.rs:79-143 | a statement's text is read as that one statement, whatever text follows it |
| `Emitter.InputEmit` | test_generator/src/main.rs:79-90 | the exact string of `Input::emit`'s raw-string template, indentation and newlines included; what it reads back as is stated by `Emitter.ReadInput` |
| `Emitter.AssertsEmit` | test_generator/src/main.rs:114-126 | the exact assertion-block template for `Some`, the empty string for `None`; stated by `Emitter.ReadAsserts` |
| `Emitter.EntryEmit` | test_generator/src/main.rs:112-132 | the exact outer template of `InputWithAsserts::emit` around the input and assertion blocks; stated by `Emitter.ReadEntry` and `Emitter.EntryReadBack` |
| `Emitter.Join` | test_generator/src/main.rs:142 | `join("\n")`: the parts with one newline between consecutive parts and none at the ends; stated by `Emitter.ReadJoin` |
| `Emitter.ListEmit` | test_generator/src/main.rs:141-145 | the joined entry texts followed by `"\nwait;\n"`; stated by `Emitter.ListReadBack` and `Emitter.EmptyListEmit` |
| `Emitter.Preamble` | test_generator/src/main.rs:6-67 | the exact text of `PREAMBOLE`, tabs and trailing spaces included; used by `Emitter.TestbenchReadBack` |
| `Emitter.EmitTb` | test_generator/src/main.rs:148-150 | preamble, list text and `"end process;\nend behavior;\n"`, in that order; stated by `Emitter.TestbenchReadBack` |
| `Emitter.ReadInput` | test_generator/src/main.rs:79-90 | `Input::emit` reads back, whatever follows it, as exactly the assignments to reset, number, first, in that order, with the input's values |
| `Emitter.ReadAsserts` | test_generator/src/main.rs:114-126 | the assertion text reads back, whatever follows it, as the unlock check then the warning check with the `Assert`'s bits, or as nothing for `None` |
| `Emitter.ReadEntry` | test_generator/src/main.rs:112-132 | `InputWithAsserts::emit` reads back as the entry's three assignments, one wait and its checks, whatever follows |
| `Emitter.EntryReadBack` | test_generator/src/main.rs:112-131 | an entry's text holds 4 statements (6 with expected outputs): reset, number, first, wait, then unlock and warning checks exactly when `asserts` is `Some` |
| `Emitter.EntryCounts` | test_generator/src/main.rs:112-131 | each entry has three assignments and one wait; it has two checks when it carries expected outputs and none otherwise |
| `Emitter.ReadJoin` | test_generator/src/main.rs:142 | the newline-joined entry texts read back as the entries' statements concatenated in order |
| `Emitter.ListReadBack` | test_generator/src/main.rs:141-145 | the list text reads back as every entry's statements in order followed by one `wait;` |
| `Emitter.EmptyListEmit` | test_generator/src/main.rs:141-145 | an empty list is written as just `"\nwait;\n"` |
| `Emitter.TestbenchReadBack` | test_generator/src/main.rs:148-150 | `emit_tb` is the preamble, the list text and the footer; the part between them reads back as the program's statements then `wait;` |
| `Emitter.EntryBlock` | test_generator/src/main.rs:141-143 | each entry contributes the same block whatever its neighbours: no state passes from one entry to the next |
| `Emitter.StimulusCounts` | test_generator/src/main.rs:79-131 | a program of n entries has 3n assignments and n waits; it has two checks per entry that carries expected outputs |
| `Emitter.ExampleStimulus` | test_generator/src/main.rs:79-131 | the program `[0, 36, 1], [0, 19, 0], [0, 255, 0, [0, 0]]` re-drives every input on every cycle; only the last cycle is checked |
| `Loader.TrySimple` | test_generator/src/main.rs:157 | the `Simple(u8, u8, u8)` shape: a list of exactly three integers in 0..255; stated by `Loader.NodeOfParseItem` |
| `Loader.TryWithAsserts` | test_generator/src/main.rs:158 | the `WithAsserts(u8, u8, u8, Vec<u8>)` shape: three integers in 0..255 and a list of such; stated by `Loader.NodeOfParseItem` |
| `Loader.ParseItem` | test_generator/src/main.rs:154-159 | the untagged dispatch: `Simple` tried first, then `WithAsserts`; stated by `Loader.ParseItemOfNode` and `Loader.NodeOfParseItem` |
| `Loader.ToEntry` | test_generator/src/main.rs:174-197 | the body of the loop for one tuple, including the failure on a short assertion list; stated by `Loader.LoadSimpleRow`, `Loader.LoadAssertRow` and `Loader.ConvertAll` |
| `Loader.Load` | test_generator/src/main.rs:166-202 | `from_str` on the parsed `arr`: deserialise, then convert every tuple; stated by `Loader.LoadElementwise`, `Loader.LoadShapeError` and `Loader.LoadAssertError` |
| `Loader.ReadU8s` | test_generator/src/main.rs:158 | a `Vec<u8>` is read exactly when every element is an integer in 0..255, and it keeps length, order and values |
| `Loader.ParseAll` | test_generator/src/main.rs:161-170 | deserialising `arr` succeeds exactly when every element fits a variant, keeping length and order; otherwise it fails at the first element that fits none |
| `Loader.ParseItemOfNode` | test_generator/src/main.rs:154-159 | every tuple of either variant is recognised as itself |
| `Loader.NodeOfParseItem` | test_generator/src/main.rs:154-159 | a node is recognised only if it is exactly three `u8`, or three `u8` and a list of `u8` |
| `Loader.ConvertAll` | test_generator/src/main.rs:173-199 | the loop converts every tuple in order, or stops at the first with a short assertion list |
| `Loader.FromStr` | test_generator/src/main.rs:166-202 | the imperative loop computes exactly `Load`: the entries in order, or the first shape error, or the first panic |
| `Loader.LoadElementwise` | test_generator/src/main.rs:172-200 | loading succeeds exactly when every element loads; the i-th element then gives the i-th entry, and there is no partial result |
| `Loader.LoadShapeError` | test_generator/src/main.rs:154-170 | a shape error is reported exactly at the first element that fits neither variant |
| `Loader.LoadAssertError` | test_generator/src/main.rs:185-196 | the short-list failure happens exactly when every element has a valid shape, at the first element whose list is short |
| `Loader.LoadSimpleRow` | test_generator/src/main.rs:175-183 | `[a, b, c]` gives reset = a≠0, number = b, first = c≠0 and no check; a, b, c are bytes |
| `Loader.LoadAssertRow` | test_generator/src/main.rs:185-196 | `[a, b, c, l]` gives the same input and unlock = l[0]≠0, warning = l[1]≠0; l has at least two bytes, and the rest of l is ignored |
| `Loader.OutOfRangeRejected` | test_generator/src/main.rs:156-159 | `[0, 256, 0]` fits no variant and fails the load |
| `Loader.ShortAssertsRejected` | test_generator/src/main.rs:193-194 | `[0, 1, 0, [1]]` has a valid shape but fails on `asserts[1]` |
| `Loader.ExampleLoads` | test_generator/src/main.rs:172-200 | `arr` = `[0, 36, 1], [0, 19, 0], [0, 255, 0, [0, 0]]` loads to two unchecked cycles (36 with first set, then 19) and a cycle on 255 checking unlock and warning low |
| `Generator.Row` | test/src/a.py:23-30 | one tuple `[0, n, first]`, with `[0, 0]` appended when asked; stated by `Generator.RowLoads` |
| `Generator.GeneratedRows` | test/src/a.py:21-32 | the list `generate_input` returns, one `Row` per number with the first-flag only on tuple 0; stated by `Generator.GenerateInput` and `Generator.LoadGenerated` |
| `Generator.Reset` | test/src/a.py:84-85 | the tuple `[1, 0, 0]`; stated by `Generator.ResetLoads` |
| `Generator.GenerateInput` | test/src/a.py:21-32 | `withAsserts` defaults to false, as `with_asserts=False` does; one tuple per number, in order; reset 0, number `seq[i]`, first-flag 1 only on tuple 0; a fourth field `[0, 0]` exactly when asked, otherwise three fields |
| `Generator.ResetLoads` | test/src/a.py:84-85 | `reset()` is `[1, 0, 0]`, which loads as a cycle with reset asserted, number 0, no first-flag and no check |
| `Generator.LoadGenerated` | test/src/a.py:21-32 | generated tuples load exactly when every number is a byte, into one cycle per number (reset low, the number, first on cycle 0 only, all-zero check when asked) |
| `Generator.LoadGeneratedOutOfRange` | test/src/a.py:21-32 | a number outside 0..255 fails the load at the first tuple that holds one |
| `Generator.RowLoads` | test/src/a.py:23-30 | a single generated tuple is recognised exactly when its number is a byte, and gives the corresponding entry |

## Left out

- YAML text parsing (`serde_yaml::from_str`) is a foreign library. The loader starts from the
  already-parsed `arr` list, and a document without `arr` is not modelled.
- Serde's error values and messages: a load error carries only the kind and the element index.
- Serde's untagged-enum machinery itself: only the shape rule it implements is modelled.
- `main` (hard-coded demo data, `unwrap`, `println!`): I/O and a demo.
- The unused `Output` struct.
- `InputListWithAsserts::emit` appends `"\nwait;\n"` to a freshly joined local string with
  `push_str`. The model writes this as a concatenation, because no caller can observe the
  mutation.
- The byte content of `PREAMBOLE` is kept as a constant, but it is not read as statements: its
  upper-case `WAIT FOR` reset pulse and the declarations are fixed boilerplate.
- In the Python helper: `generate_random_sequence`, `random_idempotent_input`,
  `go_to_warning1` and `go_to_warning2` depend on `random`, so they are left out.
  `serialize_to_yaml` and the module-level script are left out as file I/O.
- `Generator.GenerateInput`: Python accepts any values in `seq`; the model takes integers.
  An empty `seq` raises `IndexError` in the source, so it is a precondition.
