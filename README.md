# A verified model of the Bunny interpreter core

Bunny is a small register machine. It runs programs in a comma- and
space-delimited assembly language. This project models the two parts that
make up the interpreter, src/read.rs and src/processor.rs.

The loader (src/read.rs) turns a program text into three things:
- a list of statements, each a list of tokens;
- their number;
- a label table, with one `(label, 1-based position)` entry for every
  statement whose first token contains `:`.

The processor (src/processor.rs) holds:
- nine typed registers: `uia..uid` (u8), `sia..sid` (i8) and `proc` (i32);
- a 1-based counter;
- one return slot, `past`.

Its `run` does an implicit `goto "main:"`, then a fetch loop: take statement
`counter`, dispatch it by token count and mnemonic, and add one to the
counter. Every fatal path of the source ends the process. Those paths are
NaC (-5; also a missing `goto` label), NaN (-6) and NaR (-7).

The project has these modules:

- `Numeric`: Rust's `str::parse` for `u8`, `i8`, `i32` and `usize`
  (`from_str_radix`, base 10), and `to_string`. It proves that parsing the
  printed text of any in-range number gives the number back.
- `Text`: `split`, `trim` and `contains`, with their join and trim
  properties.
- `Loader`: the pure pipeline `lines`/`split` as functions, and the label
  table. The `Program` class has `Split`, `Get`, `GetI` and the label loop
  `RecordLabels` as methods over its fields.
- `Registers`: `RegisterKind`, `RKVal`, `Register`, and the readers and text
  setters of `Register` and `RKVal`.
- `Semantics`: the reference semantics. A `Machine` value holds the
  registers, the counter, `past` and the output. There is one function per
  processor operation, then `Step` and a fuel-bounded `Run`. A statement
  ends in a `Signal`: `Proceed`, `Exit(code)` for the `exit` instruction,
  `Fatal(code)` for NaC/NaN/NaR, or `Panic` for a Rust arithmetic overflow
  or index panic.
- `Engine`: the `Processor` class. Its fields are updated in place by one
  method per source function. `FetchLoop` has the `while` loop of `run` and `Goto`
  has the `for` scan. Each method is proved to produce exactly the outcome
  of the corresponding `Semantics` function (`CondJump` for `Ife`/`Ifn`,
  `Arith` for `Add`/`Sub`, otherwise the function of the same name).
- `Properties`: the lemmas about the reference semantics.
- `Scenarios`: three whole programs, loaded from their text and run.

Where the language's documented behaviour and the code differ, the model
follows the code:

- The `+1` at src/processor.rs:76 also follows `jump`, `goto`, `return` and
  a taken conditional jump. So `jump k` fetches statement k+1 next, while
  `jump_eq … n` fetches statement n next, because of its `aa - 1`.
- `sub dest v` stores `v - dest` into `v` (src/processor.rs:471).
- `add`/`sub` on names that are not both of the `ui` class or both of the
  `si` class do nothing. They are not NaR, because there is no `else` arm
  (src/processor.rs:402-446).
- A run that passes the last statement just returns from `run`. Its exit
  code is not taken from `proc`; the model ends it with `Proceed` and the
  final state.
- The default program has no statements at all, not a single `exit`
  (src/read.rs:82-91). So running it fails `goto "main:"` with NaC.
- Programs without a `main:` label fail the same way before any statement
  runs. The scenarios below therefore start with `main:`.

## Model

| member | source | states |
|---|---|---|
| Numeric.ParseInt | src/processor.rs:326-332 | from_str_radix: a result lies in [lo, hi]; the text holds a digit; every character after the first is a digit and the first is a digit, '+', or '-' for a signed type only; a leading '-' is refused when lo >= 0 |
| Numeric.ParseIntPadded | src/processor.rs:326-332 | any sign, any leading zeros and any magnitude parse to the signed value when it is in range, to nothing when it is not, and '-' is refused by unsigned types |
| Numeric.ParseIntShape | src/processor.rs:326-332 | conversely, a text that parses is exactly a sign, leading zeros and the decimal text of the magnitude, and the value is the signed magnitude |
| Numeric.ParseU8 | src/processor.rs:669 | `parse::<u8>` is ParseInt over [0, 255] |
| Numeric.ParseI8 | src/processor.rs:718 | `parse::<i8>` is ParseInt over [-128, 127] |
| Numeric.ParseI32 | src/processor.rs:648 | `parse::<i32>` is ParseInt over the 32-bit two's-complement range |
| Numeric.ParseUsize | src/processor.rs:326 | `parse::<usize>` is ParseInt over [0, 2^64 - 1] |
| Numeric.IntToString | src/processor.rs:360-372 | `{:?}` on an integer: non-empty, starting with '-' exactly for a negative number, then the decimal text of the magnitude |
| Numeric.NatToString | src/processor.rs:345 | `usize::to_string`: at least one character, all decimal digits, leading zero only for 0 |
| Numeric.ParseIntToString | src/processor.rs:648-654 | parsing the printed text of any number in [lo, hi] gives that number back |
| Numeric.NatToStringInjective | src/processor.rs:345 | two positions print the same decimal text only if they are equal |
| Text.SplitOn | src/read.rs:62 | `split(',')`: at least one piece, no piece holds the separator, joining the pieces with it gives the text back |
| Text.SplitOnJoin | src/read.rs:71 | splitting a join of separator-free pieces gives the pieces back |
| Text.TrimSplit | src/read.rs:64 | the text is leading whitespace + trimmed core + trailing whitespace |
| Text.TrimTrimmed | src/read.rs:64 | trimming a trimmed text changes nothing |
| Text.Trim | src/read.rs:41 | `trim`: the result has no leading or trailing whitespace (TrimSplit gives what was removed) |
| Text.ContainsAt | src/processor.rs:157 | `str::contains` holds exactly when the pattern occurs at some position of the text |
| Loader.RetainNonEmpty | src/read.rs:63 | `retain(!is_empty)`: the kept pieces are non-empty pieces of the input |
| Loader.TokenizeEach | src/read.rs:71-75 | every statement has at least one token, no token holds ' ', joining a statement with ' ' gives its line |
| Loader.LabelTable | src/read.rs:46-56 | each entry points at a statement in [1, thread_len] whose first token is the entry's label and contains ':'; the positions increase |
| Loader.LabelTableComplete | src/read.rs:24-34 | every label statement has its (label, position) entry |
| Loader.LabelTablePrefix | src/read.rs:46-56 | the table of one more statement is the old table plus that statement's entry, if it is a label |
| Loader.Lines | src/read.rs:61-67 | the definition of `lines` (split at ',', keep non-empty pieces, trim each); what it promises is stated by LinesShape, LinesJoin, LinesConcat and LinesBlank |
| Loader.Statements | src/read.rs:69-79 | the definition of the tokenized thread; what it promises is stated by TokenizeEach and LoadSource |
| Loader.LinesConcat | src/read.rs:61-67 | the lines of two texts joined at a comma are the lines of each text |
| Loader.LinesBlank | src/read.rs:62-64 | a non-empty whitespace-only piece survives as the empty line |
| Loader.BlankStatement | src/read.rs:62-75 | a whitespace-only piece between commas becomes the statement [""] |
| Loader.LinesJoin | src/read.rs:61-67 | non-empty, trimmed, comma-free lines come back from their comma-joined text |
| Loader.LinesShape | src/read.rs:61-67 | every line is trimmed and comma-free |
| Loader.LoadSource | src/read.rs:61-79 | loading the text of well-formed statements gives the statements back |
| Loader.Program.constructor | src/read.rs:82-91 | `default`: no statements, no labels, thread_len 0, raw text "exit" |
| Loader.Program.Split | src/read.rs:69-79 | thread is the tokenized lines of the raw text and thread_len its length |
| Loader.Program.RecordLabels | src/read.rs:46-56 | the loop appends exactly the label table of the thread |
| Loader.Program.Get | src/read.rs:39-59 | raw text is the trimmed file text, thread and thread_len as `split` makes them, labels appended |
| Loader.Program.GetI | src/read.rs:16-37 | the same from the trimmed standard input |
| Loader.GetAgreesWithGetI | src/read.rs:16-59 | on the same text, `get` and `geti` load the same thread, length, labels and raw text |
| Registers.NumU8 | src/processor.rs:752-763 | the payload of a U8 value; anything else is NaR |
| Registers.NumI8 | src/processor.rs:765-776 | the payload of an I8 value; anything else is NaR |
| Registers.ProcessVal | src/processor.rs:611-622 | the exit code of an I32 value; anything else is NaN |
| Registers.ValU8 | src/processor.rs:624-632 | the number `view` shows for a U8 value; anything else is NaN |
| Registers.ValI8 | src/processor.rs:634-642 | the number `view` shows for an I8 value; anything else is NaN |
| Registers.SetProcess | src/processor.rs:644-663 | succeeds iff the text is an i32 and the kind is Process; NaN is checked before NaR |
| Registers.SetU8Str | src/processor.rs:665-684 | succeeds iff the text is a u8 and the kind is U8; NaN is checked before NaR |
| Registers.SetI8Str | src/processor.rs:714-733 | succeeds iff the text is an i8 and the kind is I8; NaN is checked before NaR |
| Registers.SetU8ThenRead | src/processor.rs:665-684 | setting a U8 register to the text of n and reading it back gives n |
| Registers.SetI8ThenRead | src/processor.rs:714-733 | setting an I8 register to the text of n and reading it back gives n |
| Registers.SetProcessThenRead | src/processor.rs:644-663 | setting proc to the text of n and reading the exit code gives n |
| Semantics.FirstMatch | src/processor.rs:341-350 | the first table entry whose name or index text is dest, or none when no entry matches |
| Semantics.Initial | src/processor.rs:30-52 | the definition of the new processor's state; InitialKindsIntact states it |
| Semantics.Jump | src/processor.rs:317-321 | the definition of `jump`; JumpStep states its effect on the fetch loop |
| Semantics.JumpStr | src/processor.rs:323-335 | the definition of `jump_str`; JumpStep states it |
| Semantics.Goto | src/processor.rs:337-353 | the definition of `goto`; GotoStep, GotoLabel, GotoIndex and GotoMissingLabel state it |
| Semantics.Set | src/processor.rs:291-315 | the definition of `set`; SetOutcome and SetThenView state it |
| Semantics.View | src/processor.rs:355-379 | the definition of `view`; ViewOutcome states it |
| Semantics.Print | src/processor.rs:381-385 | the definition of `print`: the text is appended to the output |
| Semantics.Printl | src/processor.rs:387-391 | the definition of `printl`: the text and a newline are appended |
| Semantics.ArithInClass | src/processor.rs:402-446 | the definition of the in-class body of `add`/`sub`; ArithSameClass, ArithMistagged and ArithNotARegister state it |
| Semantics.Arith | src/processor.rs:393-503 | the definition of `add` and `sub`; ArithOnProc and ArithMixedIsNoOp state it |
| Semantics.Compare | src/processor.rs:157-207 | the definition of the comparison of `ife`/`ifn`; the CondJump lemmas state it |
| Semantics.CondJump | src/processor.rs:153-289 | the definition of `ife`/`ifn`; CondJumpBranches, CondJumpMixedNames, CondJumpMistagged and CondJumpNotARegister state it |
| Semantics.Move | src/processor.rs:505-548 | the definition of `move`; MoveCopies and MoveUnknown state it |
| Semantics.Del | src/processor.rs:550-571 | the definition of `del`; DelResets and DelUnknown state it |
| Semantics.One | src/processor.rs:80-98 | the definition of the one-token dispatch; LabelIsNoOp, ReturnStep and ExitOutcome state it |
| Semantics.Two | src/processor.rs:100-117 | the definition of the two-token dispatch |
| Semantics.Three | src/processor.rs:119-135 | the definition of the three-token dispatch |
| Semantics.Four | src/processor.rs:137-151 | the definition of the four-token dispatch; FourIsCondJump states it |
| Semantics.Execute | src/processor.rs:66-75 | the definition of the dispatch by arity; BadArity, UnknownMnemonic and ExecuteStopsClean state it |
| Semantics.Advance | src/processor.rs:76 | the definition of the `+1` after every statement; StepAdvances states it |
| Semantics.Step | src/processor.rs:62-76 | the definition of one loop iteration; StepAdvances, StepByOne and StepKeepsKinds state it |
| Semantics.RunFrom | src/processor.rs:62-77 | the definition of the fetch loop; RunFromFetchesInBounds, RunFromKeepsKinds and RunFromMoreFuel state it |
| Semantics.Run | src/processor.rs:54-78 | the definition of `run`; RunFetchesInBounds, RunKeepsKinds and NoMainFails state it |
| Engine.Processor.constructor | src/processor.rs:30-52 | `new`: counter 1, past 0, every register Null with its kind, an empty program |
| Engine.Processor.Run | src/processor.rs:54-78 | installs the program; the final signal and state are those of `Semantics.Run` on the old state |
| Engine.Processor.FetchLoop | src/processor.rs:62-77 | the `while` loop: the final signal and state are those of `Semantics.RunFrom` on the old state |
| Properties.RunFromStops | src/processor.rs:62-77 | a statement that does not proceed ends the fetch loop with its own outcome |
| Engine.Processor.Step | src/processor.rs:62-76 | one loop iteration equals `Semantics.Step` |
| Engine.Processor.One | src/processor.rs:80-98 | equals `Semantics.One` |
| Engine.Processor.Two | src/processor.rs:100-117 | equals `Semantics.Two` |
| Engine.Processor.Three | src/processor.rs:119-135 | equals `Semantics.Three` |
| Engine.Processor.Four | src/processor.rs:137-151 | equals `Semantics.Four` |
| Engine.Processor.Ife | src/processor.rs:153-220 | equals `Semantics.CondJump` branching on equal |
| Engine.Processor.Ifn | src/processor.rs:222-289 | equals `Semantics.CondJump` branching on different |
| Engine.Processor.Set | src/processor.rs:291-315 | equals `Semantics.Set` |
| Engine.Processor.Jump | src/processor.rs:317-321 | the counter becomes v; nothing else changes |
| Engine.Processor.JumpStr | src/processor.rs:323-335 | equals `Semantics.JumpStr` |
| Engine.Processor.Goto | src/processor.rs:337-353 | the for scan equals `Semantics.Goto`, the first match of `FirstMatch` |
| Engine.Processor.View | src/processor.rs:355-379 | equals `Semantics.View` |
| Engine.Processor.Print | src/processor.rs:381-385 | appends the text to the output |
| Engine.Processor.Printl | src/processor.rs:387-391 | appends the text and a newline to the output |
| Engine.Processor.Add | src/processor.rs:393-447 | equals `Semantics.Arith` with Plus |
| Engine.Processor.Sub | src/processor.rs:449-503 | equals `Semantics.Arith` with Minus |
| Engine.Processor.Move | src/processor.rs:505-548 | equals `Semantics.Move` |
| Engine.Processor.Del | src/processor.rs:550-571 | equals `Semantics.Del` |
| Properties.BadArity | src/processor.rs:71-74 | a statement of 0 or more than 4 tokens is NaC |
| Properties.UnknownMnemonic | src/processor.rs:93-96 | a mnemonic its arity does not know is NaC (arms at 112-115, 130-133, 146-149 too) |
| Properties.LabelIsNoOp | src/processor.rs:81-83 | a one-token statement containing ':' changes nothing |
| Properties.BlankStatementIsNaC | src/processor.rs:88-97 | the empty statement [""] is NaC |
| Properties.ExecuteStopsClean | src/processor.rs:66-75 | a statement that does not proceed leaves the machine unchanged |
| Properties.RegisterNamedInverse | src/processor.rs:295-313 | a name addresses a register exactly when it is that register's name |
| Properties.ClassOfName | src/processor.rs:402-424 | a register name contains "ui" iff it is a u8 register, "si" iff an i8 register |
| Properties.PutFrame | src/processor.rs:415-418 | writing one register changes it alone |
| Properties.KindsIntactGet | src/processor.rs:575-578 | every register has its name's kind, stated both ways |
| Properties.InitialKindsIntact | src/processor.rs:30-52 | the initial machine has all kinds in place, all values Null, counter 1, past 0 |
| Properties.ExecuteKeepsKinds | src/processor.rs:66-75 | no statement changes the kind of any register |
| Properties.StepKeepsKinds | src/processor.rs:62-77 | no loop iteration changes a register's kind |
| Properties.RunFromKeepsKinds | src/processor.rs:62-77 | the fetch loop never changes a register's kind |
| Properties.RunKeepsKinds | src/processor.rs:54-78 | a whole run never changes a register's kind |
| Properties.NonControlKeepsCounter | src/processor.rs:66-75 | a statement other than return/jump/goto/jump_eq/jump_neq leaves counter and past alone |
| Properties.OnlyGotoSetsPast | src/processor.rs:346 | only `goto` writes the return slot |
| Properties.StepAdvances | src/processor.rs:76 | after a statement that proceeds, the counter is what the statement left plus one |
| Properties.StepByOne | src/processor.rs:76 | a non-control statement moves the counter on by exactly one |
| Properties.JumpStep | src/processor.rs:317-335 | after `jump k` the counter is k + 1; a target that is not a usize is NaN |
| Properties.GotoStep | src/processor.rs:337-353 | after `goto d` the counter is one past the match and past holds the goto's position; no match is NaC |
| Properties.ReturnStep | src/processor.rs:89 | after `return` the counter is one past the saved position |
| Properties.CallReturn | src/processor.rs:337-353 | a goto to a label whose next statement is return resumes at the statement after the goto |
| Properties.CallReturnAcross | src/processor.rs:337-353 | a goto, then any number of loop iterations fetching no goto, then return: past still holds the goto's position and the next statement fetched is the one after the goto |
| Properties.StepKeepsPast | src/processor.rs:62-77 | an iteration that fetches no goto leaves the return slot alone |
| Properties.GotoSavesPast | src/processor.rs:346 | a goto that proceeds saves its own position in the return slot |
| Properties.IterateKeepsWhile | src/processor.rs:62-77 | what every step from an admitted machine keeps, the fetch loop keeps while every machine it steps from is admitted |
| Properties.SetOutcome | src/processor.rs:291-315 | set stores the parsed literal, tagged by the kind, into that register; an unknown name is NaR, a bad literal NaN |
| Properties.SetThenView | src/processor.rs:291-379 | setting a register to the text of n and viewing it prints n |
| Properties.ViewOutcome | src/processor.rs:355-379 | view prints the held number, NaN for a Null or mistagged value, NaR for an unknown name |
| Properties.ExitOutcome | src/processor.rs:90 | exit ends with proc's i32, NaN when proc holds none |
| Properties.ArithOnProc | src/processor.rs:397-400 | add/sub with dest "proc" is NaR |
| Properties.ArithMixedIsNoOp | src/processor.rs:402-446 | names not both "ui" or both "si" make add/sub a no-op |
| Properties.ArithMixedRegisters | src/processor.rs:402-446 | in particular two registers of different kinds |
| Properties.ArithSameClass | src/processor.rs:402-475 | same class: v := v + dest (v - dest for sub), everything else unchanged; out of range is an overflow panic |
| Properties.ArithMistagged | src/processor.rs:403-418 | same class with a Null or mistagged operand is NaR |
| Properties.ArithNotARegister | src/processor.rs:403-423 | same class with a name that is not a register of the class is NaR |
| Properties.CondJumpKeepsRegisters | src/processor.rs:153-220 | a conditional jump changes only the counter |
| Properties.CondJumpMixedNames | src/processor.rs:204-207 | names that are not both "ui" names and not both "si" names are NaR, for all strings |
| Properties.CondJumpMixed | src/processor.rs:204-207 | in particular registers of different kinds, or proc |
| Properties.CondJumpMistagged | src/processor.rs:157-203 | within one class, a Null or mistagged operand is NaR |
| Properties.CondJumpNotARegister | src/processor.rs:157-203 | within one class, a name that is not a register of the class is NaR |
| Properties.CondJumpBranches | src/processor.rs:153-289 | branches iff equal (jump_eq) or different (jump_neq); target parsed only when taken; counter := n - 1 |
| Properties.CondJumpStep | src/processor.rs:209-218 | a taken jump to n fetches statement n next; otherwise the next statement |
| Properties.MoveCopies | src/processor.rs:505-548 | move copies the raw value into the second register, keeping its kind, and nothing else changes |
| Properties.MoveUnknown | src/processor.rs:505-548 | an unknown name is NaR |
| Properties.MoveMistags | src/processor.rs:505-548 | `move proc uia` puts an i32 in uia, which view then refuses with NaN |
| Properties.DelResets | src/processor.rs:550-571 | del sets the register to Null, keeping its kind, and nothing else changes |
| Properties.DelUnknown | src/processor.rs:566-569 | an unknown name is NaR |
| Properties.LabelIsNoIndex | src/processor.rs:345 | a label, which contains ':', is never the decimal text of an index |
| Properties.GotoMissingLabel | src/processor.rs:351-352 | a goto to a label no statement has is NaC |
| Properties.FirstLabelEntry | src/processor.rs:341-350 | the first entry matching a label is the first statement carrying that label |
| Properties.GotoLabel | src/processor.rs:337-353 | goto to a present label lands on its first statement and saves the counter in past |
| Properties.GotoIndex | src/processor.rs:345 | `goto n` jumps to n exactly when statement n is a label; otherwise NaC |
| Properties.LabelTableFirstOnly | src/read.rs:46-56 | a program whose only label is its first statement has a one-entry table |
| Properties.NoMainFails | src/processor.rs:54-78 | a program without "main:" stops at once with NaC |
| Properties.DefaultProgramFails | src/read.rs:82-91 | running the default program is NaC |
| Properties.RunFromFetchesInBounds | src/processor.rs:62-63 | from a counter >= 1, every fetched statement has 1 <= counter <= thread_len |
| Properties.RunFetchesInBounds | src/processor.rs:60-63 | after goto "main:", every fetch of a run is in bounds |
| Properties.IterateKeeps | src/processor.rs:62-77 | what every step keeps, the fetch loop keeps |
| Properties.RunFromIsIterate | src/processor.rs:62-77 | the fetch loop is the loop over the program's Step |
| Properties.RunFromStep | src/processor.rs:62-77 | a statement that proceeds hands the rest of the fuel to the next machine |
| Properties.RunFromMoreFuel | src/processor.rs:62-77 | a run that has stopped within some fuel gives the same outcome with more fuel |
| Scenarios.AddProgramLoads | src/read.rs:61-79 | the add program's text loads into its statements |
| Scenarios.AddScenario | src/processor.rs:54-78 | `main:,set uia 1,set uib 2,add uia uib,view uib,set proc 0,exit` prints 3 and exits with 0 |
| Scenarios.AddScenarioWithoutMain | src/processor.rs:54-78 | the same without `main:` is NaC before any statement |
| Scenarios.MixedScenario | src/processor.rs:204-207 | `jump_eq uia sia 1` is NaR and the view after it never runs |
| Scenarios.CallProgramLabels | src/read.rs:46-56 | the call program's table is [("main:", 1), ("f:", 5)] |
| Scenarios.CallScenario | src/processor.rs:54-78 | goto into a routine and return: prints hi, exits with 7, past 2 |

## Left out

- Reading the script file or standard input (src/read.rs:40, 93-97) and the
  banner printed by `geti` (src/read.rs:17) are not modelled. `Get` and
  `GetI` take the text that was read.
- Diagnostics on standard error and the `verbose` feature's traces are not
  modelled. Standard output is an appended string, `out`.
- `std::process::exit` is not modelled as a process exit. It becomes the
  `Exit`/`Fatal` signal of the statement, and the state is left as the
  source leaves it. The operating system's truncation of the exit code to
  8 bits is not modelled.
- Rust integer overflow is modelled as a `Panic` signal, as in a debug
  build. This covers the u8/i8 `+`/`-`, `aa - 1` with target 0,
  `counter - 1` with counter 0, and `counter + 1` at `usize::MAX`. A
  release build would wrap; the model does not follow it. `usize` is
  taken to be 64 bits.
- Semantics.Run and Engine.Processor.Run: `run` may loop forever, so both
  run the fetch loop for at most `fuel` iterations. When the fuel is spent
  they end with `Proceed` and the state reached. `Properties.RunFromMoreFuel`
  shows that more fuel does not change a run that has already stopped.
- Each `Register` is a value inside the processor, not an object updated
  in place. It is owned and never shared, so nothing is lost.
- The `raw` feature's setters `set_u8`/`set_i8`
  (src/processor.rs:686-712) are feature-gated and unused.
- src/program.rs is not part of this model. It is unused scaffolding.
- src/main.rs is not part of this model. Its `main` is empty and calls
  nothing.
- The printing operations (`print`, `printl`, `bunny`, and `view`'s output)
  are modelled only as text appended to `out`. Rust's `{:?}` formatting of
  a u8, i8 or i32 is the decimal text with a leading '-' when negative.
