/**
 * The reference semantics of the execution engine of src/processor.rs,
 * as functions on a machine-state record. Every operation of `Processor`
 * is one function from the state before to an `Outcome`: the signal for
 * the fetch loop and the state after. The source ends the process with
 * `std::process::exit` on every fatal condition; here that is a `Fatal`
 * signal carrying the exit code, and the `exit` instruction is an `Exit`
 * signal. Rust integer overflow, which panics in a debug build, is a
 * `Panic` signal. Every operation that does not proceed leaves the state
 * as it was, because in the source every fatal check precedes the write.
 */
module Semantics {
  import opened Numeric
  import opened Text
  import opened Registers

  /** The nine registers. */
  datatype RegName = Proc | Uia | Sia | Uib | Sib | Uic | Sic | Uid | Sid

  /** The kind each register is created with. */
  function KindOf(r: RegName): RegisterKind {
    match r
    case Proc => Process
    case Uia | Uib | Uic | Uid => Unsigned8
    case Sia | Sib | Sic | Sid => Signed8
  }

  /** The name of each register in program text. */
  function NameText(r: RegName): string {
    match r
    case Proc => "proc"
    case Uia => "uia"
    case Sia => "sia"
    case Uib => "uib"
    case Sib => "sib"
    case Uic => "uic"
    case Sic => "sic"
    case Uid => "uid"
    case Sid => "sid"
  }

  /** The register a name addresses in `set`, `view`, `move` and `del`. */
  function RegisterNamed(s: string): Option<RegName> {
    match s
    case "proc" => Some(Proc)
    case "uia" => Some(Uia)
    case "sia" => Some(Sia)
    case "uib" => Some(Uib)
    case "sib" => Some(Sib)
    case "uic" => Some(Uic)
    case "sic" => Some(Sic)
    case "uid" => Some(Uid)
    case "sid" => Some(Sid)
    case _ => None
  }

  /** The unsigned register a name addresses in `add`, `sub`, `jump_eq` and `jump_neq`. */
  function UnsignedNamed(s: string): Option<RegName> {
    match s
    case "uia" => Some(Uia)
    case "uib" => Some(Uib)
    case "uic" => Some(Uic)
    case "uid" => Some(Uid)
    case _ => None
  }

  /** The signed register a name addresses in `add`, `sub`, `jump_eq` and `jump_neq`. */
  function SignedNamed(s: string): Option<RegName> {
    match s
    case "sia" => Some(Sia)
    case "sib" => Some(Sib)
    case "sic" => Some(Sic)
    case "sid" => Some(Sid)
    case _ => None
  }

  /**
   * The state of a `Processor`: its nine registers, the 1-based program
   * counter, the single return slot `past`, and everything written to
   * standard output so far.
   */
  datatype Machine = Machine(
    proc: Register,
    uia: Register, sia: Register,
    uib: Register, sib: Register,
    uic: Register, sic: Register,
    uid: Register, sid: Register,
    counter: nat,
    past: nat,
    out: string)

  function Get(m: Machine, r: RegName): Register {
    match r
    case Proc => m.proc
    case Uia => m.uia
    case Sia => m.sia
    case Uib => m.uib
    case Sib => m.sib
    case Uic => m.uic
    case Sic => m.sic
    case Uid => m.uid
    case Sid => m.sid
  }

  function Put(m: Machine, r: RegName, reg: Register): Machine {
    match r
    case Proc => m.(proc := reg)
    case Uia => m.(uia := reg)
    case Sia => m.(sia := reg)
    case Uib => m.(uib := reg)
    case Sib => m.(sib := reg)
    case Uic => m.(uic := reg)
    case Sic => m.(sic := reg)
    case Uid => m.(uid := reg)
    case Sid => m.(sid := reg)
  }

  /** What the engine runs: the statements and the label table of the loaded program. */
  datatype Code = Code(thread: seq<seq<string>>, functions: seq<(string, nat)>)

  /** How an operation ends: go on, `exit` with a code, a fatal condition with its code, or a Rust panic. */
  datatype Signal = Proceed | Exit(code: int) | Fatal(code: int) | Panic

  datatype Outcome = Outcome(signal: Signal, m: Machine)

  function Continue(m: Machine): Outcome {
    Outcome(Proceed, m)
  }

  function Fail(m: Machine, code: int): Outcome {
    Outcome(Fatal(code), m)
  }

  /** `Processor::new`: every register `Null` with its kind, counter 1, `past` 0, nothing printed. */
  function Initial(): Machine {
    var Unsigned := Register(Unsigned8, Null);
    var Signed := Register(Signed8, Null);
    Machine(Register(Process, Null), Unsigned, Signed, Unsigned, Signed, Unsigned, Signed, Unsigned, Signed, 1, 0, "")
  }

  /** `Processor::jump`: the counter becomes `v`. */
  function Jump(m: Machine, v: nat): Machine {
    m.(counter := v)
  }

  /** `Processor::jump_str`: the counter becomes the `usize` the text denotes; NaN if it denotes none. */
  function JumpStr(m: Machine, v: string): Outcome {
    match ParseUsize(v)
    case None => Fail(m, NA_N)
    case Some(n) => Continue(Jump(m, n))
  }

  /** A label-table entry answers to its name and to the decimal text of its index. */
  predicate LabelMatches(entry: (string, nat), dest: string) {
    dest == entry.0 || dest == NatToString(entry.1)
  }

  /** The position of the first entry of the table that answers to `dest`. */
  function FirstMatch(functions: seq<(string, nat)>, dest: string): (k: Option<nat>)
    ensures k.Some? ==> k.value < |functions| && LabelMatches(functions[k.value], dest)
    ensures k.Some? ==> forall j :: 0 <= j < k.value ==> !LabelMatches(functions[j], dest)
    ensures k.None? ==> forall j :: 0 <= j < |functions| ==> !LabelMatches(functions[j], dest)
  {
    if functions == [] then None
    else if LabelMatches(functions[0], dest) then Some(0)
    else match FirstMatch(functions[1..], dest)
      case None => None
      case Some(k) => Some(k + 1)
  }

  /**
   * `Processor::goto`: save the counter in `past` and jump to the index of
   * the first matching label entry; NaC when no entry matches.
   */
  function Goto(functions: seq<(string, nat)>, m: Machine, dest: string): Outcome {
    match FirstMatch(functions, dest)
    case None => Fail(m, NA_C)
    case Some(k) => Continue(Jump(m.(past := m.counter), functions[k].1))
  }

  /** The setter `Processor::set` calls for each register. */
  function Store(r: RegName, reg: Register, v: string): Result<Register> {
    match r
    case Proc => SetProcess(reg, v)
    case Uia | Uib | Uic | Uid => SetU8Str(reg, v)
    case Sia | Sib | Sic | Sid => SetI8Str(reg, v)
  }

  /** `Processor::set`: parse the literal into the named register; NaR for an unknown name. */
  function Set(m: Machine, dest: string, v: string): Outcome {
    match RegisterNamed(dest)
    case None => Fail(m, NA_R)
    case Some(r) =>
      match Store(r, Get(m, r), v)
      case Err(code) => Fail(m, code)
      case Ok(reg) => Continue(Put(m, r, reg))
  }

  /** The reader `Processor::view` calls for each register. */
  function Shown(r: RegName, reg: Register): Result<int> {
    match r
    case Proc => ProcessVal(reg)
    case Uia | Uib | Uic | Uid => ValU8(reg)
    case Sia | Sib | Sic | Sid => ValI8(reg)
  }

  /** Print `text` on standard output (`print!`). */
  function Print(m: Machine, text: string): Outcome {
    Continue(m.(out := m.out + text))
  }

  /** Print `text` and a newline on standard output (`println!`). */
  function Printl(m: Machine, text: string): Outcome {
    Print(m, text + "\n")
  }

  /** `Processor::view`: print the value of the named register; NaR for an unknown name. */
  function View(m: Machine, dest: string): Outcome {
    match RegisterNamed(dest)
    case None => Fail(m, NA_R)
    case Some(r) =>
      match Shown(r, Get(m, r))
      case Err(code) => Fail(m, code)
      case Ok(n) => Printl(m, IntToString(n))
  }

  /** The two arithmetic instructions. */
  datatype ArithOp = Plus | Minus

  /** The numeric payload `numu8`/`numi8` read from an operand of the unsigned or the signed class. */
  function Operand(v: RKVal, signed: bool): Result<int> {
    if signed then NumI8(v) else NumU8(v)
  }

  /** The register kind of the unsigned or the signed class. */
  function ClassKind(signed: bool): RegisterKind {
    if signed then Signed8 else Unsigned8
  }

  /** The register a name addresses within the unsigned or the signed class. */
  function ClassNamed(s: string, signed: bool): Option<RegName> {
    if signed then SignedNamed(s) else UnsignedNamed(s)
  }

  /**
   * The body of `add`/`sub` once both names are of one class: read `dest`,
   * then read `v`, store `v OP dest` into `v`. NaR for a name outside the
   * class or a value of the wrong tag (including `Null`); a result outside
   * the 8-bit range is a Rust overflow panic.
   */
  function ArithInClass(m: Machine, dest: string, v: string, op: ArithOp, signed: bool): Outcome {
    match ClassNamed(dest, signed)
    case None => Fail(m, NA_R)
    case Some(d) =>
      match Operand(Get(m, d).value, signed)
      case Err(code) => Fail(m, code)
      case Ok(n) =>
        match ClassNamed(v, signed)
        case None => Fail(m, NA_R)
        case Some(w) =>
          match Operand(Get(m, w).value, signed)
          case Err(code) => Fail(m, code)
          case Ok(a) =>
            var x := if op == Plus then a + n else a - n;
            var k := ClassKind(signed);
            if !(KindMin(k) <= x <= KindMax(k)) then Outcome(Panic, m)
            else Continue(Put(m, w, Get(m, w).(value := Tag(k, x))))
  }

  /**
   * `Processor::add` and `Processor::sub`: NaR if `dest` is "proc"; the
   * unsigned class when both names contain "ui", else the signed class
   * when both contain "si"; otherwise nothing happens.
   */
  function Arith(m: Machine, dest: string, v: string, op: ArithOp): Outcome {
    if dest == "proc" then Fail(m, NA_R)
    else if Contains(dest, "ui") && Contains(v, "ui") then ArithInClass(m, dest, v, op, false)
    else if Contains(dest, "si") && Contains(v, "si") then ArithInClass(m, dest, v, op, true)
    else Continue(m)
  }

  /** The comparison of `ife`/`ifn` once both names are of one class: NaR as in `ArithInClass`. */
  function EqualInClass(m: Machine, dest: string, v: string, signed: bool): Result<bool> {
    match ClassNamed(dest, signed)
    case None => Err(NA_R)
    case Some(d) =>
      match Operand(Get(m, d).value, signed)
      case Err(code) => Err(code)
      case Ok(n) =>
        match ClassNamed(v, signed)
        case None => Err(NA_R)
        case Some(w) =>
          match Operand(Get(m, w).value, signed)
          case Err(code) => Err(code)
          case Ok(nn) => Ok(n == nn)
  }

  /** Whether the two registers of `jump_eq`/`jump_neq` hold the same number; NaR when the names are not of one class. */
  function Compare(m: Machine, dest: string, v: string): Result<bool> {
    if Contains(dest, "ui") && Contains(v, "ui") then EqualInClass(m, dest, v, false)
    else if Contains(dest, "si") && Contains(v, "si") then EqualInClass(m, dest, v, true)
    else Err(NA_R)
  }

  /**
   * `Processor::ife` (`onEqual`) and `Processor::ifn` (`!onEqual`): when the
   * comparison comes out as `onEqual`, parse the target `to` as a `usize`
   * (NaN if it is not one) and jump to one before it; a target of 0 makes
   * `aa - 1` overflow.
   */
  function CondJump(m: Machine, dest: string, v: string, to: string, onEqual: bool): Outcome {
    match Compare(m, dest, v)
    case Err(code) => Fail(m, code)
    case Ok(equal) =>
      if equal != onEqual then Continue(m)
      else match ParseUsize(to)
        case None => Fail(m, NA_N)
        case Some(aa) => if aa == 0 then Outcome(Panic, m) else Continue(Jump(m, aa - 1))
  }

  /** `Processor::move`: copy the raw value of `dest` into `v`, whatever `v`'s kind; NaR for an unknown name. */
  function Move(m: Machine, dest: string, v: string): Outcome {
    match RegisterNamed(dest)
    case None => Fail(m, NA_R)
    case Some(a) =>
      match RegisterNamed(v)
      case None => Fail(m, NA_R)
      case Some(b) => Continue(Put(m, b, Get(m, b).(value := Get(m, a).value)))
  }

  /** `Processor::del`: reset the named register to `Null`; NaR for an unknown name. */
  function Del(m: Machine, dest: string): Outcome {
    match RegisterNamed(dest)
    case None => Fail(m, NA_R)
    case Some(r) => Continue(Put(m, r, Get(m, r).(value := Null)))
  }

  /** The banner printed by `bunny`. */
  const BUNNY: string := "(\\ /)\n( . .)\nC(\")(\")"

  /** `Processor::one`: a one-token statement. */
  function One(m: Machine, cmd: string): Outcome {
    if ':' in cmd then Continue(m)
    else match cmd
      case "return" => Continue(Jump(m, m.past))
      case "exit" =>
        (match ProcessVal(m.proc)
         case Ok(code) => Outcome(Exit(code), m)
         case Err(code) => Fail(m, code))
      case "bunny" => Printl(m, BUNNY)
      case "printl" => Printl(m, "")
      case _ => Fail(m, NA_C)
  }

  /** `Processor::two`: a two-token statement. */
  function Two(functions: seq<(string, nat)>, m: Machine, cmd: string, dest: string): Outcome {
    match cmd
    case "view" => View(m, dest)
    case "jump" => JumpStr(m, dest)
    case "goto" => Goto(functions, m, dest)
    case "print" => Print(m, dest)
    case "printl" => Printl(m, dest)
    case "del" => Del(m, dest)
    case _ => Fail(m, NA_C)
  }

  /** `Processor::three`: a three-token statement. */
  function Three(m: Machine, cmd: string, dest: string, v: string): Outcome {
    match cmd
    case "set" => Set(m, dest, v)
    case "add" => Arith(m, dest, v, Plus)
    case "sub" => Arith(m, dest, v, Minus)
    case "move" => Move(m, dest, v)
    case "print" => Print(m, dest + " " + v)
    case "printl" => Print(m, dest + " " + v + "\n")
    case _ => Fail(m, NA_C)
  }

  /** `Processor::four`: a four-token statement. */
  function Four(m: Machine, cmd: string, dest: string, v: string, n: string): Outcome {
    match cmd
    case "jump_eq" => CondJump(m, dest, v, n, true)
    case "jump_neq" => CondJump(m, dest, v, n, false)
    case "print" => Print(m, dest + " " + v + " " + n)
    case "printl" => Print(m, dest + " " + v + " " + n + "\n")
    case _ => Fail(m, NA_C)
  }

  /** Dispatch a statement by its number of tokens; NaC for any number outside 1..4. */
  function Execute(functions: seq<(string, nat)>, m: Machine, stmt: seq<string>): Outcome {
    if |stmt| == 4 then Four(m, stmt[0], stmt[1], stmt[2], stmt[3])
    else if |stmt| == 3 then Three(m, stmt[0], stmt[1], stmt[2])
    else if |stmt| == 2 then Two(functions, m, stmt[0], stmt[1])
    else if |stmt| == 1 then One(m, stmt[0])
    else Fail(m, NA_C)
  }

  /** `self.jump(self.counter + 1)` after every statement; past `usize::MAX` it is an overflow. */
  function Advance(m: Machine): Outcome {
    if m.counter + 1 > USIZE_MAX then Outcome(Panic, m) else Continue(Jump(m, m.counter + 1))
  }

  /**
   * One iteration of the fetch loop of `Processor::run`, entered while
   * `counter <= thread_len`: fetch statement `counter` (1-based; a counter
   * of 0 makes `counter - 1` overflow), execute it and advance.
   */
  function Step(code: Code, m: Machine): Outcome
    requires m.counter <= |code.thread|
  {
    if m.counter == 0 then Outcome(Panic, m)
    else
      var o := Execute(code.functions, m, code.thread[m.counter - 1]);
      if o.signal == Proceed then Advance(o.m) else o
  }

  /**
   * The fetch loop of `Processor::run` for at most `fuel` iterations. It
   * proceeds with the final state when the counter passes the last
   * statement (`run` returns) or when the fuel is spent.
   */
  function RunFrom(code: Code, m: Machine, fuel: nat): Outcome
    decreases fuel
  {
    if m.counter > |code.thread| || fuel == 0 then Continue(m)
    else
      var o := Step(code, m);
      if o.signal != Proceed then o else RunFrom(code, o.m, fuel - 1)
  }

  /** `Processor::run`: the implicit `goto "main:"`, then the fetch loop. */
  function Run(code: Code, m: Machine, fuel: nat): Outcome {
    var o := Goto(code.functions, m, "main:");
    if o.signal != Proceed then o else RunFrom(code, o.m, fuel)
  }
}
