/**
 * What the interpreter promises, proved about the reference semantics:
 * dispatch and its errors, the counter discipline of the fetch loop,
 * call and return through the single return slot, the register
 * operations and their frames, and the label table of a loaded program.
 */
module Properties {
  import opened Numeric
  import opened Text
  import opened Registers
  import opened Loader
  import opened Semantics

  // ---------------------------------------------------------------
  // Register names
  // ---------------------------------------------------------------

  /** A name addresses a register exactly when it is that register's name. */
  lemma RegisterNamedInverse(s: string, r: RegName)
    ensures RegisterNamed(s) == Some(r) <==> s == NameText(r)
  {
  }

  /** A two-character pattern occurs in a three-character text only at position 0 or 1. */
  lemma ContainsInThree(t: string, p: string)
    requires |t| == 3 && |p| == 2
    ensures Contains(t, p) <==> t[..2] == p || t[1..] == p
  {
    assert t[1..][..2] == t[1..];
    assert !Contains(t[1..][1..], p);
    assert Contains(t[1..], p) == (t[1..] == p);
  }

  /** The class test of `add`, `sub`, `jump_eq` and `jump_neq` on the register names. */
  lemma ClassOfName(r: RegName)
    ensures Contains(NameText(r), "ui") <==> KindOf(r) == Unsigned8
    ensures Contains(NameText(r), "si") <==> KindOf(r) == Signed8
    ensures KindOf(r) == Unsigned8 ==> ClassNamed(NameText(r), false) == Some(r)
    ensures KindOf(r) == Signed8 ==> ClassNamed(NameText(r), true) == Some(r)
  {
    if r == Proc {
      assert "proc"[..2] == "pr" && "proc"[1..][..2] == "ro" && "proc"[1..][1..][..2] == "oc";
      assert "proc"[1..][1..][1..] == "c";
    } else {
      var t := NameText(r);
      ContainsInThree(t, "ui");
      ContainsInThree(t, "si");
      assert t[1..][0] == 'i';
    }
  }

  /** Writing one register changes that register and nothing else. */
  lemma PutFrame(m: Machine, r: RegName, reg: Register)
    ensures Get(Put(m, r, reg), r) == reg
    ensures forall q :: q != r ==> Get(Put(m, r, reg), q) == Get(m, q)
    ensures Put(m, r, reg).counter == m.counter && Put(m, r, reg).past == m.past
    ensures Put(m, r, reg).out == m.out
  {
  }

  /** Every register has the kind it was created with. */
  predicate KindsIntact(m: Machine) {
    m.proc.kind == Process &&
    m.uia.kind == Unsigned8 && m.uib.kind == Unsigned8 && m.uic.kind == Unsigned8 && m.uid.kind == Unsigned8 &&
    m.sia.kind == Signed8 && m.sib.kind == Signed8 && m.sic.kind == Signed8 && m.sid.kind == Signed8
  }

  /** Under `KindsIntact`, the register of each name has that name's kind. */
  lemma KindsIntactGet(m: Machine)
    ensures KindsIntact(m) <==> forall r :: Get(m, r).kind == KindOf(r)
  {
    if forall r :: Get(m, r).kind == KindOf(r) {
      assert Get(m, Proc).kind == Process;
      assert Get(m, Uia).kind == Unsigned8 && Get(m, Uib).kind == Unsigned8;
      assert Get(m, Uic).kind == Unsigned8 && Get(m, Uid).kind == Unsigned8;
      assert Get(m, Sia).kind == Signed8 && Get(m, Sib).kind == Signed8;
      assert Get(m, Sic).kind == Signed8 && Get(m, Sid).kind == Signed8;
    }
  }

  lemma InitialKindsIntact()
    ensures KindsIntact(Initial())
    ensures forall r :: Get(Initial(), r).value == Null
    ensures Initial().counter == 1 && Initial().past == 0 && Initial().out == ""
  {
  }

  /** The value of `r` carries the tag of `r`'s own kind. */
  predicate HoldsOwnTag(r: RegName, v: RKVal) {
    match KindOf(r)
    case Unsigned8 => v.U8?
    case Signed8 => v.I8?
    case Process => v.I32?
  }

  /** The number held by a tagged value. */
  function Payload(v: RKVal): int {
    match v
    case U8(u) => u
    case I8(i) => i
    case I32(p) => p
    case Null => 0
  }

  // ---------------------------------------------------------------
  // Dispatch
  // ---------------------------------------------------------------

  /** The mnemonics each arity knows. */
  function Mnemonics(arity: nat): set<string> {
    if arity == 1 then {"return", "exit", "bunny", "printl"}
    else if arity == 2 then {"view", "jump", "goto", "print", "printl", "del"}
    else if arity == 3 then {"set", "add", "sub", "move", "print", "printl"}
    else if arity == 4 then {"jump_eq", "jump_neq", "print", "printl"}
    else {}
  }

  /** A statement of no token or of more than four tokens is NaC. */
  lemma BadArity(functions: seq<(string, nat)>, m: Machine, stmt: seq<string>)
    requires |stmt| == 0 || |stmt| > 4
    ensures Execute(functions, m, stmt) == Fail(m, NA_C)
  {
  }

  /** A mnemonic its arity does not know is NaC, unless it is a one-token label. */
  lemma UnknownMnemonic(functions: seq<(string, nat)>, m: Machine, stmt: seq<string>)
    requires 1 <= |stmt| <= 4 && stmt[0] !in Mnemonics(|stmt|)
    requires |stmt| == 1 ==> ':' !in stmt[0]
    ensures Execute(functions, m, stmt) == Fail(m, NA_C)
  {
  }

  /** A one-token statement containing ':' (a label) does nothing. */
  lemma LabelIsNoOp(functions: seq<(string, nat)>, m: Machine, cmd: string)
    requires ':' in cmd
    ensures Execute(functions, m, [cmd]) == Continue(m)
  {
  }

  /** The empty statement that a whitespace-only piece of the program becomes is NaC. */
  lemma BlankStatementIsNaC(functions: seq<(string, nat)>, m: Machine)
    ensures Execute(functions, m, [""]) == Fail(m, NA_C)
  {
  }

  /** Whatever a statement does, it does nothing unless it proceeds: every fatal check precedes every write. */
  lemma ExecuteStopsClean(functions: seq<(string, nat)>, m: Machine, stmt: seq<string>)
    ensures Execute(functions, m, stmt).signal != Proceed ==> Execute(functions, m, stmt).m == m
  {
  }

  // ---------------------------------------------------------------
  // Register kinds
  // ---------------------------------------------------------------

  /** Writing a register with its own kind keeps every kind. */
  lemma PutKeepsKinds(m: Machine, r: RegName, reg: Register)
    requires KindsIntact(m) && reg.kind == Get(m, r).kind
    ensures KindsIntact(Put(m, r, reg))
  {
    PutFrame(m, r, reg);
  }

  lemma SetKeepsKinds(m: Machine, dest: string, v: string)
    requires KindsIntact(m)
    ensures KindsIntact(Set(m, dest, v).m)
  {
    if RegisterNamed(dest).Some? {
      var r := RegisterNamed(dest).value;
      var stored := Store(r, Get(m, r), v);
      if stored.Ok? {
        PutKeepsKinds(m, r, stored.value);
      }
    }
  }

  lemma ArithInClassKeepsKinds(m: Machine, dest: string, v: string, op: ArithOp, signed: bool)
    requires KindsIntact(m)
    ensures KindsIntact(ArithInClass(m, dest, v, op, signed).m)
  {
    var o := ArithInClass(m, dest, v, op, signed);
    if o.signal == Proceed {
      var w := ClassNamed(v, signed).value;
      PutKeepsKinds(m, w, Get(o.m, w));
    }
  }

  lemma MoveKeepsKinds(m: Machine, dest: string, v: string)
    requires KindsIntact(m)
    ensures KindsIntact(Move(m, dest, v).m)
  {
    if RegisterNamed(dest).Some? && RegisterNamed(v).Some? {
      var b := RegisterNamed(v).value;
      PutKeepsKinds(m, b, Get(Move(m, dest, v).m, b));
    }
  }

  lemma DelKeepsKinds(m: Machine, dest: string)
    requires KindsIntact(m)
    ensures KindsIntact(Del(m, dest).m)
  {
    if RegisterNamed(dest).Some? {
      var r := RegisterNamed(dest).value;
      PutKeepsKinds(m, r, Get(Del(m, dest).m, r));
    }
  }

  lemma ArithKeepsKinds(m: Machine, dest: string, v: string, op: ArithOp)
    requires KindsIntact(m)
    ensures KindsIntact(Arith(m, dest, v, op).m)
  {
    ArithInClassKeepsKinds(m, dest, v, op, false);
    ArithInClassKeepsKinds(m, dest, v, op, true);
  }

  lemma ThreeKeepsKinds(m: Machine, cmd: string, dest: string, v: string)
    requires KindsIntact(m)
    ensures KindsIntact(Three(m, cmd, dest, v).m)
  {
    match cmd
    case "set" => SetKeepsKinds(m, dest, v);
    case "add" => ArithKeepsKinds(m, dest, v, Plus);
    case "sub" => ArithKeepsKinds(m, dest, v, Minus);
    case "move" => MoveKeepsKinds(m, dest, v);
    case _ =>
  }

  /** The jumps and the printing statements change no register. */
  lemma FourKeepsRegisters(m: Machine, cmd: string, dest: string, v: string, n: string)
    ensures Four(m, cmd, dest, v, n).m == m.(counter := Four(m, cmd, dest, v, n).m.counter, out := Four(m, cmd, dest, v, n).m.out)
  {
  }

  lemma TwoKeepsKinds(functions: seq<(string, nat)>, m: Machine, cmd: string, dest: string)
    requires KindsIntact(m)
    ensures KindsIntact(Two(functions, m, cmd, dest).m)
  {
    if cmd == "del" {
      DelKeepsKinds(m, dest);
    }
  }

  /** No statement changes the kind of any register. */
  lemma ExecuteKeepsKinds(functions: seq<(string, nat)>, m: Machine, stmt: seq<string>)
    requires KindsIntact(m)
    ensures KindsIntact(Execute(functions, m, stmt).m)
  {
    if |stmt| == 4 {
      FourKeepsRegisters(m, stmt[0], stmt[1], stmt[2], stmt[3]);
    } else if |stmt| == 3 {
      ThreeKeepsKinds(m, stmt[0], stmt[1], stmt[2]);
    } else if |stmt| == 2 {
      TwoKeepsKinds(functions, m, stmt[0], stmt[1]);
    }
  }

  lemma StepKeepsKinds(code: Code, m: Machine)
    requires m.counter <= |code.thread| && KindsIntact(m)
    ensures KindsIntact(Step(code, m).m)
  {
    if m.counter > 0 {
      ExecuteKeepsKinds(code.functions, m, code.thread[m.counter - 1]);
    }
  }

  /** Running a program never changes the kind of any register. */
  lemma RunFromKeepsKinds(code: Code, m: Machine, fuel: nat)
    requires KindsIntact(m)
    ensures KindsIntact(RunFrom(code, m, fuel).m)
  {
    RunFromIsIterate(code, m, fuel);
    forall x | KindsIntact(x) && x.counter <= |code.thread|
      ensures KindsIntact(StepOf(code)(x).m)
    {
      StepKeepsKinds(code, x);
    }
    IterateKeeps(StepOf(code), |code.thread|, (x: Machine) => KindsIntact(x), m, fuel);
  }

  lemma RunKeepsKinds(code: Code, m: Machine, fuel: nat)
    requires KindsIntact(m)
    ensures KindsIntact(Run(code, m, fuel).m)
  {
    var o := Goto(code.functions, m, "main:");
    if o.signal == Proceed {
      RunFromKeepsKinds(code, o.m, fuel);
    }
  }

  // ---------------------------------------------------------------
  // The counter and the return slot
  // ---------------------------------------------------------------

  /** The statements that set the counter: `return`, `jump`, `goto`, `jump_eq`, `jump_neq`. */
  predicate IsControl(stmt: seq<string>) {
    || (|stmt| == 1 && stmt[0] == "return")
    || (|stmt| == 2 && (stmt[0] == "jump" || stmt[0] == "goto"))
    || (|stmt| == 4 && (stmt[0] == "jump_eq" || stmt[0] == "jump_neq"))
  }

  lemma ThreeKeepsCounter(m: Machine, cmd: string, dest: string, v: string)
    ensures Three(m, cmd, dest, v).m.counter == m.counter
    ensures Three(m, cmd, dest, v).m.past == m.past
  {
    var o := Three(m, cmd, dest, v);
    if o.m != m {
      match cmd
      case "set" =>
        var r := RegisterNamed(dest).value;
        PutFrame(m, r, Get(o.m, r));
      case "add" =>
        var w := ClassNamed(v, !(Contains(dest, "ui") && Contains(v, "ui"))).value;
        PutFrame(m, w, Get(o.m, w));
      case "sub" =>
        var w := ClassNamed(v, !(Contains(dest, "ui") && Contains(v, "ui"))).value;
        PutFrame(m, w, Get(o.m, w));
      case "move" =>
        var b := RegisterNamed(v).value;
        PutFrame(m, b, Get(o.m, b));
      case _ =>
    }
  }

  /** A statement that is not a control statement leaves the counter and the return slot alone. */
  lemma NonControlKeepsCounter(functions: seq<(string, nat)>, m: Machine, stmt: seq<string>)
    requires !IsControl(stmt)
    ensures Execute(functions, m, stmt).m.counter == m.counter
    ensures Execute(functions, m, stmt).m.past == m.past
  {
    if |stmt| == 3 {
      ThreeKeepsCounter(m, stmt[0], stmt[1], stmt[2]);
    } else if |stmt| == 2 && stmt[0] == "del" {
      var r := RegisterNamed(stmt[1]);
      if r.Some? {
        PutFrame(m, r.value, Get(Execute(functions, m, stmt).m, r.value));
      }
    }
  }

  /** Only `goto` writes the return slot. */
  lemma OnlyGotoSetsPast(functions: seq<(string, nat)>, m: Machine, stmt: seq<string>)
    requires !(|stmt| == 2 && stmt[0] == "goto")
    ensures Execute(functions, m, stmt).m.past == m.past
  {
    if !IsControl(stmt) {
      NonControlKeepsCounter(functions, m, stmt);
    }
  }

  /** The statement at the counter, when the counter is in range. */
  function Current(code: Code, m: Machine): seq<string>
    requires 1 <= m.counter <= |code.thread|
  {
    code.thread[m.counter - 1]
  }

  /** After a statement that proceeds, the counter is the one the statement left, plus one. */
  lemma StepAdvances(code: Code, m: Machine)
    requires 1 <= m.counter <= |code.thread|
    ensures var o := Execute(code.functions, m, Current(code, m));
            Step(code, m).signal == Proceed ==>
              o.signal == Proceed && Step(code, m).m == o.m.(counter := o.m.counter + 1)
  {
  }

  /** A statement that is not a control statement moves the counter on by exactly one. */
  lemma StepByOne(code: Code, m: Machine)
    requires 1 <= m.counter <= |code.thread| && !IsControl(Current(code, m))
    ensures Step(code, m).signal == Proceed ==>
              Step(code, m).m.counter == m.counter + 1 && Step(code, m).m.past == m.past
  {
    NonControlKeepsCounter(code.functions, m, Current(code, m));
  }

  /** After `jump k` the next statement fetched is statement k + 1; a target that is no `usize` is NaN. */
  lemma JumpStep(code: Code, m: Machine, target: string)
    requires 1 <= m.counter <= |code.thread| && Current(code, m) == ["jump", target]
    ensures ParseUsize(target).None? ==> Step(code, m) == Fail(m, NA_N)
    ensures ParseUsize(target).Some? && ParseUsize(target).value < USIZE_MAX ==>
              Step(code, m) == Continue(m.(counter := ParseUsize(target).value + 1))
  {
  }

  /** After `goto d` the counter is one past the index of the first matching label entry and `past` holds the goto's own position; with no match, NaC. */
  lemma GotoStep(code: Code, m: Machine, d: string)
    requires 1 <= m.counter <= |code.thread| && Current(code, m) == ["goto", d]
    ensures FirstMatch(code.functions, d).None? ==> Step(code, m) == Fail(m, NA_C)
    ensures FirstMatch(code.functions, d).Some? ==>
              var loc := code.functions[FirstMatch(code.functions, d).value].1;
              loc < USIZE_MAX ==> Step(code, m) == Continue(m.(past := m.counter, counter := loc + 1))
  {
  }

  /** After `return` the counter is one past the position saved by the last `goto`. */
  lemma ReturnStep(code: Code, m: Machine)
    requires 1 <= m.counter <= |code.thread| && Current(code, m) == ["return"]
    requires m.past < USIZE_MAX
    ensures Step(code, m) == Continue(m.(counter := m.past + 1))
  {
  }

  /**
   * A `goto` to a label followed directly by `return` comes back to the
   * statement after the `goto`, with `past` holding the goto's position.
   */
  lemma CallReturn(code: Code, m: Machine, d: string, k: nat)
    requires |code.thread| < USIZE_MAX
    requires 1 <= m.counter <= |code.thread| && Current(code, m) == ["goto", d]
    requires FirstMatch(code.functions, d) == Some(k)
    requires code.functions[k].1 < |code.thread| && code.thread[code.functions[k].1] == ["return"]
    ensures Step(code, m).signal == Proceed
    ensures Step(code, m).m.counter == code.functions[k].1 + 1
    ensures Step(code, Step(code, m).m) == Continue(m.(past := m.counter, counter := m.counter + 1))
  {
    GotoStep(code, m, d);
    ReturnStep(code, Step(code, m).m);
  }

  // ---------------------------------------------------------------
  // set, view and exit
  // ---------------------------------------------------------------

  /**
   * With the kinds intact, `set` fails only for an unknown register (NaR)
   * or a literal out of the register's range or not a number at all (NaN);
   * otherwise it stores the number, tagged by the register's kind, into
   * that register alone.
   */
  lemma SetOutcome(m: Machine, dest: string, v: string)
    requires KindsIntact(m)
    ensures RegisterNamed(dest).None? ==> Set(m, dest, v) == Fail(m, NA_R)
    ensures RegisterNamed(dest).Some? ==>
              var r := RegisterNamed(dest).value;
              var parsed := ParseInt(v, KindMin(KindOf(r)), KindMax(KindOf(r)));
              (parsed.None? ==> Set(m, dest, v) == Fail(m, NA_N)) &&
              (parsed.Some? ==> Set(m, dest, v) == Continue(Put(m, r, Register(KindOf(r), Tag(KindOf(r), parsed.value)))))
  {
  }

  /** Setting a register to the text of any number in its range and viewing it prints that number. */
  lemma SetThenView(m: Machine, r: RegName, n: int)
    requires KindsIntact(m) && KindMin(KindOf(r)) <= n <= KindMax(KindOf(r))
    ensures Set(m, NameText(r), IntToString(n)).signal == Proceed
    ensures var after := Set(m, NameText(r), IntToString(n)).m;
            View(after, NameText(r)) == Continue(after.(out := after.out + IntToString(n) + "\n"))
  {
    RegisterNamedInverse(NameText(r), r);
    ParseIntToString(n, KindMin(KindOf(r)), KindMax(KindOf(r)));
    SetOutcome(m, NameText(r), IntToString(n));
    PutFrame(m, r, Register(KindOf(r), Tag(KindOf(r), n)));
  }

  /** `view` prints the number a register holds, NaN if it holds none of its own tag, NaR for an unknown name. */
  lemma ViewOutcome(m: Machine, dest: string)
    ensures RegisterNamed(dest).None? ==> View(m, dest) == Fail(m, NA_R)
    ensures RegisterNamed(dest).Some? ==>
              var r := RegisterNamed(dest).value;
              var v := Get(m, r).value;
              (!HoldsOwnTag(r, v) ==> View(m, dest) == Fail(m, NA_N)) &&
              (HoldsOwnTag(r, v) ==> View(m, dest) == Continue(m.(out := m.out + IntToString(Payload(v)) + "\n")))
  {
  }

  /** `exit` ends the run with the code in `proc`, or NaN when `proc` holds no `i32`. */
  lemma ExitOutcome(functions: seq<(string, nat)>, m: Machine)
    ensures m.proc.value.I32? ==> Execute(functions, m, ["exit"]) == Outcome(Exit(m.proc.value.p), m)
    ensures !m.proc.value.I32? ==> Execute(functions, m, ["exit"]) == Fail(m, NA_N)
  {
  }

  // ---------------------------------------------------------------
  // add and sub
  // ---------------------------------------------------------------

  /** `dest` may never be `proc`. */
  lemma ArithOnProc(m: Machine, v: string, op: ArithOp)
    ensures Arith(m, "proc", v, op) == Fail(m, NA_R)
  {
  }

  /** Names not both of the unsigned or both of the signed class are silently ignored. */
  lemma ArithMixedIsNoOp(m: Machine, dest: string, v: string, op: ArithOp)
    requires dest != "proc"
    requires !(Contains(dest, "ui") && Contains(v, "ui")) && !(Contains(dest, "si") && Contains(v, "si"))
    ensures Arith(m, dest, v, op) == Continue(m)
  {
  }

  /** In particular on two registers of different kinds, except with `proc` as `dest`. */
  lemma ArithMixedRegisters(m: Machine, d: RegName, w: RegName, op: ArithOp)
    requires d != Proc && KindOf(d) != KindOf(w)
    ensures Arith(m, NameText(d), NameText(w), op) == Continue(m)
  {
    ClassOfName(d);
    ClassOfName(w);
  }

  /**
   * On two registers of one class that both hold a value of their tag,
   * `add dest v` stores v + dest into `v` and `sub dest v` stores
   * v - dest; a result outside the 8-bit range is an overflow; nothing else
   * changes.
   */
  lemma ArithSameClass(m: Machine, d: RegName, w: RegName, op: ArithOp)
    requires KindOf(d) == KindOf(w) != Process
    requires HoldsOwnTag(d, Get(m, d).value) && HoldsOwnTag(w, Get(m, w).value)
    ensures var x := if op == Plus then Payload(Get(m, w).value) + Payload(Get(m, d).value)
                     else Payload(Get(m, w).value) - Payload(Get(m, d).value);
            var o := Arith(m, NameText(d), NameText(w), op);
            var k := KindOf(w);
            (!(KindMin(k) <= x <= KindMax(k)) ==> o == Outcome(Panic, m)) &&
            (KindMin(k) <= x <= KindMax(k) ==>
               o.signal == Proceed && Get(o.m, w) == Register(Get(m, w).kind, Tag(k, x)) &&
               (forall q :: q != w ==> Get(o.m, q) == Get(m, q)) &&
               o.m.counter == m.counter && o.m.past == m.past && o.m.out == m.out)
  {
    ClassOfName(d);
    ClassOfName(w);
    var x := if op == Plus then Payload(Get(m, w).value) + Payload(Get(m, d).value)
             else Payload(Get(m, w).value) - Payload(Get(m, d).value);
    if KindMin(KindOf(w)) <= x <= KindMax(KindOf(w)) {
      PutFrame(m, w, Get(m, w).(value := Tag(KindOf(w), x)));
    }
  }

  /** Within one class, an operand without a value of its tag (`Null`, say) is NaR. */
  lemma ArithMistagged(m: Machine, d: RegName, w: RegName, op: ArithOp)
    requires KindOf(d) == KindOf(w) != Process
    requires !HoldsOwnTag(d, Get(m, d).value) || !HoldsOwnTag(w, Get(m, w).value)
    ensures Arith(m, NameText(d), NameText(w), op) == Fail(m, NA_R)
  {
    ClassOfName(d);
    ClassOfName(w);
  }

  /** Within one class, a name that is not a register of the class is NaR. */
  lemma ArithNotARegister(m: Machine, dest: string, v: string, op: ArithOp, signed: bool)
    requires dest != "proc"
    requires if signed then !(Contains(dest, "ui") && Contains(v, "ui")) && Contains(dest, "si") && Contains(v, "si")
             else Contains(dest, "ui") && Contains(v, "ui")
    requires ClassNamed(dest, signed).None? || ClassNamed(v, signed).None?
    ensures Arith(m, dest, v, op) == Fail(m, NA_R)
  {
  }

  // ---------------------------------------------------------------
  // jump_eq and jump_neq
  // ---------------------------------------------------------------

  /** A conditional jump never changes a register, the return slot or the output. */
  lemma CondJumpKeepsRegisters(m: Machine, dest: string, v: string, to: string, onEqual: bool)
    ensures CondJump(m, dest, v, to, onEqual).m == m.(counter := CondJump(m, dest, v, to, onEqual).m.counter)
  {
  }

  /** Names that are not both "ui" names and not both "si" names cannot be compared: NaR, whatever the names are. */
  lemma CondJumpMixedNames(m: Machine, dest: string, v: string, to: string, onEqual: bool)
    requires !(Contains(dest, "ui") && Contains(v, "ui")) && !(Contains(dest, "si") && Contains(v, "si"))
    ensures CondJump(m, dest, v, to, onEqual) == Fail(m, NA_R)
  {
  }

  /** In particular registers of different kinds, or `proc`: NaR. */
  lemma CondJumpMixed(m: Machine, d: RegName, w: RegName, to: string, onEqual: bool)
    requires KindOf(d) != KindOf(w) || KindOf(d) == Process
    ensures CondJump(m, NameText(d), NameText(w), to, onEqual) == Fail(m, NA_R)
  {
    ClassOfName(d);
    ClassOfName(w);
  }

  /** Within one class, an operand without a value of its tag (`Null`, say) is NaR, taken or not. */
  lemma CondJumpMistagged(m: Machine, d: RegName, w: RegName, to: string, onEqual: bool)
    requires KindOf(d) == KindOf(w) != Process
    requires !HoldsOwnTag(d, Get(m, d).value) || !HoldsOwnTag(w, Get(m, w).value)
    ensures CondJump(m, NameText(d), NameText(w), to, onEqual) == Fail(m, NA_R)
  {
    ClassOfName(d);
    ClassOfName(w);
  }

  /** Within one class, a name that is not a register of the class (`uix`, say) is NaR. */
  lemma CondJumpNotARegister(m: Machine, dest: string, v: string, to: string, onEqual: bool, signed: bool)
    requires if signed then !(Contains(dest, "ui") && Contains(v, "ui")) && Contains(dest, "si") && Contains(v, "si")
             else Contains(dest, "ui") && Contains(v, "ui")
    requires ClassNamed(dest, signed).None? || ClassNamed(v, signed).None?
    ensures CondJump(m, dest, v, to, onEqual) == Fail(m, NA_R)
  {
  }

  /**
   * On two registers of one class holding values of their tag,
   * `jump_eq` branches exactly when the values are equal and `jump_neq`
   * exactly when they differ; a branch to `n` sets the counter to n - 1
   * (so that statement n is fetched next), and the target is parsed only
   * when the branch is taken.
   */
  lemma CondJumpBranches(m: Machine, d: RegName, w: RegName, to: string, onEqual: bool)
    requires KindOf(d) == KindOf(w) != Process
    requires HoldsOwnTag(d, Get(m, d).value) && HoldsOwnTag(w, Get(m, w).value)
    ensures var taken := (Get(m, d).value == Get(m, w).value) == onEqual;
            var o := CondJump(m, NameText(d), NameText(w), to, onEqual);
            (!taken ==> o == Continue(m)) &&
            (taken && ParseUsize(to).None? ==> o == Fail(m, NA_N)) &&
            (taken && ParseUsize(to) == Some(0) ==> o == Outcome(Panic, m)) &&
            (taken && ParseUsize(to).Some? && ParseUsize(to).value > 0 ==>
               o == Continue(m.(counter := ParseUsize(to).value - 1)))
  {
    ClassOfName(d);
    ClassOfName(w);
  }

  /** A taken conditional jump to `n` fetches statement n next; one not taken fetches the next statement. */
  lemma CondJumpStep(code: Code, m: Machine, d: RegName, w: RegName, n: nat, onEqual: bool)
    requires 1 <= m.counter <= |code.thread| && m.counter < USIZE_MAX
    requires Current(code, m) == [if onEqual then "jump_eq" else "jump_neq", NameText(d), NameText(w), NatToString(n)]
    requires 1 <= n <= USIZE_MAX
    requires KindOf(d) == KindOf(w) != Process
    requires HoldsOwnTag(d, Get(m, d).value) && HoldsOwnTag(w, Get(m, w).value)
    ensures Step(code, m).signal == Proceed
    ensures Step(code, m).m.counter == if (Get(m, d).value == Get(m, w).value) == onEqual then n else m.counter + 1
  {
    ParseIntToString(n, 0, USIZE_MAX);
    CondJumpBranches(m, d, w, NatToString(n), onEqual);
    FourIsCondJump(m, d, w, NatToString(n), onEqual);
  }

  lemma FourIsCondJump(m: Machine, d: RegName, w: RegName, to: string, onEqual: bool)
    ensures Four(m, if onEqual then "jump_eq" else "jump_neq", NameText(d), NameText(w), to) ==
            CondJump(m, NameText(d), NameText(w), to, onEqual)
  {
  }

  // ---------------------------------------------------------------
  // move and del
  // ---------------------------------------------------------------

  /** `move a b` copies the raw value of `a` into `b`, keeping `b`'s kind, whatever the tags. */
  lemma MoveCopies(m: Machine, a: RegName, b: RegName)
    ensures var o := Move(m, NameText(a), NameText(b));
            o.signal == Proceed && Get(o.m, b) == Register(Get(m, b).kind, Get(m, a).value) &&
            (forall q :: q != b ==> Get(o.m, q) == Get(m, q)) &&
            o.m.counter == m.counter && o.m.past == m.past && o.m.out == m.out
  {
    RegisterNamedInverse(NameText(a), a);
    RegisterNamedInverse(NameText(b), b);
    PutFrame(m, b, Get(m, b).(value := Get(m, a).value));
  }

  lemma MoveUnknown(m: Machine, dest: string, v: string)
    requires RegisterNamed(dest).None? || RegisterNamed(v).None?
    ensures Move(m, dest, v) == Fail(m, NA_R)
  {
  }

  /** Because `move` does no kind check, `move proc uia` leaves `uia` holding an `i32`, which `view uia` then refuses. */
  lemma MoveMistags(m: Machine, p: i32)
    requires m.proc.value == I32(p)
    ensures Move(m, "proc", "uia").signal == Proceed
    ensures View(Move(m, "proc", "uia").m, "uia") == Fail(Move(m, "proc", "uia").m, NA_N)
  {
  }

  /** `del r` sets `r` to `Null`, keeping its kind, and changes nothing else. */
  lemma DelResets(m: Machine, r: RegName)
    ensures var o := Del(m, NameText(r));
            o.signal == Proceed && Get(o.m, r) == Register(Get(m, r).kind, Null) &&
            (forall q :: q != r ==> Get(o.m, q) == Get(m, q)) &&
            o.m.counter == m.counter && o.m.past == m.past && o.m.out == m.out
  {
    RegisterNamedInverse(NameText(r), r);
    PutFrame(m, r, Get(m, r).(value := Null));
  }

  lemma DelUnknown(m: Machine, dest: string)
    requires RegisterNamed(dest).None?
    ensures Del(m, dest) == Fail(m, NA_R)
  {
  }

  // ---------------------------------------------------------------
  // goto on a loaded program
  // ---------------------------------------------------------------

  /** A label contains ':', so it is never the decimal text of an index. */
  lemma LabelIsNoIndex(dest: string, n: nat)
    requires ':' in dest
    ensures dest != NatToString(n)
  {
    assert AllDigits(NatToString(n));
  }

  /** `goto` to a label that no statement of a loaded program has is NaC. */
  lemma GotoMissingLabel(thread: seq<seq<string>>, m: Machine, dest: string)
    requires HasHeads(thread) && ':' in dest
    requires forall i :: 0 <= i < |thread| ==> thread[i][0] != dest
    ensures Goto(LabelTable(thread), m, dest) == Fail(m, NA_C)
  {
    var table := LabelTable(thread);
    match FirstMatch(table, dest)
    case None =>
    case Some(k) =>
      LabelIsNoIndex(dest, table[k].1);
  }

  /** A label statement is never before the entry that first answers to its label. */
  lemma FirstEntryNotAfter(thread: seq<seq<string>>, dest: string, j: nat)
    requires HasHeads(thread) && ':' in dest
    requires j < |thread| && thread[j][0] == dest
    ensures FirstMatch(LabelTable(thread), dest).Some?
    ensures LabelTable(thread)[FirstMatch(LabelTable(thread), dest).value].1 <= j + 1
  {
    var table := LabelTable(thread);
    LabelTableComplete(thread, j);
    var q :| 0 <= q < |table| && table[q] == (dest, j + 1);
    assert LabelMatches(table[q], dest);
    var k := FirstMatch(table, dest).value;
    assert k <= q;
  }

  /** The first entry of a label table that answers to a label is the first statement that is that label. */
  lemma FirstLabelEntry(thread: seq<seq<string>>, dest: string, i: nat) returns (k: nat)
    requires HasHeads(thread) && ':' in dest
    requires i < |thread| && thread[i][0] == dest
    ensures FirstMatch(LabelTable(thread), dest) == Some(k)
    ensures k < |LabelTable(thread)| && LabelTable(thread)[k].0 == dest
    ensures forall j :: 0 <= j < LabelTable(thread)[k].1 - 1 ==> thread[j][0] != dest
  {
    var table := LabelTable(thread);
    FirstEntryNotAfter(thread, dest, i);
    k := FirstMatch(table, dest).value;
    LabelIsNoIndex(dest, table[k].1);
    forall j | 0 <= j < |thread| && thread[j][0] == dest
      ensures table[k].1 <= j + 1
    {
      FirstEntryNotAfter(thread, dest, j);
    }
  }

  /**
   * `goto` to a label of a loaded program lands on the first statement
   * that is that label, saving the goto's position in `past`.
   */
  lemma GotoLabel(thread: seq<seq<string>>, m: Machine, dest: string, i: nat)
    requires HasHeads(thread) && ':' in dest
    requires i < |thread| && thread[i][0] == dest
    ensures Goto(LabelTable(thread), m, dest).signal == Proceed
    ensures var after := Goto(LabelTable(thread), m, dest).m;
            after == m.(past := m.counter, counter := after.counter) &&
            1 <= after.counter <= |thread| && thread[after.counter - 1][0] == dest &&
            forall j :: 0 <= j < after.counter - 1 ==> thread[j][0] != dest
  {
    var k := FirstLabelEntry(thread, dest, i);
  }

  /**
   * `goto n` with n the decimal text of a position jumps to position n
   * exactly when statement n is a label (the table is searched by index
   * too), and is NaC otherwise.
   */
  lemma GotoIndex(thread: seq<seq<string>>, m: Machine, i: nat)
    requires HasHeads(thread) && i < |thread|
    ensures Goto(LabelTable(thread), m, NatToString(i + 1)) ==
            if ':' in thread[i][0] then Continue(m.(past := m.counter, counter := i + 1)) else Fail(m, NA_C)
  {
    var table := LabelTable(thread);
    var dest := NatToString(i + 1);
    forall p | 0 <= p < |table|
      ensures LabelMatches(table[p], dest) <==> table[p].1 == i + 1
    {
      LabelIsNoIndex(table[p].0, i + 1);
      NatToStringInjective(table[p].1, i + 1);
    }
    if ':' in thread[i][0] {
      LabelTableComplete(thread, i);
    }
  }

  /** A program whose only label is its first statement has a one-entry table. */
  lemma {:induction false} LabelTableFirstOnly(thread: seq<seq<string>>)
    requires HasHeads(thread) && |thread| >= 1 && ':' in thread[0][0]
    requires forall i :: 1 <= i < |thread| ==> ':' !in thread[i][0]
    ensures LabelTable(thread) == [(thread[0][0], 1)]
  {
    if |thread| > 1 {
      var init := thread[..|thread| - 1];
      assert init[0] == thread[0];
      LabelTableFirstOnly(init);
    } else {
      assert thread[..0] == [];
    }
  }

  /** A program without a "main:" statement stops at once with NaC. */
  lemma NoMainFails(thread: seq<seq<string>>, m: Machine, fuel: nat)
    requires HasHeads(thread)
    requires forall i :: 0 <= i < |thread| ==> thread[i][0] != "main:"
    ensures Run(Code(thread, LabelTable(thread)), m, fuel) == Fail(m, NA_C)
  {
    GotoMissingLabel(thread, m, "main:");
  }

  /** The default program (`Program::default`) has no statement and no label, so running it is NaC. */
  lemma DefaultProgramFails(m: Machine, fuel: nat)
    ensures Run(Code([], []), m, fuel) == Fail(m, NA_C)
  {
  }

  // ---------------------------------------------------------------
  // The fetch loop
  // ---------------------------------------------------------------

  /**
   * Every statement the loop fetches from `m` on, for `fuel` iterations,
   * is fetched with 1 <= counter <= |thread|, so `thread[counter - 1]` is
   * in bounds and the `counter - 1` overflow never happens.
   */
  predicate FetchesInBounds(code: Code, m: Machine, fuel: nat)
    decreases fuel
  {
    m.counter > |code.thread| || fuel == 0 ||
    (1 <= m.counter &&
     var o := Step(code, m);
     o.signal != Proceed || FetchesInBounds(code, o.m, fuel - 1))
  }

  /** After a statement proceeds the counter is at least 1. */
  lemma StepCounterPositive(code: Code, m: Machine)
    requires m.counter <= |code.thread|
    ensures Step(code, m).signal == Proceed ==> Step(code, m).m.counter >= 1
  {
  }

  lemma {:induction false} RunFromFetchesInBounds(code: Code, m: Machine, fuel: nat)
    requires m.counter >= 1
    ensures FetchesInBounds(code, m, fuel)
    decreases fuel
  {
    if m.counter <= |code.thread| && fuel > 0 {
      StepCounterPositive(code, m);
      var o := Step(code, m);
      if o.signal == Proceed {
        RunFromFetchesInBounds(code, o.m, fuel - 1);
      }
    }
  }

  /** A run of a loaded program fetches every statement in bounds: `goto "main:"` lands on a statement. */
  lemma RunFetchesInBounds(thread: seq<seq<string>>, m: Machine, fuel: nat)
    requires HasHeads(thread)
    ensures var o := Goto(LabelTable(thread), m, "main:");
            o.signal == Proceed ==> FetchesInBounds(Code(thread, LabelTable(thread)), o.m, fuel)
  {
    var o := Goto(LabelTable(thread), m, "main:");
    if o.signal == Proceed {
      assert FirstMatch(LabelTable(thread), "main:").Some?;
      RunFromFetchesInBounds(Code(thread, LabelTable(thread)), o.m, fuel);
    }
  }

  /**
   * The fetch loop over an arbitrary step function: the shape of `RunFrom`
   * with the statement semantics abstracted away, so that facts about the
   * loop itself do not depend on what the statements do.
   */
  function Iterate(step: Machine -> Outcome, len: nat, m: Machine, fuel: nat): Outcome
    decreases fuel
  {
    if m.counter > len || fuel == 0 then Continue(m)
    else
      var o := step(m);
      if o.signal != Proceed then o else Iterate(step, len, o.m, fuel - 1)
  }

  /** `Step` of a program, extended to every machine. */
  function StepOf(code: Code): Machine -> Outcome {
    (m: Machine) => if m.counter <= |code.thread| then Step(code, m) else Continue(m)
  }

  /** `RunFrom` is the fetch loop over the program's `Step`. */
  lemma {:induction false} RunFromIsIterate(code: Code, m: Machine, fuel: nat)
    ensures RunFrom(code, m, fuel) == Iterate(StepOf(code), |code.thread|, m, fuel)
    decreases fuel
  {
    if m.counter <= |code.thread| && fuel > 0 {
      var o := Step(code, m);
      assert StepOf(code)(m) == o;
      if o.signal == Proceed {
        RunFromIsIterate(code, o.m, fuel - 1);
      }
    }
  }

  /** A property of machines that every step keeps holds of the machine the fetch loop ends with. */
  lemma {:induction false} IterateKeeps(step: Machine -> Outcome, len: nat, inv: Machine -> bool, m: Machine, fuel: nat)
    requires inv(m)
    requires forall x :: inv(x) && x.counter <= len ==> inv(step(x).m)
    ensures inv(Iterate(step, len, m, fuel).m)
    decreases fuel
  {
    if m.counter <= len && fuel > 0 && step(m).signal == Proceed {
      IterateKeeps(step, len, inv, step(m).m, fuel - 1);
    }
  }

  /** A statement that proceeds hands the rest of the fuel to the machine it leaves. */
  lemma RunFromStep(code: Code, m: Machine, fuel: nat)
    requires m.counter <= |code.thread| && fuel > 0
    requires Step(code, m).signal == Proceed
    ensures RunFrom(code, m, fuel) == RunFrom(code, Step(code, m).m, fuel - 1)
  {
  }

  /** A statement that does not proceed ends the fetch loop with its own outcome. */
  lemma RunFromStops(code: Code, m: Machine, fuel: nat)
    requires m.counter <= |code.thread| && fuel > 0
    requires Step(code, m).signal != Proceed
    ensures RunFrom(code, m, fuel) == Step(code, m)
  {
  }

  /** The run has stopped: a statement ended it, or the counter is past the last statement. */
  predicate Finished(len: nat, o: Outcome) {
    o.signal != Proceed || o.m.counter > len
  }

  /** Once the fetch loop has stopped within some fuel, more fuel changes nothing. */
  lemma {:induction false} IterateMoreFuel(step: Machine -> Outcome, len: nat, m: Machine, fuel: nat, more: nat)
    requires fuel <= more && Finished(len, Iterate(step, len, m, fuel))
    ensures Iterate(step, len, m, more) == Iterate(step, len, m, fuel)
    decreases fuel
  {
    if m.counter <= len && fuel > 0 && step(m).signal == Proceed {
      IterateMoreFuel(step, len, step(m).m, fuel - 1, more - 1);
    }
  }

  /** A run that finishes within some fuel gives the same outcome with any more fuel. */
  lemma RunFromMoreFuel(code: Code, m: Machine, fuel: nat, more: nat)
    requires fuel <= more && Finished(|code.thread|, RunFrom(code, m, fuel))
    ensures RunFrom(code, m, more) == RunFrom(code, m, fuel)
  {
    RunFromIsIterate(code, m, fuel);
    RunFromIsIterate(code, m, more);
    IterateMoreFuel(StepOf(code), |code.thread|, m, fuel, more);
  }

  /** What every step keeps among the machines `ok` admits, the loop keeps as long as every machine it steps from is admitted. */
  lemma {:induction false} IterateKeepsWhile(step: Machine -> Outcome, len: nat, inv: Machine -> bool, ok: Machine -> bool, m: Machine, fuel: nat)
    requires inv(m)
    requires forall x :: inv(x) && ok(x) && x.counter <= len ==> inv(step(x).m)
    requires forall i :: 0 <= i < fuel ==> ok(Iterate(step, len, m, i).m)
    ensures inv(Iterate(step, len, m, fuel).m)
    decreases fuel
  {
    if m.counter <= len && fuel > 0 {
      assert ok(Iterate(step, len, m, 0).m);
      var o := step(m);
      if o.signal == Proceed {
        forall i | 0 <= i < fuel - 1
          ensures ok(Iterate(step, len, o.m, i).m)
        {
          assert Iterate(step, len, m, i + 1) == Iterate(step, len, o.m, i);
        }
        IterateKeepsWhile(step, len, inv, ok, o.m, fuel - 1);
      }
    }
  }

  /** The statement at the counter is no `goto`, or there is no statement there. */
  predicate NoGotoAt(code: Code, m: Machine) {
    1 <= m.counter <= |code.thread| ==> !(|Current(code, m)| == 2 && Current(code, m)[0] == "goto")
  }

  /** A loop iteration that fetches no `goto` leaves the return slot alone. */
  lemma StepKeepsPast(code: Code, m: Machine)
    requires m.counter <= |code.thread| && NoGotoAt(code, m)
    ensures Step(code, m).m.past == m.past
  {
    if m.counter >= 1 {
      OnlyGotoSetsPast(code.functions, m, Current(code, m));
    }
  }

  /** A `goto` that proceeds saves its own position in the return slot. */
  lemma GotoSavesPast(code: Code, m: Machine)
    requires 1 <= m.counter <= |code.thread| && |Current(code, m)| == 2 && Current(code, m)[0] == "goto"
    ensures Step(code, m).signal == Proceed ==> Step(code, m).m.past == m.counter
  {
  }

  /**
   * A call through `goto` comes back to the statement after it: run the
   * routine for `n` iterations, none of which fetches a `goto`; when the
   * statement reached is `return`, the statement fetched next is the one
   * after the `goto`, whatever the routine did on the way.
   */
  lemma CallReturnAcross(code: Code, m: Machine, n: nat)
    requires |code.thread| < USIZE_MAX
    requires 1 <= m.counter <= |code.thread| && |Current(code, m)| == 2 && Current(code, m)[0] == "goto"
    requires Step(code, m).signal == Proceed
    requires forall i :: 0 <= i < n ==> NoGotoAt(code, RunFrom(code, Step(code, m).m, i).m)
    requires RunFrom(code, Step(code, m).m, n).signal == Proceed
    requires 1 <= RunFrom(code, Step(code, m).m, n).m.counter <= |code.thread|
    requires Current(code, RunFrom(code, Step(code, m).m, n).m) == ["return"]
    ensures var r := RunFrom(code, Step(code, m).m, n).m;
            r.past == m.counter && Step(code, r) == Continue(r.(counter := m.counter + 1))
  {
    var m1 := Step(code, m).m;
    var len := |code.thread|;
    GotoSavesPast(code, m);
    RunFromIsIterate(code, m1, n);
    forall i | 0 <= i < n
      ensures NoGotoAt(code, Iterate(StepOf(code), len, m1, i).m)
    {
      RunFromIsIterate(code, m1, i);
    }
    forall x: Machine | x.past == m.counter && NoGotoAt(code, x) && x.counter <= len
      ensures StepOf(code)(x).m.past == m.counter
    {
      StepKeepsPast(code, x);
    }
    IterateKeepsWhile(StepOf(code), len, (x: Machine) => x.past == m.counter, (x: Machine) => NoGotoAt(code, x), m1, n);
    ReturnStep(code, RunFrom(code, m1, n).m);
  }
}
