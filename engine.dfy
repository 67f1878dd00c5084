/**
 * The execution engine of src/processor.rs as the class it is: a
 * `Processor` whose methods update its registers, counter, return slot
 * and output in place. Every method is proved to produce exactly the
 * outcome of the corresponding reference function in `Semantics`,
 * which the lemmas of `Properties` are about. A method that ends the
 * process in the source returns the corresponding signal instead, with
 * the state as the source leaves it at that point (unchanged).
 */
module Engine {
  import opened Numeric
  import opened Registers
  import opened Text
  import opened Loader
  import S = Semantics
  import P = Properties

  class Processor {
    var proc: Register
    var counter: nat
    var past: nat
    var thread: Program
    var uia: Register
    var sia: Register
    var uib: Register
    var sib: Register
    var uic: Register
    var sic: Register
    var uid: Register
    var sid: Register
    /** Everything printed on standard output so far. */
    var out: string

    /** The state of the processor as a value of the reference semantics. */
    function State(): S.Machine
      reads this
    {
      S.Machine(proc, uia, sia, uib, sib, uic, sic, uid, sid, counter, past, out)
    }

    /** The loaded program as the reference semantics sees it. */
    function Code(): S.Code
      reads this, thread
    {
      S.Code(thread.thread, thread.functions)
    }

    function Reg(r: S.RegName): Register
      reads this
    {
      S.Get(State(), r)
    }

    method PutReg(r: S.RegName, reg: Register)
      modifies this
      ensures State() == S.Put(old(State()), r, reg)
      ensures thread == old(thread)
    {
      match r
      case Proc => proc := reg;
      case Uia => uia := reg;
      case Sia => sia := reg;
      case Uib => uib := reg;
      case Sib => sib := reg;
      case Uic => uic := reg;
      case Sic => sic := reg;
      case Uid => uid := reg;
      case Sid => sid := reg;
    }

    /** `Processor::new`. */
    constructor ()
      ensures State() == S.Initial()
      ensures fresh(thread) && thread.Valid() && thread.thread == [] && thread.functions == []
    {
      proc := Register(Process, Null);
      counter := 1;
      past := 0;
      thread := new Program();
      uia := Register(Unsigned8, Null);
      sia := Register(Signed8, Null);
      uib := Register(Unsigned8, Null);
      sib := Register(Signed8, Null);
      uic := Register(Unsigned8, Null);
      sic := Register(Signed8, Null);
      uid := Register(Unsigned8, Null);
      sid := Register(Signed8, Null);
      out := "";
    }

    /**
     * `Processor::run` for at most `fuel` iterations of its fetch loop:
     * install the program, `goto "main:"`, then run the fetch loop.
     */
    method Run(program: Program, fuel: nat) returns (signal: S.Signal)
      requires program.Valid()
      modifies this
      ensures thread == program
      ensures S.Outcome(signal, State()) == S.Run(S.Code(program.thread, program.functions), old(State()), fuel)
    {
      thread := program;
      signal := Goto("main:");
      if signal != S.Proceed {
        return;
      }
      signal := FetchLoop(fuel);
    }

    /**
     * The `while` loop of `run`, for at most `fuel` iterations: execute
     * statement `counter` and advance the counter by one until it passes
     * the last statement or a statement ends the run.
     */
    method FetchLoop(fuel: nat) returns (signal: S.Signal)
      requires thread.Valid()
      modifies this
      ensures thread == old(thread)
      ensures S.Outcome(signal, State()) == S.RunFrom(old(Code()), old(State()), fuel)
    {
      ghost var code := Code();
      var steps := fuel;
      while counter <= thread.threadLen && steps > 0
        invariant thread == old(thread) && Code() == code
        invariant S.RunFrom(code, State(), steps) == S.RunFrom(code, old(State()), fuel)
        decreases steps
      {
        ghost var before := State();
        signal := Step();
        if signal != S.Proceed {
          P.RunFromStops(code, before, steps);
          return;
        }
        steps := steps - 1;
      }
      signal := S.Proceed;
    }

    /**
     * One iteration of the fetch loop of `run`: fetch statement `counter`,
     * dispatch it by its number of tokens and advance the counter.
     */
    method Step() returns (signal: S.Signal)
      requires thread.Valid() && counter <= thread.threadLen
      modifies this
      ensures S.Outcome(signal, State()) == S.Step(old(Code()), old(State()))
      ensures thread == old(thread)
    {
      if counter == 0 {
        return S.Panic;
      }
      var command := thread.thread[counter - 1];
      if |command| == 4 {
        signal := Four(command[0], command[1], command[2], command[3]);
      } else if |command| == 3 {
        signal := Three(command[0], command[1], command[2]);
      } else if |command| == 2 {
        signal := Two(command[0], command[1]);
      } else if |command| == 1 {
        signal := One(command[0]);
      } else {
        signal := S.Fatal(NA_C);
      }
      if signal != S.Proceed {
        return;
      }
      if counter + 1 > USIZE_MAX {
        return S.Panic;
      }
      Jump(counter + 1);
    }

    /** `Processor::one`. */
    method One(cmd: string) returns (signal: S.Signal)
      modifies this
      ensures S.Outcome(signal, State()) == S.One(old(State()), cmd)
      ensures thread == old(thread)
    {
      if ':' in cmd {
        return S.Proceed;
      }
      match cmd
      case "return" =>
        Jump(past);
        signal := S.Proceed;
      case "exit" =>
        var code := ProcessVal(proc);
        signal := if code.Ok? then S.Exit(code.value) else S.Fatal(code.code);
      case "bunny" =>
        signal := Printl(S.BUNNY);
      case "printl" =>
        signal := Printl("");
      case _ =>
        signal := S.Fatal(NA_C);
    }

    /** `Processor::two`. */
    method Two(cmd: string, dest: string) returns (signal: S.Signal)
      modifies this
      ensures S.Outcome(signal, State()) == S.Two(thread.functions, old(State()), cmd, dest)
      ensures thread == old(thread)
    {
      match cmd
      case "view" => signal := View(dest);
      case "jump" => signal := JumpStr(dest);
      case "goto" => signal := Goto(dest);
      case "print" => signal := Print(dest);
      case "printl" => signal := Printl(dest);
      case "del" => signal := Del(dest);
      case _ => signal := S.Fatal(NA_C);
    }

    /** `Processor::three`. */
    method Three(cmd: string, dest: string, v: string) returns (signal: S.Signal)
      modifies this
      ensures S.Outcome(signal, State()) == S.Three(old(State()), cmd, dest, v)
      ensures thread == old(thread)
    {
      match cmd
      case "set" => signal := Set(dest, v);
      case "add" => signal := Add(dest, v);
      case "sub" => signal := Sub(dest, v);
      case "move" => signal := Move(dest, v);
      case "print" => signal := Print(dest + " " + v);
      case "printl" => signal := Print(dest + " " + v + "\n");
      case _ => signal := S.Fatal(NA_C);
    }

    /** `Processor::four`. */
    method Four(cmd: string, dest: string, v: string, n: string) returns (signal: S.Signal)
      modifies this
      ensures S.Outcome(signal, State()) == S.Four(old(State()), cmd, dest, v, n)
      ensures thread == old(thread)
    {
      match cmd
      case "jump_eq" => signal := Ife(dest, v, n);
      case "jump_neq" => signal := Ifn(dest, v, n);
      case "print" => signal := Print(dest + " " + v + " " + n);
      case "printl" => signal := Print(dest + " " + v + " " + n + "\n");
      case _ => signal := S.Fatal(NA_C);
    }

    /** The comparison shared by `ife` and `ifn`. */
    method Compare(dest: string, v: string) returns (equal: Result<bool>)
      ensures equal == S.Compare(State(), dest, v)
    {
      var signed: bool;
      if Contains(dest, "ui") && Contains(v, "ui") {
        signed := false;
      } else if Contains(dest, "si") && Contains(v, "si") {
        signed := true;
      } else {
        return Err(NA_R);
      }
      var d := S.ClassNamed(dest, signed);
      if d.None? {
        return Err(NA_R);
      }
      var n := S.Operand(Reg(d.value).value, signed);
      if n.Err? {
        return Err(n.code);
      }
      var w := S.ClassNamed(v, signed);
      if w.None? {
        return Err(NA_R);
      }
      var nn := S.Operand(Reg(w.value).value, signed);
      if nn.Err? {
        return Err(nn.code);
      }
      equal := Ok(n.value == nn.value);
    }

    /** The conditional jump shared by `ife` (`onEqual`) and `ifn` (`!onEqual`). */
    method CondJump(dest: string, v: string, to: string, onEqual: bool) returns (signal: S.Signal)
      modifies this
      ensures S.Outcome(signal, State()) == S.CondJump(old(State()), dest, v, to, onEqual)
      ensures thread == old(thread)
    {
      var b := Compare(dest, v);
      if b.Err? {
        return S.Fatal(b.code);
      }
      if b.value == onEqual {
        var aa := ParseUsize(to);
        if aa.None? {
          return S.Fatal(NA_N);
        }
        if aa.value == 0 {
          return S.Panic;
        }
        Jump(aa.value - 1);
      }
      signal := S.Proceed;
    }

    /** `Processor::ife`. */
    method Ife(dest: string, v: string, to: string) returns (signal: S.Signal)
      modifies this
      ensures S.Outcome(signal, State()) == S.CondJump(old(State()), dest, v, to, true)
      ensures thread == old(thread)
    {
      signal := CondJump(dest, v, to, true);
    }

    /** `Processor::ifn`. */
    method Ifn(dest: string, v: string, to: string) returns (signal: S.Signal)
      modifies this
      ensures S.Outcome(signal, State()) == S.CondJump(old(State()), dest, v, to, false)
      ensures thread == old(thread)
    {
      signal := CondJump(dest, v, to, false);
    }

    /** `Processor::set`. */
    method Set(dest: string, v: string) returns (signal: S.Signal)
      modifies this
      ensures S.Outcome(signal, State()) == S.Set(old(State()), dest, v)
      ensures thread == old(thread)
    {
      var r := S.RegisterNamed(dest);
      if r.None? {
        return S.Fatal(NA_R);
      }
      var stored := S.Store(r.value, Reg(r.value), v);
      if stored.Err? {
        return S.Fatal(stored.code);
      }
      PutReg(r.value, stored.value);
      signal := S.Proceed;
    }

    /** `Processor::jump`. */
    method Jump(v: nat)
      modifies this
      ensures State() == S.Jump(old(State()), v)
      ensures thread == old(thread)
    {
      counter := v;
    }

    /** `Processor::jump_str`. */
    method JumpStr(v: string) returns (signal: S.Signal)
      modifies this
      ensures S.Outcome(signal, State()) == S.JumpStr(old(State()), v)
      ensures thread == old(thread)
    {
      var n := ParseUsize(v);
      if n.None? {
        return S.Fatal(NA_N);
      }
      Jump(n.value);
      signal := S.Proceed;
    }

    /**
     * `Processor::goto`: scan the label table in order; at the first entry
     * whose name or index text is `dest`, save the counter in `past` and
     * jump to the index.
     */
    method Goto(dest: string) returns (signal: S.Signal)
      modifies this
      ensures S.Outcome(signal, State()) == S.Goto(thread.functions, old(State()), dest)
      ensures thread == old(thread)
    {
      var functions := thread.functions;
      for i := 0 to |functions|
        invariant State() == old(State()) && thread == old(thread)
        invariant forall j :: 0 <= j < i ==> !S.LabelMatches(functions[j], dest)
      {
        var (name, loc) := functions[i];
        if dest == name || dest == NatToString(loc) {
          assert S.FirstMatch(functions, dest) == Some(i);
          past := counter;
          Jump(loc);
          return S.Proceed;
        }
      }
      signal := S.Fatal(NA_C);
    }

    /** `Processor::view`. */
    method View(dest: string) returns (signal: S.Signal)
      modifies this
      ensures S.Outcome(signal, State()) == S.View(old(State()), dest)
      ensures thread == old(thread)
    {
      var r := S.RegisterNamed(dest);
      if r.None? {
        return S.Fatal(NA_R);
      }
      var n := S.Shown(r.value, Reg(r.value));
      if n.Err? {
        return S.Fatal(n.code);
      }
      signal := Printl(IntToString(n.value));
    }

    /** `Processor::print`. */
    method Print(dest: string) returns (signal: S.Signal)
      modifies this
      ensures S.Outcome(signal, State()) == S.Print(old(State()), dest)
      ensures thread == old(thread)
    {
      out := out + dest;
      signal := S.Proceed;
    }

    /** `Processor::printl`. */
    method Printl(dest: string) returns (signal: S.Signal)
      modifies this
      ensures S.Outcome(signal, State()) == S.Printl(old(State()), dest)
      ensures thread == old(thread)
    {
      out := out + dest + "\n";
      signal := S.Proceed;
    }

    /** The arithmetic shared by `add` and `sub`. */
    method Arith(dest: string, v: string, op: S.ArithOp) returns (signal: S.Signal)
      modifies this
      ensures S.Outcome(signal, State()) == S.Arith(old(State()), dest, v, op)
      ensures thread == old(thread)
    {
      if dest == "proc" {
        return S.Fatal(NA_R);
      }
      var signed: bool;
      if Contains(dest, "ui") && Contains(v, "ui") {
        signed := false;
      } else if Contains(dest, "si") && Contains(v, "si") {
        signed := true;
      } else {
        return S.Proceed;
      }
      var d := S.ClassNamed(dest, signed);
      if d.None? {
        return S.Fatal(NA_R);
      }
      var n := S.Operand(Reg(d.value).value, signed);
      if n.Err? {
        return S.Fatal(n.code);
      }
      var w := S.ClassNamed(v, signed);
      if w.None? {
        return S.Fatal(NA_R);
      }
      var a := S.Operand(Reg(w.value).value, signed);
      if a.Err? {
        return S.Fatal(a.code);
      }
      var x := if op == S.Plus then a.value + n.value else a.value - n.value;
      var k := S.ClassKind(signed);
      if !(KindMin(k) <= x <= KindMax(k)) {
        return S.Panic;
      }
      PutReg(w.value, Reg(w.value).(value := Tag(k, x)));
      signal := S.Proceed;
    }

    /** `Processor::add`. */
    method Add(dest: string, v: string) returns (signal: S.Signal)
      modifies this
      ensures S.Outcome(signal, State()) == S.Arith(old(State()), dest, v, S.Plus)
      ensures thread == old(thread)
    {
      signal := Arith(dest, v, S.Plus);
    }

    /** `Processor::sub`. */
    method Sub(dest: string, v: string) returns (signal: S.Signal)
      modifies this
      ensures S.Outcome(signal, State()) == S.Arith(old(State()), dest, v, S.Minus)
      ensures thread == old(thread)
    {
      signal := Arith(dest, v, S.Minus);
    }

    /** `Processor::move`. */
    method Move(dest: string, v: string) returns (signal: S.Signal)
      modifies this
      ensures S.Outcome(signal, State()) == S.Move(old(State()), dest, v)
      ensures thread == old(thread)
    {
      var a := S.RegisterNamed(dest);
      if a.None? {
        return S.Fatal(NA_R);
      }
      var buf := Reg(a.value).value;
      var b := S.RegisterNamed(v);
      if b.None? {
        return S.Fatal(NA_R);
      }
      PutReg(b.value, Reg(b.value).(value := buf));
      signal := S.Proceed;
    }

    /** `Processor::del`. */
    method Del(dest: string) returns (signal: S.Signal)
      modifies this
      ensures S.Outcome(signal, State()) == S.Del(old(State()), dest)
      ensures thread == old(thread)
    {
      var r := S.RegisterNamed(dest);
      if r.None? {
        return S.Fatal(NA_R);
      }
      PutReg(r.value, Reg(r.value).(value := Null));
      signal := S.Proceed;
    }
  }
}
