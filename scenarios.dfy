/**
 * Whole programs run from the initial processor state: the program text
 * loads into the statements written here, and the run ends as shown.
 */
module Scenarios {
  import opened Numeric
  import opened Text
  import opened Registers
  import opened Loader
  import opened Semantics
  import opened Properties

  /** `main:,set uia 1,set uib 2,add uia uib,view uib,set proc 0,exit` */
  const AddProgram: seq<seq<string>> :=
    [["main:"], ["set", "uia", "1"], ["set", "uib", "2"], ["add", "uia", "uib"], ["view", "uib"], ["set", "proc", "0"], ["exit"]]

  /** The same statements without the `main:` label. */
  const AddProgramWithoutMain: seq<seq<string>> := AddProgram[1..]

  /** `main:,set uia 5,set sia 5,jump_eq uia sia 1,view uia` */
  const MixedProgram: seq<seq<string>> :=
    [["main:"], ["set", "uia", "5"], ["set", "sia", "5"], ["jump_eq", "uia", "sia", "1"], ["view", "uia"]]

  /** `main:,goto f:,set proc 7,exit,f:,print hi,return` */
  const CallProgram: seq<seq<string>> :=
    [["main:"], ["goto", "f:"], ["set", "proc", "7"], ["exit"], ["f:"], ["print", "hi"], ["return"]]

  /** The program text of each of these statement lists loads back into it. */
  lemma AddProgramLoads()
    ensures Statements(Source(AddProgram)) == AddProgram
    ensures Statements(Source(AddProgramWithoutMain)) == AddProgramWithoutMain
  {
    forall i | 0 <= i < |AddProgram| ensures WellFormedStatement(AddProgram[i]) {
    }
    LoadSource(AddProgram);
    LoadSource(AddProgramWithoutMain);
  }

  lemma MixedProgramLoads()
    ensures Statements(Source(MixedProgram)) == MixedProgram
  {
    forall i | 0 <= i < |MixedProgram| ensures WellFormedStatement(MixedProgram[i]) {
    }
    LoadSource(MixedProgram);
  }

  lemma CallProgramLoads()
    ensures Statements(Source(CallProgram)) == CallProgram
  {
    forall i | 0 <= i < |CallProgram| ensures WellFormedStatement(CallProgram[i]) {
    }
    LoadSource(CallProgram);
  }

  const AddCode: Code := Code(AddProgram, [("main:", 1)])

  /** The machine before each statement the add program fetches, from `main:` to `exit`. */
  const AddTrace: seq<Machine> :=
    var m0 := Initial().(past := 1, counter := 1);
    var m1 := m0.(counter := 2);
    var m2 := m1.(uia := Register(Unsigned8, U8(1)), counter := 3);
    var m3 := m2.(uib := Register(Unsigned8, U8(2)), counter := 4);
    var m4 := m3.(uib := Register(Unsigned8, U8(3)), counter := 5);
    var m5 := m4.(out := "3\n", counter := 6);
    var m6 := m5.(proc := Register(Process, I32(0)), counter := 7);
    [m0, m1, m2, m3, m4, m5, m6]

  /** The label and the two `set`s of the add program. */
  lemma AddStepsSet()
    ensures Step(AddCode, AddTrace[0]) == Continue(AddTrace[1])
    ensures Step(AddCode, AddTrace[1]) == Continue(AddTrace[2])
    ensures Step(AddCode, AddTrace[2]) == Continue(AddTrace[3])
  {
    assert ParseU8("1") == Some(1) by { ParseIntToString(1, 0, U8_MAX); }
    assert ParseU8("2") == Some(2) by { ParseIntToString(2, 0, U8_MAX); }
  }

  /** The `add`, the `view` and the `set proc` of the add program. */
  lemma AddStepsArith()
    ensures Step(AddCode, AddTrace[3]) == Continue(AddTrace[4])
    ensures Step(AddCode, AddTrace[4]) == Continue(AddTrace[5])
    ensures Step(AddCode, AddTrace[5]) == Continue(AddTrace[6])
  {
    ArithSameClass(AddTrace[3], Uia, Uib, Plus);
    assert IntToString(3) == "3";
    assert ParseI32("0") == Some(0) by { ParseIntToString(0, I32_MIN, I32_MAX); }
  }

  /** From `main:` on, the add program runs its trace and stops at `exit`. */
  lemma AddRunFrom()
    ensures RunFrom(AddCode, AddTrace[0], 7) == Outcome(Exit(0), AddTrace[6])
  {
    var t := AddTrace;
    AddStepsSet();
    AddStepsArith();
    RunFromStep(AddCode, t[0], 7);
    RunFromStep(AddCode, t[1], 6);
    RunFromStep(AddCode, t[2], 5);
    RunFromStep(AddCode, t[3], 4);
    RunFromStep(AddCode, t[4], 3);
    RunFromStep(AddCode, t[5], 2);
    assert Step(AddCode, t[6]) == Outcome(Exit(0), t[6]);
  }

  /** `set`, `add` into the second operand, `view` and `exit`: prints 3 and exits with 0. */
  lemma AddScenario()
    ensures LabelTable(AddProgram) == [("main:", 1)]
    ensures var o := Run(Code(AddProgram, LabelTable(AddProgram)), Initial(), 7);
            o.signal == Exit(0) && o.m.out == "3\n"
  {
    assert ':' in "main:";
    LabelTableFirstOnly(AddProgram);
    assert Goto(AddCode.functions, Initial(), "main:") == Continue(AddTrace[0]);
    AddRunFrom();
  }

  /** Without its `main:` label the same program stops before its first statement with NaC. */
  lemma AddScenarioWithoutMain(fuel: nat)
    ensures Run(Code(AddProgramWithoutMain, LabelTable(AddProgramWithoutMain)), Initial(), fuel) == Fail(Initial(), NA_C)
  {
    NoMainFails(AddProgramWithoutMain, Initial(), fuel);
  }

  const MixedCode: Code := Code(MixedProgram, [("main:", 1)])

  /** The machine before each statement the mixed program fetches, from `main:` to `jump_eq`. */
  const MixedTrace: seq<Machine> :=
    var m0 := Initial().(past := 1, counter := 1);
    var m1 := m0.(counter := 2);
    var m2 := m1.(uia := Register(Unsigned8, U8(5)), counter := 3);
    var m3 := m2.(sia := Register(Signed8, I8(5)), counter := 4);
    [m0, m1, m2, m3]

  lemma MixedSteps()
    ensures Step(MixedCode, MixedTrace[0]) == Continue(MixedTrace[1])
    ensures Step(MixedCode, MixedTrace[1]) == Continue(MixedTrace[2])
    ensures Step(MixedCode, MixedTrace[2]) == Continue(MixedTrace[3])
    ensures Step(MixedCode, MixedTrace[3]) == Fail(MixedTrace[3], NA_R)
  {
    assert ParseU8("5") == Some(5) by { ParseIntToString(5, 0, U8_MAX); }
    assert ParseI8("5") == Some(5) by { ParseIntToString(5, I8_MIN, I8_MAX); }
    CondJumpMixed(MixedTrace[3], Uia, Sia, "1", true);
  }

  /** Comparing an unsigned with a signed register is NaR; the `view` after it never runs. */
  lemma MixedScenario()
    ensures var o := Run(Code(MixedProgram, LabelTable(MixedProgram)), Initial(), 4);
            o.signal == Fatal(NA_R) && o.m.out == "" && o.m.counter == 4
  {
    assert ':' in "main:";
    LabelTableFirstOnly(MixedProgram);
    var t := MixedTrace;
    assert Goto(MixedCode.functions, Initial(), "main:") == Continue(t[0]);
    MixedSteps();
    RunFromStep(MixedCode, t[0], 4);
    RunFromStep(MixedCode, t[1], 3);
    RunFromStep(MixedCode, t[2], 2);
  }

  /** The statements before `f:` hold only the `main:` label. */
  lemma CallProgramHeadLabels()
    ensures LabelTable(CallProgram[..4]) == [("main:", 1)]
  {
    var head := CallProgram[..4];
    assert head == [["main:"], ["goto", "f:"], ["set", "proc", "7"], ["exit"]];
    assert ':' in "main:" && ':' !in "goto" && ':' !in "set" && ':' !in "exit";
    LabelTableFirstOnly(head);
  }

  /** The two labels of the call program and their positions. */
  lemma CallProgramLabels()
    ensures LabelTable(CallProgram) == [("main:", 1), ("f:", 5)]
  {
    var t := CallProgram;
    CallProgramHeadLabels();
    assert ':' in "f:" && ':' !in "print" && ':' !in "return";
    LabelTablePrefix(t, 4);
    LabelTablePrefix(t, 5);
    LabelTablePrefix(t, 6);
    assert t[..7] == t;
  }

  const CallCode: Code := Code(CallProgram, [("main:", 1), ("f:", 5)])

  /** The machine before each statement the call program fetches, from `main:` to `exit`. */
  const CallTrace: seq<Machine> :=
    var m0 := Initial().(past := 1, counter := 1);
    var m1 := m0.(counter := 2);
    var m2 := m1.(past := 2, counter := 6);
    var m3 := m2.(out := "hi", counter := 7);
    var m4 := m3.(counter := 3);
    var m5 := m4.(proc := Register(Process, I32(7)), counter := 4);
    [m0, m1, m2, m3, m4, m5]

  /** The label, the `goto` and the routine's `print` and `return`. */
  lemma CallStepsCall()
    ensures Step(CallCode, CallTrace[0]) == Continue(CallTrace[1])
    ensures Step(CallCode, CallTrace[1]) == Continue(CallTrace[2])
    ensures Step(CallCode, CallTrace[2]) == Continue(CallTrace[3])
    ensures Step(CallCode, CallTrace[3]) == Continue(CallTrace[4])
  {
  }

  /** The `set proc` and the `exit` after the call. */
  lemma CallStepsExit()
    ensures Step(CallCode, CallTrace[4]) == Continue(CallTrace[5])
    ensures Step(CallCode, CallTrace[5]) == Outcome(Exit(7), CallTrace[5])
  {
    assert ParseI32("7") == Some(7) by { ParseIntToString(7, I32_MIN, I32_MAX); }
  }

  /** `goto f:` runs the routine at `f:`, whose `return` resumes after the `goto`: prints hi and exits with 7. */
  lemma CallScenario()
    ensures var o := Run(Code(CallProgram, LabelTable(CallProgram)), Initial(), 6);
            o.signal == Exit(7) && o.m.out == "hi" && o.m.past == 2
  {
    CallProgramLabels();
    var t := CallTrace;
    assert Goto(CallCode.functions, Initial(), "main:") == Continue(t[0]);
    CallStepsCall();
    CallStepsExit();
    RunFromStep(CallCode, t[0], 6);
    RunFromStep(CallCode, t[1], 5);
    RunFromStep(CallCode, t[2], 4);
    RunFromStep(CallCode, t[3], 3);
    RunFromStep(CallCode, t[4], 2);
  }
}
