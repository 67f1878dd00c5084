/**
 * The registers of src/processor.rs: `RegisterKind`, the tagged value
 * `RKVal` and `Register` with its readers and its text setters. A
 * register is owned by value by the processor and never shared, so the
 * setters, which assign `self.value` in place in the source, are
 * functions returning the updated register or the exit code of the
 * fatal condition that ends the process.
 */
module Registers {
  import opened Numeric

  /** Exit code of NaC ("not a command"; also used when a `goto` label is not found). */
  const NA_C: int := -5
  /** Exit code of NaN ("not a number"). */
  const NA_N: int := -6
  /** Exit code of NaR ("not a register"). */
  const NA_R: int := -7

  /** A value, or the exit code the process is ended with. */
  datatype Result<+T> = Ok(value: T) | Err(code: int)

  datatype RegisterKind = Unsigned8 | Signed8 | Process

  /** `RKVal`: a typed register value, or `Null` for "not set". */
  datatype RKVal = U8(u: u8) | I8(i: i8) | I32(p: i32) | Null

  datatype Register = Register(kind: RegisterKind, value: RKVal)

  /** The least number a register of kind `k` can hold. */
  function KindMin(k: RegisterKind): int {
    match k
    case Unsigned8 => 0
    case Signed8 => I8_MIN
    case Process => I32_MIN
  }

  /** The greatest number a register of kind `k` can hold. */
  function KindMax(k: RegisterKind): int {
    match k
    case Unsigned8 => U8_MAX
    case Signed8 => I8_MAX
    case Process => I32_MAX
  }

  /** The value of kind `k` that holds `x`. */
  function Tag(k: RegisterKind, x: int): RKVal
    requires KindMin(k) <= x <= KindMax(k)
  {
    match k
    case Unsigned8 => U8(x)
    case Signed8 => I8(x)
    case Process => I32(x)
  }

  /** `RKVal::numu8`: the payload of a `U8` value; anything else is NaR. */
  function NumU8(v: RKVal): (r: Result<u8>)
    ensures r.Ok? <==> v.U8?
    ensures r.Ok? ==> v == U8(r.value)
    ensures r.Err? ==> r.code == NA_R
  {
    match v
    case U8(n) => Ok(n)
    case _ => Err(NA_R)
  }

  /** `RKVal::numi8`: the payload of an `I8` value; anything else is NaR. */
  function NumI8(v: RKVal): (r: Result<i8>)
    ensures r.Ok? <==> v.I8?
    ensures r.Ok? ==> v == I8(r.value)
    ensures r.Err? ==> r.code == NA_R
  {
    match v
    case I8(n) => Ok(n)
    case _ => Err(NA_R)
  }

  /** `Register::process_val`: the exit code held by an `I32` value; anything else is NaN. */
  function ProcessVal(reg: Register): (r: Result<i32>)
    ensures r.Ok? <==> reg.value.I32?
    ensures r.Ok? ==> reg.value == I32(r.value)
    ensures r.Err? ==> r.code == NA_N
  {
    match reg.value
    case I32(v) => Ok(v)
    case _ => Err(NA_N)
  }

  /** `Register::valu8`: the value shown by `view` for an unsigned register; NaN unless it holds a `U8`. */
  function ValU8(reg: Register): (r: Result<u8>)
    ensures r.Ok? <==> reg.value.U8?
    ensures r.Ok? ==> reg.value == U8(r.value)
    ensures r.Err? ==> r.code == NA_N
  {
    match reg.value
    case U8(v) => Ok(v)
    case _ => Err(NA_N)
  }

  /** `Register::vali8`: the value shown by `view` for a signed register; NaN unless it holds an `I8`. */
  function ValI8(reg: Register): (r: Result<i8>)
    ensures r.Ok? <==> reg.value.I8?
    ensures r.Ok? ==> reg.value == I8(r.value)
    ensures r.Err? ==> r.code == NA_N
  {
    match reg.value
    case I8(v) => Ok(v)
    case _ => Err(NA_N)
  }

  /**
   * `Register::set_process`: parse the text as an `i32` (NaN if it is not
   * one), then store it if the register is of kind Process (NaR if not).
   */
  function SetProcess(reg: Register, v: string): (r: Result<Register>)
    ensures r.Ok? <==> ParseI32(v).Some? && reg.kind == Process
    ensures r.Ok? ==> r.value.kind == reg.kind && ProcessVal(r.value) == Ok(ParseI32(v).value)
    ensures r.Err? ==> r.code == if ParseI32(v).None? then NA_N else NA_R
  {
    match ParseI32(v)
    case None => Err(NA_N)
    case Some(num) => if reg.kind == Process then Ok(reg.(value := I32(num))) else Err(NA_R)
  }

  /**
   * `Register::set_u8_str`: parse the text as a `u8` (NaN if it is not
   * one), then store it if the register is of kind U8 (NaR if not).
   */
  function SetU8Str(reg: Register, v: string): (r: Result<Register>)
    ensures r.Ok? <==> ParseU8(v).Some? && reg.kind == Unsigned8
    ensures r.Ok? ==> r.value.kind == reg.kind && ValU8(r.value) == Ok(ParseU8(v).value)
    ensures r.Err? ==> r.code == if ParseU8(v).None? then NA_N else NA_R
  {
    match ParseU8(v)
    case None => Err(NA_N)
    case Some(num) => if reg.kind == Unsigned8 then Ok(reg.(value := U8(num))) else Err(NA_R)
  }

  /**
   * `Register::set_i8_str`: parse the text as an `i8` (NaN if it is not
   * one), then store it if the register is of kind I8 (NaR if not).
   */
  function SetI8Str(reg: Register, v: string): (r: Result<Register>)
    ensures r.Ok? <==> ParseI8(v).Some? && reg.kind == Signed8
    ensures r.Ok? ==> r.value.kind == reg.kind && ValI8(r.value) == Ok(ParseI8(v).value)
    ensures r.Err? ==> r.code == if ParseI8(v).None? then NA_N else NA_R
  {
    match ParseI8(v)
    case None => Err(NA_N)
    case Some(num) => if reg.kind == Signed8 then Ok(reg.(value := I8(num))) else Err(NA_R)
  }

  /** Setting an unsigned register from the text of any `u8` and reading it back gives that number. */
  lemma SetU8ThenRead(reg: Register, n: u8)
    requires reg.kind == Unsigned8
    ensures SetU8Str(reg, IntToString(n)) == Ok(Register(Unsigned8, U8(n)))
    ensures ValU8(SetU8Str(reg, IntToString(n)).value) == Ok(n)
  {
    ParseIntToString(n, 0, U8_MAX);
  }

  /** Setting a signed register from the text of any `i8` and reading it back gives that number. */
  lemma SetI8ThenRead(reg: Register, n: i8)
    requires reg.kind == Signed8
    ensures SetI8Str(reg, IntToString(n)) == Ok(Register(Signed8, I8(n)))
    ensures ValI8(SetI8Str(reg, IntToString(n)).value) == Ok(n)
  {
    ParseIntToString(n, I8_MIN, I8_MAX);
  }

  /** Setting the process register from the text of any `i32` and reading it back gives that number. */
  lemma SetProcessThenRead(reg: Register, n: i32)
    requires reg.kind == Process
    ensures SetProcess(reg, IntToString(n)) == Ok(Register(Process, I32(n)))
    ensures ProcessVal(SetProcess(reg, IntToString(n)).value) == Ok(n)
  {
    ParseIntToString(n, I32_MIN, I32_MAX);
  }
}
