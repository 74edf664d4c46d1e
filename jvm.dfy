/** The Jasmin-style instructions the code generator appends, as an abstract
    datatype. Labels are numbers (the text `L<n>` is not modelled); the
    operands of `bipush` and `sipush` have the widths section 6.5 of the Java
    Virtual Machine Specification gives them (a signed byte and a signed
    16-bit value), as ranges of integers. */
module Jvm {
  import opened Syntax
  import opened Wrappers

  /** The signed operand of `bipush` (one byte) and of `sipush` (two bytes),
      each sign-extended to an `int` when pushed. */
  type Int8 = x: int | -0x80 <= x < 0x80
  type Int16 = x: int | -0x8000 <= x < 0x8000

  /** Which family of load/store a local-variable slot is accessed with:
      `iload`/`istore`, `fload`/`fstore` or `aload`/`astore`. */
  datatype SlotKind = IntSlot | FloatSlot | RefSlot

  datatype Instr =
    // class and method directives
    | ClassDirective(name: string)
    | SuperDirective(name: string)
    | FieldDirective(field: string, desc: string)
    | MethodStart(header: string)
    | LimitLocals(n: nat)
    | LimitStack(n: nat)
    | MethodEnd
    // constants
    | IconstM1
    | Iconst(n: nat)
    | Bipush(byte: Int8)
    | Sipush(short: Int16)
    | LdcInt(v: int)
    | Fconst0
    | FloatConst(spelling: string)
    | LdcString(str: string)
    // local variables: `xload n` and the short form `xload_n`
    | Load(kind: SlotKind, slot: nat)
    | LoadShort(kind: SlotKind, slot: nat)
    | Store(kind: SlotKind, slot: nat)
    | StoreShort(kind: SlotKind, slot: nat)
    // static fields
    | Getstatic(owner: string, field: string, desc: string)
    | Putstatic(owner: string, field: string, desc: string)
    // arrays
    | Newarray(elem: Type)
    | Iaload | Faload | Baload
    | Iastore | Fastore | Bastore
    // objects
    | New(cls: string)
    | InvokeInit(cls: string)
    | InvokeObjectInit
    // operand stack
    | Dup | DupX2 | Pop
    // arithmetic
    | Iadd | Imul | Idiv | Ineg
    | Fadd | Fmul | Fdiv | Fneg
    | I2f | Fcmpg
    // control
    | IfIcmp(cond: Cond, target: nat)
    | IfZ(cond: Cond, target: nat)
    | Goto(target: nat)
    | Label(l: nat)
    | Ireturn | Freturn | ReturnVoid | Nop
    // calls
    | InvokeStd(fn: StdFunc)
    | Invokevirtual(owner: string, fname: string, desc: string)

  /** The value an integer-constant instruction pushes, by the semantics of
      `iconst_<i>`, `bipush`, `sipush` and `ldc`; none for any other
      instruction. */
  function PushedInt(i: Instr): (r: Option<int>)
  {
    match i
    case IconstM1 => Some(-1)
    case Iconst(n) => if n <= 5 then Some(n) else None
    case Bipush(b) => Some(b)
    case Sipush(s) => Some(s)
    case LdcInt(v) => Some(v)
    case _ => None
  }
}
