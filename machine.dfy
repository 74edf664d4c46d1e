/** A reference semantics for the integer part of the generated code: an
    operand stack of Java `int` values, integer local-variable slots, and the
    instructions the integer expressions of the language compile to, with the
    meaning section 6.5 of the Java Virtual Machine Specification gives them
    (arithmetic wraps around modulo 2^32). Control transfers by label: a jump
    goes to the first `Label` of its target in the code being run, and a run
    ends when control falls off the end of the code. */
module Machine {
  import opened Syntax
  import opened Jvm
  import opened Wrappers

  const Modulus: int := 0x1_0000_0000

  /** The Java `int` congruent to `x` modulo 2^32. */
  function ToInt32(x: int): (r: Int32)
    ensures (x - r) % Modulus == 0
  {
    (x + 0x8000_0000) % Modulus - 0x8000_0000
  }

  /** Whether comparison `c` holds between `a` (the deeper operand) and `b`. */
  predicate Holds(c: Cond, a: int, b: int) {
    match c
    case EQ => a == b
    case NE => a != b
    case LT => a < b
    case LE => a <= b
    case GT => a > b
    case GE => a >= b
  }

  /** 1 for true, 0 for false, as the generated code represents booleans. */
  function Bit(b: bool): int {
    if b then 1 else 0
  }

  datatype MState = MState(stack: seq<int>, locals: map<nat, int>)

  datatype Config = Config(pc: nat, m: MState)

  function Push(m: MState, v: int): (r: MState)
    ensures r.stack == m.stack + [v] && r.locals == m.locals
  {
    m.(stack := m.stack + [v])
  }

  /** Whether `code[p]` defines label `l`. */
  predicate Defines(code: seq<Instr>, p: nat, l: nat)
    requires p < |code|
  {
    code[p].Label? && code[p].l == l
  }

  /** The first position of label `l` in `code` from position `i` on. */
  function FindFrom(code: seq<Instr>, l: nat, i: nat): (r: Option<nat>)
    ensures r.Some? ==> i <= r.value < |code| && Defines(code, r.value, l)
    decreases |code| - i
  {
    if i >= |code| then None
    else if Defines(code, i, l) then Some(i)
    else FindFrom(code, l, i + 1)
  }

  /** The first position of label `l` in `code`. */
  function Find(code: seq<Instr>, l: nat): (r: Option<nat>)
    ensures r.Some? ==> r.value < |code| && Defines(code, r.value, l)
  {
    FindFrom(code, l, 0)
  }

  /** The effect of an instruction that does not transfer control; none for
      a jump, for an instruction outside the integer subset, and for an
      operand stack or slot the instruction cannot work on. */
  function Apply(i: Instr, m: MState): Option<MState>
  {
    var s := m.stack;
    var n := |s|;
    match i
    case Label(_) => Some(m)
    case Nop => Some(m)
    case IconstM1 => Some(Push(m, -1))
    case Iconst(k) => if k <= 5 then Some(Push(m, k)) else None
    case Bipush(v) => Some(Push(m, v))
    case Sipush(v) => Some(Push(m, v))
    case LdcInt(v) => Some(Push(m, v))
    case Dup => if n < 1 then None else Some(Push(m, s[n - 1]))
    case Pop => if n < 1 then None else Some(m.(stack := s[..n - 1]))
    case Ineg => if n < 1 then None else Some(m.(stack := s[..n - 1] + [ToInt32(-s[n - 1])]))
    case Iadd => if n < 2 then None else Some(m.(stack := s[..n - 2] + [ToInt32(s[n - 2] + s[n - 1])]))
    case Imul => if n < 2 then None else Some(m.(stack := s[..n - 2] + [ToInt32(s[n - 2] * s[n - 1])]))
    case Load(kind, slot) => LoadInt(kind, slot, m)
    case LoadShort(kind, slot) => LoadInt(kind, slot, m)
    case Store(kind, slot) => StoreInt(kind, slot, m)
    case StoreShort(kind, slot) => StoreInt(kind, slot, m)
    case _ => None
  }

  /** `iload`: the value of an integer slot, pushed. */
  function LoadInt(kind: SlotKind, slot: nat, m: MState): Option<MState> {
    if kind == IntSlot && slot in m.locals then Some(Push(m, m.locals[slot])) else None
  }

  /** `istore`: the value on top of the stack, popped into an integer slot. */
  function StoreInt(kind: SlotKind, slot: nat, m: MState): Option<MState> {
    var n := |m.stack|;
    if kind == IntSlot && n >= 1 then Some(MState(m.stack[..n - 1], m.locals[slot := m.stack[n - 1]])) else None
  }

  function Jump(code: seq<Instr>, target: nat, m: MState): Option<Config> {
    match Find(code, target)
    case None => None
    case Some(p) => Some(Config(p, m))
  }

  /** One step of execution at `c.pc`. */
  ghost function Step(code: seq<Instr>, c: Config): Option<Config>
    requires c.pc < |code|
  {
    var i := code[c.pc];
    var s := c.m.stack;
    var n := |s|;
    if i.Goto? then Jump(code, i.target, c.m)
    else if i.IfZ? then
      if n < 1 then None
      else
        var m' := c.m.(stack := s[..n - 1]);
        if Holds(i.cond, s[n - 1], 0) then Jump(code, i.target, m')
        else Some(Config(c.pc + 1, m'))
    else if i.IfIcmp? then
      if n < 2 then None
      else
        var m' := c.m.(stack := s[..n - 2]);
        if Holds(i.cond, s[n - 2], s[n - 1]) then Jump(code, i.target, m')
        else Some(Config(c.pc + 1, m'))
    else match Apply(i, c.m)
      case None => None
      case Some(m') => Some(Config(c.pc + 1, m'))
  }

  /** At most `fuel` steps from `c`: the state in which control falls off
      the end of `code`, or none if it does not within `fuel` steps or gets
      stuck. */
  ghost function Run(code: seq<Instr>, c: Config, fuel: nat): Option<MState>
    decreases fuel
  {
    if c.pc == |code| then Some(c.m)
    else if c.pc > |code| || fuel == 0 then None
    else match Step(code, c)
      case None => None
      case Some(c') => Run(code, c', fuel - 1)
  }

  /** Code without control transfers, run instruction by instruction. */
  function Straight(code: seq<Instr>, m: MState): Option<MState>
    decreases |code|
  {
    if code == [] then Some(m)
    else match Apply(code[0], m)
      case None => None
      case Some(m') => Straight(code[1..], m')
  }
}
