/** The type-directed instruction selector: pure helpers that choose a
    mnemonic or a descriptor from a type, a value or a slot number, and the
    derivation of the class name from the input file name. */
module Select {
  import opened Syntax
  import opened Jvm
  import opened Wrappers

  // ---------------------------------------------------------------------
  // Descriptors (section 4.3 of the Java Virtual Machine Specification)
  // ---------------------------------------------------------------------

  /** VCtoJavaType: the one-letter descriptor of a scalar type; every other
      type (void, string, array) maps to "V". */
  function JavaType(t: Type): (d: string)
    ensures |d| == 1
    ensures d != "V" <==> IsScalar(t)
  {
    match t
    case BooleanType => "Z"
    case IntType => "I"
    case FloatType => "F"
    case _ => "V"
  }

  /** The descriptor of a variable or parameter: `[` before the element's
      letter for an array. */
  function Descriptor(t: Type): string
  {
    if t.ArrayType? then "[" + JavaType(t.elem) else JavaType(t)
  }

  /** The argument part of a method descriptor, built from the callee's
      parameter types in order. */
  function ArgsDescriptor(ps: seq<Type>): string
  {
    if ps == [] then "" else Descriptor(ps[0]) + ArgsDescriptor(ps[1..])
  }

  function MethodDescriptor(ps: seq<Type>, result: Type): string
  {
    "(" + ArgsDescriptor(ps) + ")" + JavaType(result)
  }

  /** Reads back the scalar type of a one-letter descriptor. */
  function ScalarOf(c: char): (r: Option<Type>)
    ensures r.Some? ==> IsScalar(r.value)
  {
    if c == 'Z' then Some(BooleanType)
    else if c == 'I' then Some(IntType)
    else if c == 'F' then Some(FloatType)
    else None
  }

  /** Reads back a sequence of parameter types from an argument descriptor. */
  function ParseArgs(d: string): Option<seq<Type>>
    decreases |d|
  {
    if d == [] then Some([])
    else if d[0] == '[' then
      if |d| >= 2 && ScalarOf(d[1]).Some? then
        match ParseArgs(d[2..])
        case Some(rest) => Some([ArrayType(ScalarOf(d[1]).value)] + rest)
        case None => None
      else None
    else if ScalarOf(d[0]).Some? then
      match ParseArgs(d[1..])
      case Some(rest) => Some([ScalarOf(d[0]).value] + rest)
      case None => None
    else None
  }

  /** The argument descriptor determines the parameter types: reading it
      back yields the parameter list it was built from. */
  lemma {:induction false} ArgsDescriptorRoundTrip(ps: seq<Type>)
    requires forall k :: 0 <= k < |ps| ==> IsVarType(ps[k])
    ensures ParseArgs(ArgsDescriptor(ps)) == Some(ps)
  {
    if ps != [] {
      ArgsDescriptorRoundTrip(ps[1..]);
      var d, rest := Descriptor(ps[0]), ArgsDescriptor(ps[1..]);
      if ps[0].ArrayType? {
        assert (d + rest)[2..] == rest;
      } else {
        assert (d + rest)[1..] == rest;
      }
      assert [ps[0]] + ps[1..] == ps;
    }
  }

  /** Appending a parameter appends its descriptor (the order in which the
      descriptor loop builds the string). */
  lemma {:induction false} ArgsDescriptorSnoc(ps: seq<Type>, p: Type)
    ensures ArgsDescriptor(ps + [p]) == ArgsDescriptor(ps) + Descriptor(p)
  {
    if ps == [] {
      assert [p][1..] == [];
    } else {
      assert (ps + [p])[1..] == ps[1..] + [p];
      ArgsDescriptorSnoc(ps[1..], p);
    }
  }

  // ---------------------------------------------------------------------
  // Integer constants (emitICONST)
  // ---------------------------------------------------------------------

  /** emitICONST: `iconst_m1`, `iconst_0`..`iconst_5`, `bipush`, `sipush`
      or `ldc`, chosen by the range of the value. */
  function IconstInstr(v: Int32): (r: Instr)
  {
    if v == -1 then IconstM1
    else if 0 <= v <= 5 then Iconst(v)
    else if -128 <= v <= 127 then Bipush(v)
    else if -32768 <= v <= 32767 then Sipush(v)
    else LdcInt(v)
  }

  /** How wide an integer-constant form is: the operand-free `iconst`
      forms, then `bipush`, `sipush` and `ldc`. */
  function Tier(i: Instr): nat
  {
    match i
    case IconstM1 => 0
    case Iconst(_) => 0
    case Bipush(_) => 1
    case Sipush(_) => 2
    case _ => 3
  }

  /** The instruction emitICONST selects pushes exactly the value asked for. */
  lemma IconstPushesValue(v: Int32)
    ensures PushedInt(IconstInstr(v)) == Some(v)
  {
  }

  /** No narrower constant form pushes the same value: every instruction
      that pushes `v` is at least as wide as the one emitICONST selects. */
  lemma IconstIsNarrowest(v: Int32, i: Instr)
    requires PushedInt(i) == Some(v)
    ensures Tier(IconstInstr(v)) <= Tier(i)
  {
  }

  // ---------------------------------------------------------------------
  // Local-variable loads and stores
  // ---------------------------------------------------------------------

  /** The load/store family for a variable of type `t`: `a` for arrays, `f`
      for floats, `i` for integers and booleans. */
  function KindOf(t: Type): SlotKind
  {
    if t.ArrayType? then RefSlot else if t == FloatType then FloatSlot else IntSlot
  }

  /** emitILOAD/emitFLOAD/emitALOAD: the short form `xload_n` exactly for
      slots 0 to 3. */
  function LoadInstr(k: SlotKind, slot: nat): (r: Instr)
    ensures r.LoadShort? <==> slot <= 3
    ensures (r.Load? || r.LoadShort?) && r.kind == k && r.slot == slot
  {
    if slot <= 3 then LoadShort(k, slot) else Load(k, slot)
  }

  /** emitISTORE/emitFSTORE and the stores of visitLocalVarDecl: the short
      form `xstore_n` exactly for slots 0 to 3. */
  function StoreInstr(k: SlotKind, slot: nat): (r: Instr)
    ensures r.StoreShort? <==> slot <= 3
    ensures (r.Store? || r.StoreShort?) && r.kind == k && r.slot == slot
  {
    if slot <= 3 then StoreShort(k, slot) else Store(k, slot)
  }

  // ---------------------------------------------------------------------
  // Array elements (emitI_F_BALOAD, emitI_F_BASTORE)
  // ---------------------------------------------------------------------

  function ArrayLoadInstr(t: Type): Instr
    requires IsScalar(t)
  {
    if t == FloatType then Faload else if t == IntType then Iaload else Baload
  }

  function ArrayStoreInstr(t: Type): Instr
    requires IsScalar(t)
  {
    if t == FloatType then Fastore else if t == IntType then Iastore else Bastore
  }

  /** The element type an array load or store instruction works on. */
  function ElementOf(i: Instr): Option<Type>
  {
    match i
    case Iaload => Some(IntType)
    case Iastore => Some(IntType)
    case Faload => Some(FloatType)
    case Fastore => Some(FloatType)
    case Baload => Some(BooleanType)
    case Bastore => Some(BooleanType)
    case _ => None
  }

  /** The element load and the element store chosen for a type both work on
      arrays of that type, so a value stored is read back by the load. */
  lemma ArrayAccessAgrees(t: Type)
    requires IsScalar(t)
    ensures ElementOf(ArrayLoadInstr(t)) == ElementOf(ArrayStoreInstr(t)) == Some(t)
  {
  }

  // ---------------------------------------------------------------------
  // The class name (the constructor of the emitter)
  // ---------------------------------------------------------------------

  /** The index of the last occurrence of `c` in `s`, or -1. */
  function LastIndexOf(s: string, c: char): (r: int)
    ensures -1 <= r < |s|
    ensures r >= 0 ==> s[r] == c
    ensures forall j :: r < j < |s| ==> s[j] != c
  {
    if s == [] then -1
    else if s[|s| - 1] == c then |s| - 1
    else LastIndexOf(s[..|s| - 1], c)
  }

  /** The class name is the input file name without its extension: the text
      from the last '.' on is dropped when that '.' is not the first
      character. */
  function ClassName(fileName: string): (cls: string)
    ensures |cls| <= |fileName| && cls == fileName[..|cls|]
    ensures cls != fileName ==>
      0 < |cls| && fileName[|cls|] == '.' &&
      forall j :: |cls| < j < |fileName| ==> fileName[j] != '.'
  {
    var i := LastIndexOf(fileName, '.');
    if i > 0 then fileName[..i] else fileName
  }

  lemma ClassNameDropsExtension(base: string, ext: string)
    requires base != "" && '.' !in ext
    ensures ClassName(base + "." + ext) == base
  {
    var f := base + "." + ext;
    var i := LastIndexOf(f, '.');
    assert f[|base|] == '.';
    assert f[..|base|] == base;
  }

  lemma ClassNameKeepsUndotted(fileName: string)
    requires forall j :: 0 < j < |fileName| ==> fileName[j] != '.'
    ensures ClassName(fileName) == fileName
  {
  }
}
