/** The translation the emitter performs, as pure functions: each visitor
    becomes a function from a tree node and the frame before it to the
    instructions it appends and the frame after it. The class `Emitter`
    performs these appends in place and is proved equal to them; the
    lemmas of module `Properties` are stated about them. */
module Translate {
  import opened Syntax
  import opened Jvm
  import opened Select
  import opened Frames

  // ---------------------------------------------------------------------
  // Types and well-formedness of the checked tree
  // ---------------------------------------------------------------------

  /** How many operand-stack entries a value of type `t` occupies once
      evaluated: none for void, one otherwise. */
  function Width(t: Type): (w: nat)
    ensures w <= 1
  {
    if t == VoidType then 0 else 1
  }

  function StdResult(fn: StdFunc): Type {
    match fn
    case GetInt => IntType
    case GetFloat => FloatType
    case _ => VoidType
  }

  function StdArity(fn: StdFunc): nat {
    match fn
    case GetInt => 0
    case GetFloat => 0
    case PutLn => 0
    case _ => 1
  }

  /** The type the checker decorated an expression with. */
  function TypeOf(e: Expr): Type {
    match e
    case IntLit(_) => IntType
    case FloatLit(_) => FloatType
    case BoolLit(_) => BooleanType
    case StringLit(_) => StringType
    case VarExpr(x) => x.ty
    case Unary(op, _) =>
      if op == INot then BooleanType
      else if op == IPlus || op == INeg then IntType
      else FloatType
    case Binary(op, _, _) =>
      if op in {IAdd, ISub, IMul, IDiv} then IntType
      else if op in {FAdd, FSub, FMul, FDiv} then FloatType
      else BooleanType
    case Call(c, _) => if c.Std? then StdResult(c.fn) else c.result
    case ArrayExpr(a, _) => if a.ty.ArrayType? then a.ty.elem else VoidType
    case Assign(lhs, _) => TypeOf(lhs)
    case EmptyExpr => VoidType
  }

  /** The expression leaves a value on the operand stack. */
  predicate Produces(e: Expr) {
    TypeOf(e) != VoidType
  }

  /** A variable reference the checker accepted: a variable type, and for a
      local or parameter a declaration that has been given a slot. */
  predicate VarOk(x: Var, bound: set<nat>) {
    IsVarType(x.ty) && (x.Local? ==> x.id in bound)
  }

  /** The shape of a type-checked expression, as far as the code generator
      relies on it; `bound` holds the ids of the declarations in scope. */
  predicate WF(e: Expr, bound: set<nat>)
    decreases e
  {
    match e
    case VarExpr(x) => VarOk(x, bound)
    case Unary(_, a) => WF(a, bound) && Produces(a)
    case Binary(_, a, b) => WF(a, bound) && Produces(a) && WF(b, bound) && Produces(b)
    case Call(c, args) =>
      (forall k :: 0 <= k < |args| ==> WF(args[k], bound) && Produces(args[k])) &&
      (if c.Std? then |args| == StdArity(c.fn)
       else |args| == |c.params| && (IsScalar(c.result) || c.result == VoidType))
    case ArrayExpr(a, i) => VarOk(a, bound) && a.ty.ArrayType? && WF(i, bound) && Produces(i)
    case Assign(lhs, rhs) =>
      WF(rhs, bound) && IsScalar(TypeOf(rhs)) &&
      (match lhs
       case VarExpr(x) => VarOk(x, bound) && IsScalar(x.ty)
       case ArrayExpr(_, _) => WF(lhs, bound)
       case _ => false)
    case _ => true
  }

  /** The elements of an array initialiser: each leaves a value, and their
      positions fit a Java `int`. */
  predicate ElemsOk(es: seq<Expr>, bound: set<nat>) {
    |es| <= 0x8000_0000 &&
    forall k :: 0 <= k < |es| ==> WF(es[k], bound) && Produces(es[k])
  }

  /** A local declaration; `bound` already holds its own id. */
  predicate DeclOk(d: LocalDecl, bound: set<nat>) {
    IsVarType(d.ty) &&
    match d.init
    case NoInit => true
    case ExprInit(e) => !d.ty.ArrayType? && WF(e, bound) && Produces(e)
    case ArrayInit(es) => d.ty.ArrayType? && ElemsOk(es, bound)
  }

  predicate DeclsOk(ds: seq<LocalDecl>, bound: set<nat>)
    decreases ds
  {
    ds == [] ||
    (DeclOk(ds[0], bound + {ds[0].id}) && DeclsOk(ds[1..], bound + {ds[0].id}))
  }

  /** A checked statement; `inLoop` says whether it lies inside a loop (the
      checker rejects `break` and `continue` elsewhere). */
  predicate WFStmt(s: Stmt, bound: set<nat>, inLoop: bool)
    decreases s
  {
    match s
    case Compound(ds, ss) =>
      DeclsOk(ds, bound) &&
      forall k :: 0 <= k < |ss| ==> WFStmt(ss[k], bound + DeclIds(ds), inLoop)
    case EmptyComp => true
    case If(c, s1, s2) => WF(c, bound) && Produces(c) && WFStmt(s1, bound, inLoop) && WFStmt(s2, bound, inLoop)
    case While(c, b) => WF(c, bound) && Produces(c) && WFStmt(b, bound, true)
    case For(e1, e2, e3, b) =>
      WF(e1, bound) && (e2 == EmptyExpr || (WF(e2, bound) && Produces(e2))) &&
      WF(e3, bound) && WFStmt(b, bound, true)
    case Break => inLoop
    case Continue => inLoop
    case Return(e) => WF(e, bound) && (e == EmptyExpr || IsScalar(TypeOf(e)))
    case ExprStmt(e) => WF(e, bound)
    case EmptyStmt => true
  }

  /** The ids a function body may use besides its own declarations: the
      parameters, which the body's compound statement gives slots. */
  function OwnerIds(owner: Owner): set<nat> {
    match owner
    case Nested => {}
    case FunctionBody(name, ps) => if name == "main" then {} else ParamIds(ps)
  }

  // Growing the set of declarations in scope keeps a tree well formed.

  lemma {:induction false} WFMono(e: Expr, b1: set<nat>, b2: set<nat>)
    requires WF(e, b1) && b1 <= b2
    ensures WF(e, b2)
    decreases e
  {
    match e
    case Unary(_, a) => WFMono(a, b1, b2);
    case Binary(_, a, b) => WFMono(a, b1, b2); WFMono(b, b1, b2);
    case Call(_, args) =>
      forall k | 0 <= k < |args| ensures WF(args[k], b2) {
        WFMono(args[k], b1, b2);
      }
    case ArrayExpr(_, i) => WFMono(i, b1, b2);
    case Assign(lhs, rhs) => WFMono(lhs, b1, b2); WFMono(rhs, b1, b2);
    case _ =>
  }

  lemma ElemsMono(es: seq<Expr>, b1: set<nat>, b2: set<nat>)
    requires ElemsOk(es, b1) && b1 <= b2
    ensures ElemsOk(es, b2)
  {
    forall k | 0 <= k < |es| ensures WF(es[k], b2) {
      WFMono(es[k], b1, b2);
    }
  }

  lemma {:induction false} DeclsMono(ds: seq<LocalDecl>, b1: set<nat>, b2: set<nat>)
    requires DeclsOk(ds, b1) && b1 <= b2
    ensures DeclsOk(ds, b2)
    decreases ds
  {
    if ds != [] {
      var d := ds[0];
      match d.init {
        case NoInit =>
        case ExprInit(e) => WFMono(e, b1 + {d.id}, b2 + {d.id});
        case ArrayInit(es) => ElemsMono(es, b1 + {d.id}, b2 + {d.id});
      }
      DeclsMono(ds[1..], b1 + {d.id}, b2 + {d.id});
    }
  }

  lemma {:induction false} WFStmtMono(s: Stmt, b1: set<nat>, b2: set<nat>, inLoop: bool)
    requires WFStmt(s, b1, inLoop) && b1 <= b2
    ensures WFStmt(s, b2, inLoop)
    decreases s
  {
    match s
    case Compound(ds, ss) =>
      DeclsMono(ds, b1, b2);
      forall k | 0 <= k < |ss| ensures WFStmt(ss[k], b2 + DeclIds(ds), inLoop) {
        WFStmtMono(ss[k], b1 + DeclIds(ds), b2 + DeclIds(ds), inLoop);
      }
    case If(c, s1, s2) => WFMono(c, b1, b2); WFStmtMono(s1, b1, b2, inLoop); WFStmtMono(s2, b1, b2, inLoop);
    case While(c, b) => WFMono(c, b1, b2); WFStmtMono(b, b1, b2, true);
    case For(e1, e2, e3, b) =>
      WFMono(e1, b1, b2); WFMono(e2, b1, b2); WFMono(e3, b1, b2); WFStmtMono(b, b1, b2, true);
    case Return(e) => WFMono(e, b1, b2);
    case ExprStmt(e) => WFMono(e, b1, b2);
    case _ =>
  }

  lemma StmtsMono(ss: seq<Stmt>, b1: set<nat>, b2: set<nat>, inLoop: bool)
    requires forall k :: 0 <= k < |ss| ==> WFStmt(ss[k], b1, inLoop)
    requires b1 <= b2
    ensures forall k :: 0 <= k < |ss| ==> WFStmt(ss[k], b2, inLoop)
  {
    forall k | 0 <= k < |ss| ensures WFStmt(ss[k], b2, inLoop) {
      WFStmtMono(ss[k], b1, b2, inLoop);
    }
  }

  // ---------------------------------------------------------------------
  // Results of the translation and what it does to the frame
  // ---------------------------------------------------------------------

  /** The class name and the slots given to declarations so far (the
      `index` field the source stores in each declaration node). */
  datatype Ctx = Ctx(cls: string, index: map<nat, nat>)

  datatype Gen = Gen(code: seq<Instr>, f: FrameState)

  datatype SGen = SGen(code: seq<Instr>, f: FrameState, index: map<nat, nat>)

  datatype FGen = FGen(code: seq<Instr>, index: map<nat, nat>)

  /** The label stacks, the slot counter and the kind of method are left
      alone; labels and the maximum depth only grow; validity is kept. */
  predicate Keeps(f: FrameState, g: FrameState) {
    g.main == f.main && g.nextIndex == f.nextIndex &&
    g.scopeStart == f.scopeStart && g.scopeEnd == f.scopeEnd &&
    g.brk == f.brk && g.con == f.con &&
    f.nextLabel <= g.nextLabel && f.max <= g.max &&
    (Valid(f) ==> Valid(g))
  }

  /** Translating an expression: `w` more entries on the stack, and the
      frame otherwise kept. */
  predicate ExprEffect(f: FrameState, g: FrameState, w: nat) {
    g.cur == f.cur + w && Keeps(f, g)
  }

  /** Translating a statement: from an empty stack back to an empty stack;
      the label stacks and the kind of method kept; labels, slots and the
      maximum depth only grow; validity kept. */
  predicate StmtEffect(f: FrameState, g: FrameState) {
    (f.cur == 0 ==> g.cur == 0) &&
    g.main == f.main &&
    g.scopeStart == f.scopeStart && g.scopeEnd == f.scopeEnd &&
    g.brk == f.brk && g.con == f.con &&
    f.nextLabel <= g.nextLabel && f.nextIndex <= g.nextIndex && f.max <= g.max &&
    (Valid(f) ==> Valid(g))
  }

  // ---------------------------------------------------------------------
  // Variables
  // ---------------------------------------------------------------------

  /** visitSimpleVar: `getstatic` for a global, the slot's load otherwise. */
  function LoadVar(x: Var, cx: Ctx): Instr
    requires x.Global? || x.id in cx.index
  {
    if x.Global? then Getstatic(cx.cls, x.name, Descriptor(x.ty))
    else LoadInstr(KindOf(x.ty), cx.index[x.id])
  }

  /** The store of an assignment to a scalar variable whose right-hand side
      has type `t`: `putstatic` for a global (the emitter as written fails
      there, see module `AsWritten`), `fstore`/`istore` by `t` otherwise. */
  function StoreVar(x: Var, t: Type, cx: Ctx): Instr
    requires x.Global? || x.id in cx.index
  {
    if x.Global? then Putstatic(cx.cls, x.name, JavaType(x.ty))
    else StoreInstr(KindOf(t), cx.index[x.id])
  }

  // ---------------------------------------------------------------------
  // Expressions
  // ---------------------------------------------------------------------

  /** emitIF_ICMPCOND: two new labels, a conditional jump on the two
      operands, and 0 or 1 left in their place. */
  function IntCompare(c: Cond, f: FrameState): (r: Gen)
    requires 2 <= f.cur
  {
    var t := f.nextLabel;
    var next := f.nextLabel + 1;
    Gen([IfIcmp(c, t), Iconst(0), Goto(next), Label(t), Iconst(1), Label(next)],
        Pushed(Popped(WithNewLabel(WithNewLabel(f)), 2), 1))
  }

  /** emitFCMP: as `IntCompare`, comparing through `fcmpg` first. */
  function FloatCompare(c: Cond, f: FrameState): (r: Gen)
    requires 2 <= f.cur
  {
    var t := f.nextLabel;
    var next := f.nextLabel + 1;
    Gen([Fcmpg, IfZ(c, t), Iconst(0), Goto(next), Label(t), Iconst(1), Label(next)],
        Pushed(Popped(WithNewLabel(WithNewLabel(f)), 2), 1))
  }

  /** The instructions of an arithmetic operator; subtraction is negation
      followed by addition. */
  function ArithInstrs(op: BinaryOp): seq<Instr> {
    match op
    case IAdd => [Iadd]
    case ISub => [Ineg, Iadd]
    case IMul => [Imul]
    case IDiv => [Idiv]
    case FAdd => [Fadd]
    case FSub => [Fneg, Fadd]
    case FMul => [Fmul]
    case FDiv => [Fdiv]
    case _ => []
  }

  function ExprGen(e: Expr, cx: Ctx, f: FrameState): (r: Gen)
    requires WF(e, cx.index.Keys)
    ensures ExprEffect(f, r.f, Width(TypeOf(e)))
    decreases e, 2
  {
    match e
    case IntLit(v) => Gen([IconstInstr(v)], Pushed(f, 1))
    case FloatLit(s) => Gen([FloatConst(s)], Pushed(f, 1))
    case BoolLit(b) => Gen([if b then Iconst(1) else Iconst(0)], Pushed(f, 1))
    case StringLit(s) => Gen([LdcString(s)], Pushed(f, 1))
    case VarExpr(x) => Gen([LoadVar(x, cx)], Pushed(f, 1))
    case Unary(_, _) => UnaryGen(e, cx, f)
    case Binary(_, _, _) => BinaryGen(e, cx, f)
    case Call(_, _) => CallGen(e, cx, f)
    case ArrayExpr(x, i) =>
      var g := ArrayRefGen(x, i, cx, f);
      Gen(g.code + [ArrayLoadInstr(x.ty.elem)], Popped(g.f, 1))
    case Assign(_, _) => AssignGen(e, cx, f)
    case EmptyExpr => Gen([], f)
  }

  function UnaryGen(e: Expr, cx: Ctx, f: FrameState): (r: Gen)
    requires e.Unary? && WF(e, cx.index.Keys)
    ensures ExprEffect(f, r.f, Width(TypeOf(e)))
    decreases e, 1
  {
    var g := ExprGen(e.e, cx, f);
    match e.uop
    case INot =>
      var c := IntCompare(EQ, Pushed(g.f, 1));
      Gen(g.code + [Iconst(0)] + c.code, c.f)
    case IPlus => g
    case FPlus => g
    case INeg => Gen(g.code + [Ineg], g.f)
    case FNeg => Gen(g.code + [Fneg], g.f)
    case I2F => Gen(g.code + [I2f], g.f)
  }

  function BinaryGen(e: Expr, cx: Ctx, f: FrameState): (r: Gen)
    requires e.Binary? && WF(e, cx.index.Keys)
    ensures ExprEffect(f, r.f, Width(TypeOf(e)))
    decreases e, 1
  {
    if e.bop == And || e.bop == Or then LogicGen(e, cx, f)
    else
      var g1 := ExprGen(e.e1, cx, f);
      var g2 := ExprGen(e.e2, cx, g1.f);
      if e.bop.ICmp? then
        var c := IntCompare(e.bop.c, g2.f);
        Gen(g1.code + g2.code + c.code, c.f)
      else if e.bop.FCmp? then
        var c := FloatCompare(e.bop.c, g2.f);
        Gen(g1.code + g2.code + c.code, c.f)
      else
        Gen(g1.code + g2.code + ArithInstrs(e.bop), Popped(g2.f, 1))
  }

  /** emitRELATION: `&&` and `||` by short circuit. Both labels are taken
      before either operand is translated; each operand is followed by the
      same conditional jump to the label that yields the deciding value. */
  function LogicGen(e: Expr, cx: Ctx, f: FrameState): (r: Gen)
    requires e.Binary? && (e.bop == And || e.bop == Or) && WF(e, cx.index.Keys)
    ensures ExprEffect(f, r.f, 1)
    decreases e, 0
  {
    var short := f.nextLabel;
    var next := f.nextLabel + 1;
    var jump := if e.bop == Or then IfZ(NE, short) else IfZ(EQ, short);
    var g1 := ExprGen(e.e1, cx, WithNewLabel(WithNewLabel(f)));
    var g2 := ExprGen(e.e2, cx, Popped(g1.f, 1));
    Gen(g1.code + [jump] + g2.code +
        [jump, Iconst(if e.bop == Or then 0 else 1), Goto(next),
         Label(short), Iconst(if e.bop == Or then 1 else 0), Label(next)],
        Pushed(Popped(g2.f, 1), 1))
  }

  /** visitArgList: the arguments left to right. */
  function ArgsGen(args: seq<Expr>, cx: Ctx, f: FrameState): (r: Gen)
    requires forall k :: 0 <= k < |args| ==> WF(args[k], cx.index.Keys) && Produces(args[k])
    ensures ExprEffect(f, r.f, |args|)
    decreases args
  {
    if args == [] then Gen([], f)
    else
      var g := ExprGen(args[0], cx, f);
      assert Produces(args[0]) && Width(TypeOf(args[0])) == 1;
      var h := ArgsGen(args[1..], cx, g.f);
      Gen(g.code + h.code, h.f)
  }

  /** visitCallExpr: a built-in pushes its arguments and invokes the
      runtime; a programmer-defined function is an instance method, called
      on `vc$` (slot 1) from main and on `this` (slot 0) elsewhere. */
  function CallGen(e: Expr, cx: Ctx, f: FrameState): (r: Gen)
    requires e.Call? && WF(e, cx.index.Keys)
    ensures ExprEffect(f, r.f, Width(TypeOf(e)))
    decreases e, 1
  {
    match e.callee
    case Std(fn) =>
      var g := ArgsGen(e.args, cx, f);
      Gen(g.code + [InvokeStd(fn)],
          if fn == GetInt || fn == GetFloat then Pushed(g.f, 1)
          else if fn == PutLn then g.f
          else Popped(g.f, 1))
    case User(name, ps, res) =>
      var g := ArgsGen(e.args, cx, Pushed(f, 1));
      var after := Popped(g.f, |ps| + 1);
      Gen([LoadShort(RefSlot, if f.main then 1 else 0)] + g.code +
          [Invokevirtual(cx.cls, name, MethodDescriptor(ps, res))],
          if JavaType(res) != "V" then Pushed(after, 1) else after)
  }

  /** visitArrayExpr up to the element access: the array reference and the
      index; an assignment target stops here. */
  function ArrayRefGen(x: Var, i: Expr, cx: Ctx, f: FrameState): (r: Gen)
    requires VarOk(x, cx.index.Keys) && x.ty.ArrayType? && WF(i, cx.index.Keys) && Produces(i)
    ensures ExprEffect(f, r.f, 2)
    decreases i, 3
  {
    var g := ExprGen(i, cx, Pushed(f, 1));
    Gen([LoadVar(x, cx)] + g.code, g.f)
  }

  /** visitAssignExpr, with the assigned value left on the stack (a `dup`
      or `dup_x2` before the store) so that an assignment is an expression
      of its type; see module `AsWritten` for the emitter as written. */
  function AssignGen(e: Expr, cx: Ctx, f: FrameState): (r: Gen)
    requires e.Assign? && WF(e, cx.index.Keys)
    ensures ExprEffect(f, r.f, Width(TypeOf(e)))
    decreases e, 1
  {
    match e.lhs
    case ArrayExpr(x, i) =>
      assert WF(e.lhs, cx.index.Keys);
      var a := ArrayRefGen(x, i, cx, f);
      var g := ExprGen(e.rhs, cx, a.f);
      Gen(a.code + g.code + [DupX2, ArrayStoreInstr(TypeOf(e.rhs))], Popped(Pushed(g.f, 1), 3))
    case VarExpr(x) =>
      var g := ExprGen(e.rhs, cx, f);
      Gen(g.code + [Dup, StoreVar(x, TypeOf(e.rhs), cx)], Popped(Pushed(g.f, 1), 1))
  }

  /** An expression whose value is not wanted (an expression statement, the
      first and third clauses of a `for`): a single leftover value is popped
      when it is the only entry on the stack. */
  function DiscardGen(e: Expr, cx: Ctx, f: FrameState): (r: Gen)
    requires WF(e, cx.index.Keys)
    ensures Keeps(f, r.f)
    ensures f.cur == 0 ==> r.f.cur == 0
  {
    var g := ExprGen(e, cx, f);
    if g.f.cur == 1 then Gen(g.code + [Pop], Popped(g.f, 1)) else g
  }

  /** The test of a `for`: an absent test is the constant 1. */
  function TestGen(e: Expr, cx: Ctx, f: FrameState): (r: Gen)
    requires e == EmptyExpr || (WF(e, cx.index.Keys) && Produces(e))
    ensures ExprEffect(f, r.f, 1)
  {
    if e == EmptyExpr then Gen([IconstInstr(1)], Pushed(f, 1)) else ExprGen(e, cx, f)
  }

  /** visitInitExpr: for each element, its array reference duplicated, its
      position, its value and the element store. */
  function InitGen(es: seq<Expr>, t: Type, cx: Ctx, f: FrameState): (r: Gen)
    requires IsScalar(t) && ElemsOk(es, cx.index.Keys)
    ensures ExprEffect(f, r.f, 0)
    decreases |es|
  {
    if es == [] then Gen([], f)
    else
      var p := InitGen(es[..|es| - 1], t, cx, f);
      var g := ExprGen(es[|es| - 1], cx, Pushed(Pushed(p.f, 1), 1));
      Gen(p.code + [Dup, IconstInstr(|es| - 1)] + g.code + [ArrayStoreInstr(t)], Popped(g.f, 3))
  }

  // ---------------------------------------------------------------------
  // Declarations
  // ---------------------------------------------------------------------

  /** visitParaDecl over a parameter list: consecutive slots, no code. */
  function ParamsGen(ps: seq<Param>, index: map<nat, nat>, f: FrameState): (r: SGen)
    ensures r.code == []
    ensures r.f == f.(nextIndex := f.nextIndex + |ps|)
    ensures r.index.Keys == index.Keys + ParamIds(ps)
    decreases ps
  {
    if ps == [] then SGen([], f, index)
    else ParamsGen(ps[1..], index[ps[0].id := f.nextIndex], WithNewIndex(f))
  }

  /** visitLocalVarDecl: the next slot; an array is allocated and stored
      whether or not it has an initialiser, a scalar is stored only when it
      has one. */
  function LocalDeclGen(d: LocalDecl, cls: string, index: map<nat, nat>, f: FrameState): (r: SGen)
    requires DeclOk(d, index.Keys + {d.id})
    ensures r.index == index[d.id := f.nextIndex]
    ensures r.f.cur == f.cur && r.f.nextIndex == f.nextIndex + 1
    ensures Keeps(f.(nextIndex := f.nextIndex + 1), r.f)
  {
    var slot := f.nextIndex;
    var ix := index[d.id := slot];
    assert ix.Keys == index.Keys + {d.id};
    var cx := Ctx(cls, ix);
    var f1 := WithNewIndex(f);
    if d.ty.ArrayType? then
      var g := if d.init.ArrayInit? then InitGen(d.init.elems, d.ty.elem, cx, Pushed(f1, 1))
               else Gen([], Pushed(f1, 1));
      SGen([IconstInstr(d.size), Newarray(d.ty.elem)] + g.code + [StoreInstr(RefSlot, slot)],
           Popped(g.f, 1), ix)
    else if d.init.ExprInit? then
      var g := ExprGen(d.init.e, cx, f1);
      SGen(g.code + [StoreInstr(KindOf(d.ty), slot)], Popped(g.f, 1), ix)
    else SGen([], f1, ix)
  }

  function DeclsGen(ds: seq<LocalDecl>, cls: string, index: map<nat, nat>, f: FrameState): (r: SGen)
    requires DeclsOk(ds, index.Keys)
    ensures r.index.Keys == index.Keys + DeclIds(ds)
    ensures r.f.cur == f.cur && r.f.nextIndex == f.nextIndex + |ds|
    ensures Keeps(f.(nextIndex := f.nextIndex + |ds|), r.f)
    decreases ds
  {
    if ds == [] then SGen([], f, index)
    else
      var d := LocalDeclGen(ds[0], cls, index, f);
      assert d.index.Keys == index.Keys + {ds[0].id};
      var rest := DeclsGen(ds[1..], cls, d.index, d.f);
      SGen(d.code + rest.code, rest.f, rest.index)
  }

  // ---------------------------------------------------------------------
  // Statements
  // ---------------------------------------------------------------------

  /** The frame a compound statement's contents are translated in: its
      start and end labels taken and pushed on the scope stacks. */
  function ScopeFrame(f: FrameState): (r: FrameState)
    ensures r.nextLabel == f.nextLabel + 2 && r.cur == f.cur && r.max == f.max
    ensures r.brk == f.brk && r.con == f.con && r.main == f.main && r.nextIndex == f.nextIndex
    ensures r.scopeStart == f.scopeStart + [f.nextLabel] && r.scopeEnd == f.scopeEnd + [f.nextLabel + 1]
  {
    EnterScope(WithNewLabel(WithNewLabel(f)), f.nextLabel, f.nextLabel + 1)
  }

  /** The frame a `while` loop's test and body are translated in: its
      continue and break labels taken and pushed on the loop stacks. */
  function WhileFrame(f: FrameState): (r: FrameState)
    ensures r.nextLabel == f.nextLabel + 2 && r.cur == f.cur && r.max == f.max
    ensures r.scopeStart == f.scopeStart && r.scopeEnd == f.scopeEnd && r.main == f.main && r.nextIndex == f.nextIndex
    ensures r.brk == f.brk + [f.nextLabel + 1] && r.con == f.con + [f.nextLabel]
  {
    EnterLoop(WithNewLabel(WithNewLabel(f)), f.nextLabel + 1, f.nextLabel)
  }

  /** The frame a `for` loop's clauses and body are translated in: its
      start, continue and break labels taken, the last two pushed on the
      loop stacks. */
  function ForFrame(f: FrameState): (r: FrameState)
    ensures r.nextLabel == f.nextLabel + 3 && r.cur == f.cur && r.max == f.max
    ensures r.scopeStart == f.scopeStart && r.scopeEnd == f.scopeEnd && r.main == f.main && r.nextIndex == f.nextIndex
    ensures r.brk == f.brk + [f.nextLabel + 2] && r.con == f.con + [f.nextLabel + 1]
  {
    EnterLoop(WithNewLabel(WithNewLabel(WithNewLabel(f))), f.nextLabel + 2, f.nextLabel + 1)
  }

  /** The layout of a compound statement whose labels are `lo` (start) and
      `lo + 1` (end): start label, header, declarations, statements, end
      label. */
  function CompoundShape(lo: nat, h: seq<Instr>, d: seq<Instr>, b: seq<Instr>): seq<Instr> {
    [Label(lo)] + h + d + b + [Label(lo + 1)]
  }

  /** The layout of `if` with labels `lo` (else) and `lo + 1` (next): the
      condition, a jump to the else part on false, the then part, a jump
      past the else part, the else label, the else part, the next label. */
  function IfShape(lo: nat, g: seq<Instr>, a: seq<Instr>, b: seq<Instr>): seq<Instr> {
    g + [IfZ(EQ, lo)] + a + [Goto(lo + 1), Label(lo)] + b + [Label(lo + 1)]
  }

  /** The layout of `while` with labels `lo` (continue) and `lo + 1`
      (break): the continue label, the test, a jump to the break label on
      false, the body, the back jump, the break label. */
  function WhileShape(lo: nat, g: seq<Instr>, b: seq<Instr>): seq<Instr> {
    [Label(lo)] + g + [IfZ(EQ, lo + 1)] + b + [Goto(lo), Label(lo + 1)]
  }

  /** The layout of `for` with labels `lo` (start of the test), `lo + 1`
      (continue) and `lo + 2` (break): the initialiser, a jump to the test,
      the continue label, the step, the start label, the test, a jump to the
      break label on false, the body, the jump to the step, the break label. */
  function ForShape(lo: nat, g1: seq<Instr>, g3: seq<Instr>, g2: seq<Instr>, b: seq<Instr>): seq<Instr> {
    g1 + [Goto(lo), Label(lo + 1)] + g3 + [Label(lo)] + g2 + [IfZ(EQ, lo + 2)] + b + [Goto(lo + 1), Label(lo + 2)]
  }

  function StmtGen(s: Stmt, cls: string, index: map<nat, nat>, f: FrameState): (r: SGen)
    requires WFStmt(s, index.Keys, InLoop(f))
    ensures StmtEffect(f, r.f)
    ensures index.Keys <= r.index.Keys
    decreases s, 2
  {
    match s
    case Compound(_, _) =>
      assert index.Keys + OwnerIds(Nested) == index.Keys;
      CompoundGen(s, Nested, cls, index, f)
    case EmptyComp => SGen([], f, index)
    case If(_, _, _) => IfGen(s, cls, index, f)
    case While(_, _) => WhileGen(s, cls, index, f)
    case For(_, _, _, _) => ForGen(s, cls, index, f)
    case Break => SGen([Goto(f.brk[|f.brk| - 1])], f, index)
    case Continue => SGen([Goto(f.con[|f.con| - 1])], f, index)
    case Return(e) => ReturnGen(e, cls, index, f)
    case ExprStmt(e) =>
      var g := DiscardGen(e, Ctx(cls, index), f);
      SGen(g.code, g.f, index)
    case EmptyStmt => SGen([], f, index)
  }

  /** visitStmtList: the statements in order. */
  function StmtsGen(ss: seq<Stmt>, cls: string, index: map<nat, nat>, f: FrameState): (r: SGen)
    requires forall k :: 0 <= k < |ss| ==> WFStmt(ss[k], index.Keys, InLoop(f))
    ensures StmtEffect(f, r.f)
    ensures index.Keys <= r.index.Keys
    decreases ss
  {
    if ss == [] then SGen([], f, index)
    else
      var a := StmtGen(ss[0], cls, index, f);
      StmtsMono(ss[1..], index.Keys, a.index.Keys, InLoop(f));
      var b := StmtsGen(ss[1..], cls, a.index, a.f);
      SGen(a.code + b.code, b.f, b.index)
  }

  /** What a function body's compound statement does before its
      declarations: main creates the `vc$` instance in slot 1; any other
      function gives its parameters their slots. */
  function HeaderGen(owner: Owner, cls: string, index: map<nat, nat>, f: FrameState): (r: SGen)
    ensures r.index.Keys == index.Keys + OwnerIds(owner)
    ensures r.f.cur == f.cur && f.nextIndex <= r.f.nextIndex
    ensures Keeps(f.(nextIndex := r.f.nextIndex), r.f)
  {
    match owner
    case Nested => SGen([], f, index)
    case FunctionBody(name, ps) =>
      if name == "main" then
        SGen([New(cls), Dup, InvokeInit(cls), StoreShort(RefSlot, 1)],
             Popped(Popped(Pushed(f, 2), 1), 1), index)
      else ParamsGen(ps, index, f)
  }

  /** visitCompoundStmt: a scope between two new labels, pushed on the
      scope stacks while its declarations and statements are translated. */
  function CompoundGen(s: Stmt, owner: Owner, cls: string, index: map<nat, nat>, f: FrameState): (r: SGen)
    requires s.Compound? && WFStmt(s, index.Keys + OwnerIds(owner), InLoop(f))
    ensures StmtEffect(f, r.f)
    ensures index.Keys <= r.index.Keys
    decreases s, 1
  {
    var h := HeaderGen(owner, cls, index, ScopeFrame(f));
    var d := DeclsGen(s.decls, cls, h.index, h.f);
    var b := StmtsGen(s.stmts, cls, d.index, d.f);
    assert b.f.scopeStart == ScopeFrame(f).scopeStart && b.f.scopeEnd == ScopeFrame(f).scopeEnd;
    SGen(CompoundShape(f.nextLabel, h.code, d.code, b.code), LeaveScope(b.f), b.index)
  }

  /** visitIfStmt: both labels first, then the condition, a jump to the
      else part on false, the then part, a jump past the else part. */
  function IfGen(s: Stmt, cls: string, index: map<nat, nat>, f: FrameState): (r: SGen)
    requires s.If? && WFStmt(s, index.Keys, InLoop(f))
    ensures StmtEffect(f, r.f)
    ensures index.Keys <= r.index.Keys
    decreases s, 1
  {
    var g := ExprGen(s.cond, Ctx(cls, index), WithNewLabel(WithNewLabel(f)));
    var a := StmtGen(s.thn, cls, index, Popped(g.f, 1));
    WFStmtMono(s.els, index.Keys, a.index.Keys, InLoop(f));
    var b := StmtGen(s.els, cls, a.index, a.f);
    SGen(IfShape(f.nextLabel, g.code, a.code, b.code), b.f, b.index)
  }


  /** visitWhileStmt: the continue label heads the test, the break label
      follows the back jump. */
  function WhileGen(s: Stmt, cls: string, index: map<nat, nat>, f: FrameState): (r: SGen)
    requires s.While? && WFStmt(s, index.Keys, InLoop(f))
    ensures StmtEffect(f, r.f)
    ensures index.Keys <= r.index.Keys
    decreases s, 1
  {
    var g := ExprGen(s.cond, Ctx(cls, index), WhileFrame(f));
    var b := StmtGen(s.body, cls, index, Popped(g.f, 1));
    assert b.f.brk == WhileFrame(f).brk && b.f.con == WhileFrame(f).con;
    SGen(WhileShape(f.nextLabel, g.code, b.code), LeaveLoop(b.f), b.index)
  }

  /** visitForStmt: the initialiser, a jump to the test; the continue label
      heads the step, which falls through to the test; an absent test is the
      constant 1. */
  function ForGen(s: Stmt, cls: string, index: map<nat, nat>, f: FrameState): (r: SGen)
    requires s.For? && WFStmt(s, index.Keys, InLoop(f))
    ensures StmtEffect(f, r.f)
    ensures index.Keys <= r.index.Keys
    decreases s, 1
  {
    var g1 := DiscardGen(s.init, Ctx(cls, index), ForFrame(f));
    var g3 := DiscardGen(s.step, Ctx(cls, index), g1.f);
    var g2 := TestGen(s.test, Ctx(cls, index), g3.f);
    var b := StmtGen(s.body, cls, index, Popped(g2.f, 1));
    assert b.f.brk == ForFrame(f).brk && b.f.con == ForFrame(f).con;
    SGen(ForShape(f.nextLabel, g1.code, g3.code, g2.code, b.code), LeaveLoop(b.f), b.index)
  }

  /** visitReturnStmt: in main a plain `return`, the value (if any) never
      evaluated; elsewhere the value and `ireturn` or `freturn` by its type,
      and a plain `return` for `return;` (which the emitter as written
      drops, see module `AsWritten`). */
  function ReturnGen(e: Expr, cls: string, index: map<nat, nat>, f: FrameState): (r: SGen)
    requires WF(e, index.Keys) && (e == EmptyExpr || IsScalar(TypeOf(e)))
    ensures StmtEffect(f, r.f) && r.index == index
  {
    if f.main then SGen([ReturnVoid], f, index)
    else
      var g := ExprGen(e, Ctx(cls, index), f);
      var t := TypeOf(e);
      if t == IntType || t == BooleanType then SGen(g.code + [Ireturn], Popped(g.f, 1), index)
      else if t == FloatType then SGen(g.code + [Freturn], Popped(g.f, 1), index)
      else SGen(g.code + [ReturnVoid], g.f, index)
  }

  // ---------------------------------------------------------------------
  // Functions and the program
  // ---------------------------------------------------------------------

  /** A checked function declaration: its body is a compound statement
      (possibly empty) using only its parameters and its own declarations;
      parameters have variable types. (The body's condition is compared
      with `true` so that a caller checks it as one fact rather than case
      by case.) */
  predicate FuncOk(fd: FuncDecl) {
    (fd.body.Compound? || fd.body.EmptyComp?) &&
    (forall k :: 0 <= k < |fd.params| ==> IsVarType(fd.params[k].ty)) &&
    WFStmt(fd.body, OwnerIds(FunctionBody(fd.name, fd.params)), false) == true
  }

  /** The first frame of a function: main reserves slot 0 for its argument
      array and slot 1 for `vc$`; any other function reserves slot 0 for
      `this`. */
  function EntryFrame(isMain: bool): (f: FrameState)
    ensures Valid(f) && f.cur == 0 && f.main == isMain
    ensures f.nextIndex == if isMain then 2 else 1
    ensures f.nextLabel == 0 && f.brk == [] && f.con == []
  {
    if isMain then WithNewIndex(WithNewIndex(NewFrame(true)))
    else WithNewIndex(NewFrame(false))
  }

  /** A checked function's body stays well formed once the slots already
      handed out are in scope, and it is translated outside any loop. */
  lemma BodyOk(fd: FuncDecl, keys: set<nat>)
    requires FuncOk(fd)
    ensures WFStmt(fd.body, keys + OwnerIds(FunctionBody(fd.name, fd.params)),
                   InLoop(EntryFrame(fd.name == "main")))
  {
    var ids := OwnerIds(FunctionBody(fd.name, fd.params));
    WFStmtMono(fd.body, ids, keys + ids, false);
  }

  /** The Jasmin method header: main is `public static` with a string array
      argument; any other function is an instance method named after it. */
  function MethodHeader(fd: FuncDecl): string {
    if fd.name == "main" then "public static main([Ljava/lang/String;)V"
    else fd.name + MethodDescriptor(ParamTypes(fd.params), fd.result)
  }

  /** The function body, translated from the entry frame; an empty body
      produces nothing. */
  function BodyGen(fd: FuncDecl, cls: string, index: map<nat, nat>): (r: SGen)
    requires FuncOk(fd)
    ensures index.Keys <= r.index.Keys
    ensures r.f.cur == 0 && Valid(r.f) && r.f.main == (fd.name == "main")
    ensures EntryFrame(fd.name == "main").nextIndex <= r.f.nextIndex
  {
    var f0 := EntryFrame(fd.name == "main");
    BodyOk(fd, index.Keys);
    if fd.body.Compound? then CompoundGen(fd.body, FunctionBody(fd.name, fd.params), cls, index, f0)
    else SGen([], f0, index)
  }

  /** The instruction after the body: `return` for a void function and for
      main, `nop` for a function with a result (which returned already). */
  function Closing(fd: FuncDecl): (i: Instr)
    ensures !i.Label? && !i.IfIcmp? && !i.IfZ? && !i.Goto?
  {
    if fd.result == VoidType || fd.name == "main" then ReturnVoid else Nop
  }

  /** A method: its header, the body's code, the closing instruction, the
      limits the frame reached, the end directive. */
  function MethodCode(header: string, body: seq<Instr>, tail: Instr, f: FrameState): seq<Instr> {
    [MethodStart(header)] + body + [tail, LimitLocals(f.nextIndex), LimitStack(f.max), MethodEnd]
  }

  /** visitFuncDecl: header, body, closing instruction, limits, end of the
      method. */
  function FuncGen(fd: FuncDecl, cls: string, index: map<nat, nat>): (r: FGen)
    requires FuncOk(fd)
    ensures index.Keys <= r.index.Keys
  {
    var b := BodyGen(fd, cls, index);
    FGen(MethodCode(MethodHeader(fd), b.code, Closing(fd), b.f), b.index)
  }

  predicate GlobalOk(d: Decl)
    requires d.GlobalVar?
  {
    IsVarType(d.ty) &&
    match d.init
    case NoInit => true
    case ExprInit(e) => !d.ty.ArrayType? && WF(e, {}) && Produces(e)
    case ArrayInit(es) => d.ty.ArrayType? && ElemsOk(es, {})
  }

  predicate ProgramOk(p: Program) {
    forall k :: 0 <= k < |p.decls| ==>
      (p.decls[k].GlobalVar? ==> GlobalOk(p.decls[k])) &&
      (p.decls[k].Func? ==> FuncOk(p.decls[k].f))
  }

  /** The first subpass of visitProgram: one `.field` per global, in
      order. */
  function FieldsGen(ds: seq<Decl>): seq<Instr>
    decreases |ds|
  {
    if ds == [] then []
    else
      var d := ds[|ds| - 1];
      FieldsGen(ds[..|ds| - 1]) +
      (if d.GlobalVar? then [FieldDirective(d.name, Descriptor(d.ty))] else [])
  }

  /** The initialisation of one global in `<clinit>`: an array is allocated
      (and filled by its initialiser), a scalar gets its initialiser or the
      default 0; then `putstatic`. */
  function GlobalInitGen(d: Decl, cx: Ctx, f: FrameState): (r: Gen)
    requires d.GlobalVar? && GlobalOk(d)
    ensures ExprEffect(f, r.f, 0)
  {
    if d.ty.ArrayType? then
      var g := if d.init.ArrayInit? then
                 ElemsMono(d.init.elems, {}, cx.index.Keys);
                 InitGen(d.init.elems, d.ty.elem, cx, Pushed(f, 1))
               else Gen([], Pushed(f, 1));
      Gen([IconstInstr(d.size), Newarray(d.ty.elem)] + g.code + [Putstatic(cx.cls, d.name, Descriptor(d.ty))],
          Popped(g.f, 1))
    else
      var g := if d.init.ExprInit? then
                 WFMono(d.init.e, {}, cx.index.Keys);
                 ExprGen(d.init.e, cx, f)
               else Gen([if d.ty == FloatType then Fconst0 else Iconst(0)], Pushed(f, 1));
      Gen(g.code + [Putstatic(cx.cls, d.name, JavaType(d.ty))], Popped(g.f, 1))
  }

  /** The second subpass of visitProgram: the globals' initialisations, in
      order. */
  function ClinitGen(ds: seq<Decl>, cx: Ctx, f: FrameState): (r: Gen)
    requires forall k :: 0 <= k < |ds| ==> ds[k].GlobalVar? ==> GlobalOk(ds[k])
    ensures ExprEffect(f, r.f, 0)
    decreases |ds|
  {
    if ds == [] then Gen([], f)
    else
      var p := ClinitGen(ds[..|ds| - 1], cx, f);
      var d := ds[|ds| - 1];
      if d.GlobalVar? then
        var g := GlobalInitGen(d, cx, p.f);
        Gen(p.code + g.code, g.f)
      else p
  }

  /** The third subpass: visitDeclList over the declarations, translating
      each function. */
  function FuncsGen(ds: seq<Decl>, cls: string, index: map<nat, nat>): (r: FGen)
    requires forall k :: 0 <= k < |ds| ==> ds[k].Func? ==> FuncOk(ds[k].f)
    ensures index.Keys <= r.index.Keys
    decreases ds
  {
    if ds == [] then FGen([], index)
    else
      var a := if ds[0].Func? then FuncGen(ds[0].f, cls, index) else FGen([], index);
      var b := FuncsGen(ds[1..], cls, a.index);
      FGen(a.code + b.code, b.index)
  }

  /** The code of the static initialiser `<clinit>`. */
  function ClinitMethod(ds: seq<Decl>, cx: Ctx): seq<Instr>
    requires forall k :: 0 <= k < |ds| ==> ds[k].GlobalVar? ==> GlobalOk(ds[k])
  {
    var g := ClinitGen(ds, cx, NewFrame(false));
    [MethodStart("static <clinit>()V")] + g.code +
    [LimitLocals(g.f.nextIndex), LimitStack(g.f.max), ReturnVoid, MethodEnd]
  }

  /** The default constructor `<init>`, which calls Object's. */
  const InitMethod: seq<Instr> :=
    [MethodStart("public <init>()V"), LimitStack(1), LimitLocals(1),
     LoadShort(RefSlot, 0), InvokeObjectInit, ReturnVoid, MethodEnd]

  /** visitProgram: the class header, the fields, `<clinit>`, `<init>` and
      every function. */
  function ProgramGen(p: Program, cls: string, index: map<nat, nat>): (r: FGen)
    requires ProgramOk(p)
  {
    var funcs := FuncsGen(p.decls, cls, index);
    FGen([ClassDirective(cls), SuperDirective("java/lang/Object")] + FieldsGen(p.decls) +
         ClinitMethod(p.decls, Ctx(cls, index)) + InitMethod + funcs.code,
         funcs.index)
  }
}
