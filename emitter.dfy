/** The emitter itself: an object holding the class name, the instruction
    stream it appends to and the slot each declaration was given. Every
    visitor appends to `code`, drives the `Frame` it is handed through
    push, pop and the label and slot counters, and is proved to append
    exactly what the corresponding function of module `Translate` produces
    and to leave the frame in the state that function computes. */
module CodeGen {
  import opened Syntax
  import opened Jvm
  import opened Select
  import opened Frames
  import opened Translate

  // Regrouping appended pieces: the emitter appends one piece at a time,
  // the translation functions group the pieces of a construct.

  lemma Assoc<T>(s: seq<T>, a: seq<T>, b: seq<T>)
    ensures s + a + b == s + (a + b)
  {
  }

  lemma Assoc3<T>(s: seq<T>, a: seq<T>, b: seq<T>, c: seq<T>)
    ensures s + a + b + c == s + (a + b + c)
  {
  }

  lemma Assoc4<T>(s: seq<T>, a: seq<T>, b: seq<T>, c: seq<T>, d: seq<T>)
    ensures s + a + b + c + d == s + (a + b + c + d)
  {
  }

  lemma Assoc5<T>(s: seq<T>, a: seq<T>, b: seq<T>, c: seq<T>, d: seq<T>, e: seq<T>)
    ensures s + a + b + c + d + e == s + (a + b + c + d + e)
  {
    Assoc4(s, a, b, c, d);
    Assoc(s, a + b + c + d, e);
  }

  lemma Assoc6<T>(s: seq<T>, a: seq<T>, b: seq<T>, c: seq<T>, d: seq<T>, e: seq<T>, f: seq<T>)
    ensures s + a + b + c + d + e + f == s + (a + b + c + d + e + f)
  {
    Assoc5(s, a, b, c, d, e);
    Assoc(s, a + b + c + d + e, f);
  }

  lemma Assoc8<T>(s: seq<T>, a: seq<T>, b: seq<T>, c: seq<T>, d: seq<T>, e: seq<T>, f: seq<T>, g: seq<T>,
                  h: seq<T>)
    ensures s + a + b + c + d + e + f + g + h == s + (a + b + c + d + e + f + g + h)
  {
    Assoc5(s, a, b, c, d, e);
    Assoc4(s, a + b + c + d + e, f, g, h);
  }

  /** The arguments from the k-th on: the k-th argument's code, then the
      rest's, from the frame the k-th leaves. */
  lemma ArgsStep(args: seq<Expr>, k: nat, cx: Ctx, f: FrameState)
    requires k < |args|
    requires forall j :: 0 <= j < |args| ==> WF(args[j], cx.index.Keys) && Produces(args[j])
    ensures var g := ExprGen(args[k], cx, f);
            var h := ArgsGen(args[k + 1..], cx, g.f);
            ArgsGen(args[k..], cx, f) == Gen(g.code + h.code, h.f)
  {
    assert args[k..][0] == args[k] && args[k..][1..] == args[k + 1..];
  }

  /** The code of a `while` loop, from the pieces its visitor appends. */
  lemma WhileCode(lo: nat, g: seq<Instr>, b: seq<Instr>,
                  c0: seq<Instr>, c1: seq<Instr>, c2: seq<Instr>, c3: seq<Instr>, c4: seq<Instr>)
    requires c1 == c0 + [Label(lo)]
    requires c2 == c1 + g + [IfZ(EQ, lo + 1)]
    requires c3 == c2 + b
    requires c4 == c3 + [Goto(lo), Label(lo + 1)]
    ensures c4 == c0 + WhileShape(lo, g, b)
  {
    Assoc5(c0, [Label(lo)], g, [IfZ(EQ, lo + 1)], b, [Goto(lo), Label(lo + 1)]);
  }

  /** `while` as the visitor builds it. */
  lemma WhileResult(s: Stmt, cls: string, index: map<nat, nat>, f: FrameState, g: Gen, b: SGen)
    requires s.While? && WFStmt(s, index.Keys, InLoop(f))
    requires g == ExprGen(s.cond, Ctx(cls, index), WhileFrame(f))
    requires b == StmtGen(s.body, cls, index, Popped(g.f, 1))
    ensures WhileGen(s, cls, index, f) == SGen(WhileShape(f.nextLabel, g.code, b.code), LeaveLoop(b.f), b.index)
  {
  }

  /** The code of `if`, from the pieces its visitor appends. */
  lemma IfCode(lo: nat, g: seq<Instr>, a: seq<Instr>, b: seq<Instr>,
               c0: seq<Instr>, c1: seq<Instr>, c2: seq<Instr>, c3: seq<Instr>, c4: seq<Instr>, c5: seq<Instr>)
    requires c1 == c0 + g + [IfZ(EQ, lo)]
    requires c2 == c1 + a
    requires c3 == c2 + [Goto(lo + 1), Label(lo)]
    requires c4 == c3 + b
    requires c5 == c4 + [Label(lo + 1)]
    ensures c5 == c0 + IfShape(lo, g, a, b)
  {
    Assoc6(c0, g, [IfZ(EQ, lo)], a, [Goto(lo + 1), Label(lo)], b, [Label(lo + 1)]);
  }

  /** `if` as the visitor builds it. */
  lemma IfResult(s: Stmt, cls: string, index: map<nat, nat>, f: FrameState, g: Gen, a: SGen, b: SGen)
    requires s.If? && WFStmt(s, index.Keys, InLoop(f))
    requires g == ExprGen(s.cond, Ctx(cls, index), WithNewLabel(WithNewLabel(f)))
    requires a == StmtGen(s.thn, cls, index, Popped(g.f, 1))
    requires WFStmt(s.els, a.index.Keys, InLoop(f)) && b == StmtGen(s.els, cls, a.index, a.f)
    ensures IfGen(s, cls, index, f) == SGen(IfShape(f.nextLabel, g.code, a.code, b.code), b.f, b.index)
  {
  }

  /** The `else` branch stays well formed after the `then` branch. */
  lemma IfElse(s: Stmt, cls: string, index: map<nat, nat>, f: FrameState, g: Gen, a: SGen)
    requires s.If? && WFStmt(s, index.Keys, InLoop(f))
    requires g == ExprGen(s.cond, Ctx(cls, index), WithNewLabel(WithNewLabel(f)))
    requires a == StmtGen(s.thn, cls, index, Popped(g.f, 1))
    ensures WFStmt(s.els, a.index.Keys, InLoop(f)) && InLoop(a.f) == InLoop(f)
  {
    WFStmtMono(s.els, index.Keys, a.index.Keys, InLoop(f));
  }

  /** The code of `for`, from the pieces its visitor appends. */
  lemma ForCode(lo: nat, g1: seq<Instr>, g3: seq<Instr>, g2: seq<Instr>, b: seq<Instr>,
                c0: seq<Instr>, c1: seq<Instr>, c2: seq<Instr>, c3: seq<Instr>, c4: seq<Instr>)
    requires c1 == c0 + g1 + [Goto(lo), Label(lo + 1)] + g3 + [Label(lo)]
    requires c2 == c1 + g2 + [IfZ(EQ, lo + 2)]
    requires c3 == c2 + b
    requires c4 == c3 + [Goto(lo + 1), Label(lo + 2)]
    ensures c4 == c0 + ForShape(lo, g1, g3, g2, b)
  {
    Assoc8(c0, g1, [Goto(lo), Label(lo + 1)], g3, [Label(lo)], g2, [IfZ(EQ, lo + 2)], b,
           [Goto(lo + 1), Label(lo + 2)]);
  }

  /** `for` as the visitor builds it: the frame and slots after it, and its
      code in terms of its pieces. */
  lemma ForResult(s: Stmt, cls: string, index: map<nat, nat>, f: FrameState, g1: Gen, g3: Gen, g2: Gen,
                  b: SGen)
    requires s.For? && WFStmt(s, index.Keys, InLoop(f))
    requires g1 == DiscardGen(s.init, Ctx(cls, index), ForFrame(f))
    requires g3 == DiscardGen(s.step, Ctx(cls, index), g1.f)
    requires g2 == TestGen(s.test, Ctx(cls, index), g3.f)
    requires b == StmtGen(s.body, cls, index, Popped(g2.f, 1))
    ensures ForGen(s, cls, index, f) ==
            SGen(ForShape(f.nextLabel, g1.code, g3.code, g2.code, b.code), LeaveLoop(b.f), b.index)
  {
  }

  /** The code of a compound statement, from the pieces its visitor
      appends. */
  lemma CompoundCode(lo: nat, h: seq<Instr>, d: seq<Instr>, b: seq<Instr>,
                     c0: seq<Instr>, c1: seq<Instr>, c2: seq<Instr>, c3: seq<Instr>, c4: seq<Instr>, c5: seq<Instr>)
    requires c1 == c0 + [Label(lo)]
    requires c2 == c1 + h
    requires c3 == c2 + d
    requires c4 == c3 + b
    requires c5 == c4 + [Label(lo + 1)]
    ensures c5 == c0 + CompoundShape(lo, h, d, b)
  {
    Assoc5(c0, [Label(lo)], h, d, b, [Label(lo + 1)]);
  }

  /** The declarations of a compound statement are well formed once its
      header has given the parameters their slots. */
  lemma CompoundDecls(s: Stmt, owner: Owner, cls: string, index: map<nat, nat>, f: FrameState, h: SGen)
    requires s.Compound? && WFStmt(s, index.Keys + OwnerIds(owner), InLoop(f))
    requires h == HeaderGen(owner, cls, index, ScopeFrame(f))
    ensures DeclsOk(s.decls, h.index.Keys)
  {
  }

  /** The statements of a compound statement are well formed once its
      declarations have their slots. */
  lemma CompoundStmts(s: Stmt, owner: Owner, cls: string, index: map<nat, nat>, f: FrameState, h: SGen, d: SGen)
    requires s.Compound? && WFStmt(s, index.Keys + OwnerIds(owner), InLoop(f))
    requires h == HeaderGen(owner, cls, index, ScopeFrame(f))
    requires DeclsOk(s.decls, h.index.Keys) && d == DeclsGen(s.decls, cls, h.index, h.f)
    ensures InLoop(d.f) == InLoop(f)
    ensures forall k :: 0 <= k < |s.stmts| ==> WFStmt(s.stmts[k], d.index.Keys, InLoop(d.f))
  {
  }

  /** A compound statement as the visitor builds it. */
  lemma CompoundResult(s: Stmt, owner: Owner, cls: string, index: map<nat, nat>, f: FrameState,
                       h: SGen, d: SGen, b: SGen)
    requires s.Compound? && WFStmt(s, index.Keys + OwnerIds(owner), InLoop(f))
    requires h == HeaderGen(owner, cls, index, ScopeFrame(f))
    requires DeclsOk(s.decls, h.index.Keys) && d == DeclsGen(s.decls, cls, h.index, h.f)
    requires forall k :: 0 <= k < |s.stmts| ==> WFStmt(s.stmts[k], d.index.Keys, InLoop(d.f))
    requires b == StmtsGen(s.stmts, cls, d.index, d.f)
    ensures CompoundGen(s, owner, cls, index, f) ==
            SGen(CompoundShape(f.nextLabel, h.code, d.code, b.code), LeaveScope(b.f), b.index)
  {
  }

  /** One more statement of a statement list: the rest is translated with
      the slots and the frame the statement leaves. */
  lemma StmtsStep(ss: seq<Stmt>, k: nat, cls: string, index: map<nat, nat>, f: FrameState, a: SGen)
    returns (b: SGen)
    requires k < |ss| && forall j :: k <= j < |ss| ==> WFStmt(ss[j], index.Keys, InLoop(f))
    requires a == StmtGen(ss[k], cls, index, f)
    ensures InLoop(a.f) == InLoop(f)
    ensures forall j :: k + 1 <= j < |ss| ==> WFStmt(ss[j], a.index.Keys, InLoop(f))
    ensures b == StmtsGen(ss[k + 1..], cls, a.index, a.f)
    ensures StmtsGen(ss[k..], cls, index, f) == SGen(a.code + b.code, b.f, b.index)
  {
    assert ss[k..][0] == ss[k] && ss[k..][1..] == ss[k + 1..];
    StmtsMono(ss[k + 1..], index.Keys, a.index.Keys, InLoop(f));
    b := StmtsGen(ss[k + 1..], cls, a.index, a.f);
  }

  /** One more element of an initialiser. */
  lemma InitStep(es: seq<Expr>, i: nat, t: Type, cx: Ctx, f: FrameState)
    requires IsScalar(t) && ElemsOk(es, cx.index.Keys) && i < |es|
    ensures ElemsOk(es[..i], cx.index.Keys) && ElemsOk(es[..i + 1], cx.index.Keys)
    ensures var p := InitGen(es[..i], t, cx, f);
            var g := ExprGen(es[i], cx, Pushed(Pushed(p.f, 1), 1));
            InitGen(es[..i + 1], t, cx, f) ==
            Gen(p.code + [Dup, IconstInstr(i)] + g.code + [ArrayStoreInstr(t)], Popped(g.f, 3))
  {
    ElemsPrefix(es, i, cx.index.Keys);
    ElemsPrefix(es, i + 1, cx.index.Keys);
    var s := es[..i + 1];
    assert s[..|s| - 1] == es[..i] && s[|s| - 1] == es[i];
  }

  lemma ElemsPrefix(es: seq<Expr>, n: nat, bound: set<nat>)
    requires ElemsOk(es, bound) && n <= |es|
    ensures ElemsOk(es[..n], bound)
  {
  }

  /** The code of a method, from the pieces its visitor appends. */
  lemma MethodCodeOf(header: string, body: seq<Instr>, tail: Instr, f: FrameState,
                     c0: seq<Instr>, c1: seq<Instr>, c2: seq<Instr>, c3: seq<Instr>)
    requires c1 == c0 + [MethodStart(header)]
    requires c2 == c1 + body
    requires c3 == c2 + [tail, LimitLocals(f.nextIndex), LimitStack(f.max), MethodEnd]
    ensures c3 == c0 + MethodCode(header, body, tail, f)
  {
    Assoc3(c0, [MethodStart(header)], body, [tail, LimitLocals(f.nextIndex), LimitStack(f.max), MethodEnd]);
  }

  /** One more declaration in `<clinit>`. */
  lemma ClinitStep(ds: seq<Decl>, k: nat, cx: Ctx, f: FrameState)
    requires k < |ds| && forall j :: 0 <= j < |ds| ==> ds[j].GlobalVar? ==> GlobalOk(ds[j])
    ensures var p := ClinitGen(ds[..k], cx, f);
            ClinitGen(ds[..k + 1], cx, f) ==
            if ds[k].GlobalVar? then var g := GlobalInitGen(ds[k], cx, p.f); Gen(p.code + g.code, g.f) else p
  {
    assert ds[..k + 1][..k] == ds[..k] && ds[..k + 1][k] == ds[k];
  }

  /** The code of `<clinit>`, from the pieces its visitor appends. */
  lemma ClinitCode(ds: seq<Decl>, cx: Ctx, c0: seq<Instr>, c1: seq<Instr>, c2: seq<Instr>, c3: seq<Instr>)
    requires forall k :: 0 <= k < |ds| ==> ds[k].GlobalVar? ==> GlobalOk(ds[k])
    requires c1 == c0 + [MethodStart("static <clinit>()V")]
    requires var g := ClinitGen(ds, cx, NewFrame(false));
             c2 == c1 + g.code &&
             c3 == c2 + [LimitLocals(g.f.nextIndex), LimitStack(g.f.max), ReturnVoid, MethodEnd]
    ensures c3 == c0 + ClinitMethod(ds, cx)
  {
    var g := ClinitGen(ds, cx, NewFrame(false));
    Assoc3(c0, [MethodStart("static <clinit>()V")], g.code,
           [LimitLocals(g.f.nextIndex), LimitStack(g.f.max), ReturnVoid, MethodEnd]);
  }

  /** One more declaration of visitDeclList: the rest is translated with
      the slots the declaration leaves. */
  lemma FuncsStep(ds: seq<Decl>, k: nat, cls: string, index: map<nat, nat>, a: FGen) returns (b: FGen)
    requires k < |ds| && forall j :: 0 <= j < |ds| ==> ds[j].Func? ==> FuncOk(ds[j].f)
    requires a == if ds[k].Func? then FuncGen(ds[k].f, cls, index) else FGen([], index)
    ensures b == FuncsGen(ds[k + 1..], cls, a.index)
    ensures FuncsGen(ds[k..], cls, index) == FGen(a.code + b.code, b.index)
  {
    assert ds[k..][0] == ds[k] && ds[k..][1..] == ds[k + 1..];
    b := FuncsGen(ds[k + 1..], cls, a.index);
  }

  /** The code of a program, from the pieces its visitor appends. */
  lemma ProgramCode(p: Program, cls: string, index: map<nat, nat>, funcs: FGen,
                    c0: seq<Instr>, c1: seq<Instr>, c2: seq<Instr>, c3: seq<Instr>, c4: seq<Instr>, c5: seq<Instr>)
    requires ProgramOk(p)
    requires c1 == c0 + [ClassDirective(cls), SuperDirective("java/lang/Object")]
    requires c2 == c1 + FieldsGen(p.decls)
    requires c3 == c2 + ClinitMethod(p.decls, Ctx(cls, index))
    requires c4 == c3 + InitMethod
    requires funcs == FuncsGen(p.decls, cls, index) && c5 == c4 + funcs.code
    ensures c5 == c0 + ProgramGen(p, cls, index).code && c5[|c0|..] == ProgramGen(p, cls, index).code
    ensures ProgramGen(p, cls, index).index == funcs.index
  {
    Assoc5(c0, [ClassDirective(cls), SuperDirective("java/lang/Object")], FieldsGen(p.decls),
           ClinitMethod(p.decls, Ctx(cls, index)), InitMethod, funcs.code);
  }

  class Emitter {
    const classname: string
    /** The instruction stream appended to. */
    var code: seq<Instr>
    /** The slot of each local variable and parameter, by declaration id. */
    var index: map<nat, nat>

    /** The class name is the input file's name without its extension. */
    constructor (inputFilename: string)
      ensures classname == ClassName(inputFilename)
      ensures code == [] && index == map[]
    {
      classname := ClassName(inputFilename);
      code := [];
      index := map[];
    }

    function Cx(): Ctx
      reads this
    {
      Ctx(classname, index)
    }

    method Emit(i: Instr)
      modifies this
      ensures code == old(code) + [i] && index == old(index)
    {
      code := code + [i];
    }

    method EmitTwo(i: Instr, j: Instr)
      modifies this
      ensures code == old(code) + [i, j] && index == old(index)
    {
      Emit(i);
      Emit(j);
    }

    // -------------------------------------------------------------------
    // Selection helpers
    // -------------------------------------------------------------------

    /** emitICONST. */
    method EmitIconst(v: Int32)
      modifies this
      ensures code == old(code) + [IconstInstr(v)] && index == old(index)
    {
      if v == -1 {
        Emit(IconstM1);
      } else if 0 <= v <= 5 {
        Emit(Iconst(v));
      } else if -128 <= v <= 127 {
        Emit(Bipush(v));
      } else if -32768 <= v <= 32767 {
        Emit(Sipush(v));
      } else {
        Emit(LdcInt(v));
      }
    }

    /** emitILOAD, emitFLOAD, emitALOAD. */
    method EmitLoad(k: SlotKind, slot: nat)
      modifies this
      ensures code == old(code) + [LoadInstr(k, slot)] && index == old(index)
    {
      if slot <= 3 {
        Emit(LoadShort(k, slot));
      } else {
        Emit(Load(k, slot));
      }
    }

    /** emitISTORE, emitFSTORE and the stores of visitLocalVarDecl. */
    method EmitStore(k: SlotKind, slot: nat)
      modifies this
      ensures code == old(code) + [StoreInstr(k, slot)] && index == old(index)
    {
      if slot <= 3 {
        Emit(StoreShort(k, slot));
      } else {
        Emit(Store(k, slot));
      }
    }

    /** emitI_F_BALOAD: the element load, popping the reference and the
        index and pushing the element. */
    method EmitArrayLoad(t: Type, frame: Frame)
      requires IsScalar(t) && 1 <= frame.cur
      modifies this, frame
      ensures code == old(code) + [ArrayLoadInstr(t)] && index == old(index)
      ensures frame.State() == Popped(old(frame.State()), 1)
    {
      if t == FloatType {
        Emit(Faload);
      } else if t == IntType {
        Emit(Iaload);
      } else {
        Emit(Baload);
      }
      frame.Pop(1);
    }

    /** emitI_F_BASTORE: the element store, popping reference, index and
        value. */
    method EmitArrayStore(t: Type, frame: Frame)
      requires IsScalar(t) && 3 <= frame.cur
      modifies this, frame
      ensures code == old(code) + [ArrayStoreInstr(t)] && index == old(index)
      ensures frame.State() == Popped(old(frame.State()), 3)
    {
      if t == FloatType {
        Emit(Fastore);
      } else if t == IntType {
        Emit(Iastore);
      } else {
        Emit(Bastore);
      }
      frame.Pop(3);
    }

    /** The argument part of a descriptor and the number of parameters, as
        the descriptor loops of visitCallExpr and visitFuncDecl build them. */
    method ArgsTypes(ps: seq<Type>) returns (d: string, size: nat)
      ensures d == ArgsDescriptor(ps) && size == |ps|
    {
      d, size := "", 0;
      while size < |ps|
        invariant size <= |ps| && d == ArgsDescriptor(ps[..size])
      {
        ArgsDescriptorSnoc(ps[..size], ps[size]);
        assert ps[..size + 1] == ps[..size] + [ps[size]];
        d := d + Descriptor(ps[size]);
        size := size + 1;
      }
      assert ps[..size] == ps;
    }

    /** emitIF_ICMPCOND. */
    method EmitIntCompare(c: Cond, frame: Frame)
      requires 2 <= frame.cur
      modifies this, frame
      ensures code == old(code) + IntCompare(c, old(frame.State())).code && index == old(index)
      ensures frame.State() == IntCompare(c, old(frame.State())).f
    {
      var falseLabel := frame.GetNewLabel();
      var nextLabel := frame.GetNewLabel();
      Emit(IfIcmp(c, falseLabel));
      frame.Pop(2);
      Emit(Iconst(0));
      Emit(Goto(nextLabel));
      Emit(Label(falseLabel));
      Emit(Iconst(1));
      frame.Push(1);
      Emit(Label(nextLabel));
    }

    /** emitFCMP. */
    method EmitFloatCompare(c: Cond, frame: Frame)
      requires 2 <= frame.cur
      modifies this, frame
      ensures code == old(code) + FloatCompare(c, old(frame.State())).code && index == old(index)
      ensures frame.State() == FloatCompare(c, old(frame.State())).f
    {
      var falseLabel := frame.GetNewLabel();
      var nextLabel := frame.GetNewLabel();
      Emit(Fcmpg);
      frame.Pop(2);
      Emit(IfZ(c, falseLabel));
      Emit(Iconst(0));
      Emit(Goto(nextLabel));
      Emit(Label(falseLabel));
      Emit(Iconst(1));
      frame.Push(1);
      Emit(Label(nextLabel));
    }

    // -------------------------------------------------------------------
    // Variables and expressions
    // -------------------------------------------------------------------

    /** visitSimpleVar. */
    method VisitSimpleVar(x: Var, frame: Frame)
      requires x.Global? || x.id in index
      modifies this, frame
      ensures index == old(index) && code == old(code) + [LoadVar(x, Cx())]
      ensures frame.State() == Pushed(old(frame.State()), 1)
    {
      if x.Global? {
        Emit(Getstatic(classname, x.name, Descriptor(x.ty)));
      } else {
        EmitLoad(KindOf(x.ty), index[x.id]);
      }
      frame.Push(1);
    }

    method VisitExpr(e: Expr, frame: Frame)
      requires WF(e, index.Keys)
      modifies this, frame
      ensures index == old(index)
      ensures code == old(code) + ExprGen(e, Cx(), old(frame.State())).code
      ensures frame.State() == ExprGen(e, Cx(), old(frame.State())).f
      decreases e, 2
    {
      match e
      case IntLit(v) =>
        EmitIconst(v);
        frame.Push(1);
      case FloatLit(s) =>
        Emit(FloatConst(s));
        frame.Push(1);
      case BoolLit(b) =>
        Emit(if b then Iconst(1) else Iconst(0));
        frame.Push(1);
      case StringLit(s) =>
        Emit(LdcString(s));
        frame.Push(1);
      case VarExpr(x) =>
        VisitSimpleVar(x, frame);
      case Unary(_, _) =>
        VisitUnary(e, frame);
      case Binary(_, _, _) =>
        VisitBinary(e, frame);
      case Call(_, _) =>
        VisitCall(e, frame);
      case ArrayExpr(x, i) =>
        ghost var c0 := code;
        ghost var g := ArrayRefGen(x, i, Cx(), frame.State());
        VisitArrayRef(x, i, frame);
        EmitArrayLoad(x.ty.elem, frame);
        Assoc(c0, g.code, [ArrayLoadInstr(x.ty.elem)]);
      case Assign(_, _) =>
        VisitAssign(e, frame);
      case EmptyExpr =>
    }

    /** visitUnaryExpr. */
    method VisitUnary(e: Expr, frame: Frame)
      requires e.Unary? && WF(e, index.Keys)
      modifies this, frame
      ensures index == old(index)
      ensures code == old(code) + UnaryGen(e, Cx(), old(frame.State())).code
      ensures frame.State() == UnaryGen(e, Cx(), old(frame.State())).f
      decreases e, 1
    {
      ghost var c0 := code;
      ghost var g := ExprGen(e.e, Cx(), frame.State());
      VisitExpr(e.e, frame);
      match e.uop
      case INot =>
        Emit(Iconst(0));
        frame.Push(1);
        EmitIntCompare(EQ, frame);
        Assoc3(c0, g.code, [Iconst(0)], IntCompare(EQ, Pushed(g.f, 1)).code);
      case IPlus =>
      case FPlus =>
      case INeg =>
        Emit(Ineg);
        Assoc(c0, g.code, [Ineg]);
      case FNeg =>
        Emit(Fneg);
        Assoc(c0, g.code, [Fneg]);
      case I2F =>
        Emit(I2f);
        Assoc(c0, g.code, [I2f]);
    }

    /** The arithmetic cases of visitBinaryExpr: the operator's
        instructions, two operands replaced by one. */
    method EmitArith(op: BinaryOp, frame: Frame)
      requires !op.ICmp? && !op.FCmp? && op != And && op != Or && 1 <= frame.cur
      modifies this, frame
      ensures index == old(index) && code == old(code) + ArithInstrs(op)
      ensures frame.State() == Popped(old(frame.State()), 1)
    {
      match op {
      case IAdd =>
        Emit(Iadd);
      case ISub =>
        Emit(Ineg);
        Emit(Iadd);
      case IMul =>
        Emit(Imul);
      case IDiv =>
        Emit(Idiv);
      case FAdd =>
        Emit(Fadd);
      case FSub =>
        Emit(Fneg);
        Emit(Fadd);
      case FMul =>
        Emit(Fmul);
      case FDiv =>
        Emit(Fdiv);
      }
      frame.Pop(1);
    }

    /** visitBinaryExpr. */
    method VisitBinary(e: Expr, frame: Frame)
      requires e.Binary? && WF(e, index.Keys)
      modifies this, frame
      ensures index == old(index)
      ensures code == old(code) + BinaryGen(e, Cx(), old(frame.State())).code
      ensures frame.State() == BinaryGen(e, Cx(), old(frame.State())).f
      decreases e, 1
    {
      if e.bop == And || e.bop == Or {
        EmitRelation(e, frame);
      } else {
        ghost var c0, f0 := code, frame.State();
        ghost var g1 := ExprGen(e.e1, Cx(), f0);
        VisitExpr(e.e1, frame);
        ghost var g2 := ExprGen(e.e2, Cx(), g1.f);
        VisitExpr(e.e2, frame);
        if e.bop.ICmp? {
          EmitIntCompare(e.bop.c, frame);
          Assoc3(c0, g1.code, g2.code, IntCompare(e.bop.c, g2.f).code);
        } else if e.bop.FCmp? {
          EmitFloatCompare(e.bop.c, frame);
          Assoc3(c0, g1.code, g2.code, FloatCompare(e.bop.c, g2.f).code);
        } else {
          EmitArith(e.bop, frame);
          Assoc3(c0, g1.code, g2.code, ArithInstrs(e.bop));
        }
      }
    }

    /** emitRELATION: `&&` and `||` by short circuit. */
    method EmitRelation(e: Expr, frame: Frame)
      requires e.Binary? && (e.bop == And || e.bop == Or) && WF(e, index.Keys)
      modifies this, frame
      ensures index == old(index)
      ensures code == old(code) + LogicGen(e, Cx(), old(frame.State())).code
      ensures frame.State() == LogicGen(e, Cx(), old(frame.State())).f
      decreases e, 0
    {
      ghost var c0, f0 := code, frame.State();
      var falseLabel := frame.GetNewLabel();
      var nextLabel := frame.GetNewLabel();
      var jump := if e.bop == Or then IfZ(NE, falseLabel) else IfZ(EQ, falseLabel);
      var fallThrough := Iconst(if e.bop == Or then 0 else 1);
      var jumped := Iconst(if e.bop == Or then 1 else 0);
      ghost var g1 := ExprGen(e.e1, Cx(), frame.State());
      VisitExpr(e.e1, frame);
      Emit(jump);
      frame.Pop(1);
      ghost var g2 := ExprGen(e.e2, Cx(), frame.State());
      VisitExpr(e.e2, frame);
      EmitRelationTail(jump, fallThrough, jumped, falseLabel, nextLabel, frame);
      Assoc4(c0, g1.code, [jump], g2.code,
             [jump, fallThrough, Goto(nextLabel), Label(falseLabel), jumped, Label(nextLabel)]);
    }

    /** The end of emitRELATION: the second test, the value of the side
        that did not jump, the value of the side that did. */
    method EmitRelationTail(jump: Instr, fallThrough: Instr, jumped: Instr, falseLabel: nat, nextLabel: nat,
                            frame: Frame)
      requires 1 <= frame.cur
      modifies this, frame
      ensures index == old(index)
      ensures code == old(code) + [jump, fallThrough, Goto(nextLabel), Label(falseLabel), jumped, Label(nextLabel)]
      ensures frame.State() == Pushed(Popped(old(frame.State()), 1), 1)
    {
      Emit(jump);
      frame.Pop(1);
      Emit(fallThrough);
      Emit(Goto(nextLabel));
      Emit(Label(falseLabel));
      Emit(jumped);
      frame.Push(1);
      Emit(Label(nextLabel));
    }

    /** visitArgList: the arguments left to right. */
    method VisitArgs(args: seq<Expr>, frame: Frame) returns (ghost r: Gen)
      requires forall k :: 0 <= k < |args| ==> WF(args[k], index.Keys) && Produces(args[k])
      modifies this, frame
      ensures index == old(index) && r == ArgsGen(args, Cx(), old(frame.State()))
      ensures code == old(code) + r.code && frame.State() == r.f
      decreases args
    {
      r := ArgsGen(args, Cx(), frame.State());
      var k := 0;
      while k < |args|
        invariant k <= |args| && index == old(index)
        invariant old(code) + r.code == code + ArgsGen(args[k..], Cx(), frame.State()).code
        invariant r.f == ArgsGen(args[k..], Cx(), frame.State()).f
      {
        ghost var c0 := code;
        ghost var g := ExprGen(args[k], Cx(), frame.State());
        ArgsStep(args, k, Cx(), frame.State());
        VisitExpr(args[k], frame);
        Assoc(c0, g.code, ArgsGen(args[k + 1..], Cx(), frame.State()).code);
        k := k + 1;
      }
    }

    /** visitCallExpr. */
    method VisitCall(e: Expr, frame: Frame)
      requires e.Call? && WF(e, index.Keys)
      modifies this, frame
      ensures index == old(index)
      ensures code == old(code) + CallGen(e, Cx(), old(frame.State())).code
      ensures frame.State() == CallGen(e, Cx(), old(frame.State())).f
      decreases e, 1
    {
      if e.callee.Std? {
        VisitStdCall(e, frame);
      } else {
        VisitUserCall(e, frame);
      }
    }

    /** visitCallExpr for a function of the standard library: the arguments,
        then `invokestatic`. */
    method VisitStdCall(e: Expr, frame: Frame)
      requires e.Call? && e.callee.Std? && WF(e, index.Keys)
      modifies this, frame
      ensures index == old(index)
      ensures code == old(code) + CallGen(e, Cx(), old(frame.State())).code
      ensures frame.State() == CallGen(e, Cx(), old(frame.State())).f
      decreases e, 0
    {
      ghost var c0 := code;
      var fn := e.callee.fn;
      ghost var g := VisitArgs(e.args, frame);
      Emit(InvokeStd(fn));
      Assoc(c0, g.code, [InvokeStd(fn)]);
      if fn == GetInt || fn == GetFloat {
        frame.Push(1);
      } else if fn != PutLn {
        frame.Pop(1);
      }
    }

    /** visitCallExpr for a function of the program: the receiver, the
        arguments, then `invokevirtual` with the callee's descriptor. */
    method VisitUserCall(e: Expr, frame: Frame)
      requires e.Call? && e.callee.User? && WF(e, index.Keys)
      modifies this, frame
      ensures index == old(index)
      ensures code == old(code) + CallGen(e, Cx(), old(frame.State())).code
      ensures frame.State() == CallGen(e, Cx(), old(frame.State())).f
      decreases e, 0
    {
      ghost var c0 := code;
      var name, ps, res := e.callee.name, e.callee.params, e.callee.result;
      var receiver := LoadShort(RefSlot, if frame.main then 1 else 0);
      Emit(receiver);
      frame.Push(1);
      ghost var g := VisitArgs(e.args, frame);
      var retType := JavaType(res);
      var argsTypes, size := ArgsTypes(ps);
      var call := Invokevirtual(classname, name, "(" + argsTypes + ")" + retType);
      Emit(call);
      Assoc3(c0, [receiver], g.code, [call]);
      frame.Pop(size + 1);
      if retType != "V" {
        frame.Push(1);
      }
    }

    /** visitArrayExpr up to the element access: the reference and the
        index. */
    method VisitArrayRef(x: Var, i: Expr, frame: Frame)
      requires VarOk(x, index.Keys) && x.ty.ArrayType? && WF(i, index.Keys) && Produces(i)
      modifies this, frame
      ensures index == old(index)
      ensures code == old(code) + ArrayRefGen(x, i, Cx(), old(frame.State())).code
      ensures frame.State() == ArrayRefGen(x, i, Cx(), old(frame.State())).f
      decreases i, 3
    {
      ghost var c0 := code;
      VisitSimpleVar(x, frame);
      ghost var g := ExprGen(i, Cx(), frame.State());
      VisitExpr(i, frame);
      Assoc(c0, [LoadVar(x, Cx())], g.code);
    }

    /** emitISTORE and emitFSTORE by the type of the assigned value, and the
        store to a global. */
    method EmitStoreVar(x: Var, t: Type)
      requires x.Global? || x.id in index
      modifies this
      ensures index == old(index) && code == old(code) + [StoreVar(x, t, Cx())]
    {
      if x.Global? {
        Emit(Putstatic(classname, x.name, JavaType(x.ty)));
      } else {
        EmitStore(KindOf(t), index[x.id]);
      }
    }

    /** The end of an assignment to a variable: `dup`, then the store. */
    method EmitStoreVarAfterDup(x: Var, t: Type, frame: Frame)
      requires (x.Global? || x.id in index) && 1 <= frame.cur
      modifies this, frame
      ensures index == old(index) && code == old(code) + [Dup, StoreVar(x, t, Cx())]
      ensures frame.State() == Popped(Pushed(old(frame.State()), 1), 1)
    {
      Emit(Dup);
      frame.Push(1);
      EmitStoreVar(x, t);
      frame.Pop(1);
    }

    /** The end of an assignment: the value duplicated (under the array
        reference and index for an element), then stored. */
    method EmitDupStore(dup: Instr, store: Instr, pops: nat, frame: Frame)
      requires pops <= frame.cur + 1
      modifies this, frame
      ensures index == old(index) && code == old(code) + [dup, store]
      ensures frame.State() == Popped(Pushed(old(frame.State()), 1), pops)
    {
      Emit(dup);
      frame.Push(1);
      Emit(store);
      frame.Pop(pops);
    }

    /** visitAssignExpr, leaving the assigned value. */
    method VisitAssign(e: Expr, frame: Frame)
      requires e.Assign? && WF(e, index.Keys)
      modifies this, frame
      ensures index == old(index)
      ensures code == old(code) + AssignGen(e, Cx(), old(frame.State())).code
      ensures frame.State() == AssignGen(e, Cx(), old(frame.State())).f
      decreases e, 1
    {
      ghost var c0, f0 := code, frame.State();
      match e.lhs
      case ArrayExpr(x, i) =>
        assert WF(e.lhs, index.Keys);
        ghost var a := ArrayRefGen(x, i, Cx(), f0);
        VisitArrayRef(x, i, frame);
        ghost var g := ExprGen(e.rhs, Cx(), a.f);
        VisitExpr(e.rhs, frame);
        EmitDupStore(DupX2, ArrayStoreInstr(TypeOf(e.rhs)), 3, frame);
        Assoc3(c0, a.code, g.code, [DupX2, ArrayStoreInstr(TypeOf(e.rhs))]);
      case VarExpr(x) =>
        ghost var g := ExprGen(e.rhs, Cx(), f0);
        VisitExpr(e.rhs, frame);
        EmitStoreVarAfterDup(x, TypeOf(e.rhs), frame);
        Assoc(c0, g.code, [Dup, StoreVar(x, TypeOf(e.rhs), Cx())]);
    }

    /** An expression whose value is not wanted: a single value left on an
        otherwise empty stack is popped. */
    method VisitDiscarded(e: Expr, frame: Frame)
      requires WF(e, index.Keys)
      modifies this, frame
      ensures index == old(index)
      ensures code == old(code) + DiscardGen(e, Cx(), old(frame.State())).code
      ensures frame.State() == DiscardGen(e, Cx(), old(frame.State())).f
    {
      ghost var c0 := code;
      ghost var g := ExprGen(e, Cx(), frame.State());
      VisitExpr(e, frame);
      if frame.cur == 1 {
        Emit(Pop);
        Assoc(c0, g.code, [Pop]);
        frame.Pop(1);
      }
    }

    /** The start of one element of visitInitExpr: the array reference
        duplicated and the element's position. */
    method EmitDupIndex(i: Int32, frame: Frame)
      modifies this, frame
      ensures index == old(index) && code == old(code) + [Dup, IconstInstr(i)]
      ensures frame.State() == Pushed(Pushed(old(frame.State()), 1), 1)
    {
      Emit(Dup);
      frame.Push(1);
      EmitIconst(i);
      frame.Push(1);
    }

    /** visitInitExpr: for each element, the array reference duplicated,
        the element's position, its value and the element store. */
    method VisitInitExpr(es: seq<Expr>, t: Type, frame: Frame)
      requires IsScalar(t) && ElemsOk(es, index.Keys)
      modifies this, frame
      ensures index == old(index)
      ensures code == old(code) + InitGen(es, t, Cx(), old(frame.State())).code
      ensures frame.State() == InitGen(es, t, Cx(), old(frame.State())).f
    {
      ghost var f0 := frame.State();
      var i := 0;
      assert es[..0] == [];
      while i < |es|
        invariant i <= |es| && index == old(index) && ElemsOk(es[..i], index.Keys)
        invariant code == old(code) + InitGen(es[..i], t, Cx(), f0).code
        invariant frame.State() == InitGen(es[..i], t, Cx(), f0).f
      {
        InitStep(es, i, t, Cx(), f0);
        ghost var p := InitGen(es[..i], t, Cx(), f0);
        EmitDupIndex(i, frame);
        ghost var g := ExprGen(es[i], Cx(), frame.State());
        VisitExpr(es[i], frame);
        EmitArrayStore(t, frame);
        Assoc4(old(code), p.code, [Dup, IconstInstr(i)], g.code, [ArrayStoreInstr(t)]);
        i := i + 1;
      }
      assert es[..i] == es;
    }

    // -------------------------------------------------------------------
    // Statements
    // -------------------------------------------------------------------

    method VisitStmt(s: Stmt, frame: Frame) returns (ghost r: SGen)
      requires WFStmt(s, index.Keys, InLoop(frame.State()))
      modifies this, frame
      ensures r == StmtGen(s, classname, old(index), old(frame.State()))
      ensures code == old(code) + r.code && frame.State() == r.f && index == r.index
      decreases s, 2
    {
      match s
      case Compound(_, _) =>
        assert index.Keys + OwnerIds(Nested) == index.Keys;
        r := VisitCompound(s, Nested, frame);
      case EmptyComp =>
        r := SGen([], frame.State(), index);
      case If(_, _, _) =>
        r := VisitIf(s, frame);
      case While(_, _) =>
        r := VisitWhile(s, frame);
      case For(_, _, _, _) =>
        r := VisitFor(s, frame);
      case Break =>
        r := SGen([Goto(frame.brkStack[|frame.brkStack| - 1])], frame.State(), index);
        Emit(Goto(frame.brkStack[|frame.brkStack| - 1]));
      case Continue =>
        r := SGen([Goto(frame.conStack[|frame.conStack| - 1])], frame.State(), index);
        Emit(Goto(frame.conStack[|frame.conStack| - 1]));
      case Return(e) =>
        r := ReturnGen(e, classname, index, frame.State());
        VisitReturn(e, frame);
      case ExprStmt(e) =>
        ghost var g := DiscardGen(e, Cx(), frame.State());
        r := SGen(g.code, g.f, index);
        VisitDiscarded(e, frame);
      case EmptyStmt =>
        r := SGen([], frame.State(), index);
    }

    /** visitStmtList: the statements in order. */
    method VisitStmts(ss: seq<Stmt>, frame: Frame) returns (ghost r: SGen)
      requires forall k :: 0 <= k < |ss| ==> WFStmt(ss[k], index.Keys, InLoop(frame.State()))
      modifies this, frame
      ensures r == StmtsGen(ss, classname, old(index), old(frame.State()))
      ensures code == old(code) + r.code && frame.State() == r.f && index == r.index
      decreases ss
    {
      r := StmtsGen(ss, classname, index, frame.State());
      ghost var inLoop := InLoop(frame.State());
      ghost var rest := r;
      var k := 0;
      assert ss[k..] == ss;
      while k < |ss|
        invariant k <= |ss| && InLoop(frame.State()) == inLoop
        invariant forall j :: k <= j < |ss| ==> WFStmt(ss[j], index.Keys, inLoop)
        invariant rest == StmtsGen(ss[k..], classname, index, frame.State())
        invariant old(code) + r.code == code + rest.code && r.f == rest.f && r.index == rest.index
      {
        ghost var c0, i0, f0 := code, index, frame.State();
        ghost var a := VisitStmt(ss[k], frame);
        rest := StmtsStep(ss, k, classname, i0, f0, a);
        Assoc(c0, a.code, rest.code);
        k := k + 1;
      }
    }

    /** What visitCompoundStmt does for a function body before the
        declarations: main stores a new instance of the class in slot 1,
        any other function visits its parameters. */
    method VisitHeader(owner: Owner, frame: Frame) returns (ghost r: SGen)
      modifies this, frame
      ensures r == HeaderGen(owner, classname, old(index), old(frame.State()))
      ensures code == old(code) + r.code && frame.State() == r.f && index == r.index
    {
      r := HeaderGen(owner, classname, index, frame.State());
      match owner
      case Nested =>
      case FunctionBody(name, ps) =>
        if name == "main" {
          EmitTwo(New(classname), Dup);
          frame.Push(2);
          EmitTwo(InvokeInit(classname), StoreShort(RefSlot, 1));
          frame.Pop(1);
          frame.Pop(1);
        } else {
          VisitParams(ps, frame);
        }
    }

    /** The start of visitCompoundStmt: the scope's two labels, pushed on
        the scope stacks, and the start label placed. */
    method EnterCompound(frame: Frame) returns (scopeStart: nat, scopeEnd: nat)
      modifies this, frame
      ensures scopeStart == old(frame.nextLabel) && scopeEnd == scopeStart + 1
      ensures index == old(index) && code == old(code) + [Label(scopeStart)]
      ensures frame.State() == ScopeFrame(old(frame.State()))
    {
      scopeStart := frame.GetNewLabel();
      scopeEnd := frame.GetNewLabel();
      frame.PushScope(scopeStart, scopeEnd);
      Emit(Label(scopeStart));
    }

    /** The end of visitCompoundStmt: the end label placed, the scope
        stacks popped. */
    method LeaveCompound(scopeEnd: nat, frame: Frame)
      requires frame.scopeStart != [] && frame.scopeEnd != []
      modifies this, frame
      ensures index == old(index) && code == old(code) + [Label(scopeEnd)]
      ensures frame.State() == LeaveScope(old(frame.State()))
    {
      Emit(Label(scopeEnd));
      frame.PopScope();
    }

    /** visitCompoundStmt. */
    method VisitCompound(s: Stmt, owner: Owner, frame: Frame) returns (ghost r: SGen)
      requires s.Compound? && WFStmt(s, index.Keys + OwnerIds(owner), InLoop(frame.State()))
      modifies this, frame
      ensures r == CompoundGen(s, owner, classname, old(index), old(frame.State()))
      ensures code == old(code) + r.code && frame.State() == r.f && index == r.index
      decreases s, 1
    {
      ghost var c0, f0, i0 := code, frame.State(), index;
      var scopeStart, scopeEnd := EnterCompound(frame);
      ghost var c1 := code;
      ghost var h := VisitHeader(owner, frame);
      CompoundDecls(s, owner, classname, i0, f0, h);
      ghost var c2 := code;
      ghost var d := VisitDecls(s.decls, frame);
      CompoundStmts(s, owner, classname, i0, f0, h, d);
      ghost var c3 := code;
      ghost var b := VisitStmts(s.stmts, frame);
      ghost var c4 := code;
      LeaveCompound(scopeEnd, frame);
      CompoundCode(scopeStart, h.code, d.code, b.code, c0, c1, c2, c3, c4, code);
      CompoundResult(s, owner, classname, i0, f0, h, d, b);
      r := SGen(CompoundShape(scopeStart, h.code, d.code, b.code), LeaveScope(b.f), b.index);
    }

    /** The two labels of visitIfStmt. */
    method TwoLabels(frame: Frame) returns (first: nat, second: nat)
      modifies frame
      ensures first == old(frame.nextLabel) && second == first + 1
      ensures frame.State() == WithNewLabel(WithNewLabel(old(frame.State())))
    {
      first := frame.GetNewLabel();
      second := frame.GetNewLabel();
    }

    /** visitIfStmt. */
    method VisitIf(s: Stmt, frame: Frame) returns (ghost r: SGen)
      requires s.If? && WFStmt(s, index.Keys, InLoop(frame.State()))
      modifies this, frame
      ensures r == IfGen(s, classname, old(index), old(frame.State()))
      ensures code == old(code) + r.code && frame.State() == r.f && index == r.index
      decreases s, 1
    {
      ghost var c0, f0, i0 := code, frame.State(), index;
      var elseLabel, nextLabel := TwoLabels(frame);
      ghost var g := VisitCondJump(s.cond, elseLabel, frame);
      ghost var c1 := code;
      ghost var a := VisitStmt(s.thn, frame);
      ghost var c2 := code;
      EmitTwo(Goto(nextLabel), Label(elseLabel));
      ghost var c3 := code;
      IfElse(s, classname, i0, f0, g, a);
      ghost var b := VisitStmt(s.els, frame);
      ghost var c4 := code;
      Emit(Label(nextLabel));
      IfCode(elseLabel, g.code, a.code, b.code, c0, c1, c2, c3, c4, code);
      IfResult(s, classname, i0, f0, g, a, b);
      r := SGen(IfShape(elseLabel, g.code, a.code, b.code), b.f, b.index);
    }

    /** The condition of `if` and `while`, and the jump taken when it is
        false. */
    method VisitCondJump(e: Expr, target: nat, frame: Frame) returns (ghost g: Gen)
      requires WF(e, index.Keys) && Produces(e)
      modifies this, frame
      ensures index == old(index) && g == ExprGen(e, Cx(), old(frame.State()))
      ensures code == old(code) + ExprGen(e, Cx(), old(frame.State())).code + [IfZ(EQ, target)]
      ensures frame.State() == Popped(ExprGen(e, Cx(), old(frame.State())).f, 1)
    {
      g := ExprGen(e, Cx(), frame.State());
      VisitExpr(e, frame);
      Emit(IfZ(EQ, target));
      frame.Pop(1);
    }

    /** The start of visitWhileStmt: the continue and break labels, pushed
        on the loop stacks, and the continue label placed. */
    method EnterWhile(frame: Frame) returns (continueLabel: nat, brkLabel: nat)
      modifies this, frame
      ensures continueLabel == old(frame.nextLabel) && brkLabel == continueLabel + 1
      ensures index == old(index) && code == old(code) + [Label(continueLabel)]
      ensures frame.State() == WhileFrame(old(frame.State()))
    {
      continueLabel := frame.GetNewLabel();
      brkLabel := frame.GetNewLabel();
      frame.PushLoop(brkLabel, continueLabel);
      Emit(Label(continueLabel));
    }

    /** The end of a loop: the jump back, the break label, the loop stacks
        popped. */
    method LeaveLoopBody(back: nat, brkLabel: nat, frame: Frame)
      requires frame.brkStack != [] && frame.conStack != []
      modifies this, frame
      ensures index == old(index) && code == old(code) + [Goto(back), Label(brkLabel)]
      ensures frame.State() == LeaveLoop(old(frame.State()))
    {
      EmitTwo(Goto(back), Label(brkLabel));
      frame.PopLoop();
    }

    /** visitWhileStmt. */
    method VisitWhile(s: Stmt, frame: Frame) returns (ghost r: SGen)
      requires s.While? && WFStmt(s, index.Keys, InLoop(frame.State()))
      modifies this, frame
      ensures r == WhileGen(s, classname, old(index), old(frame.State()))
      ensures code == old(code) + r.code && frame.State() == r.f && index == r.index
      decreases s, 1
    {
      ghost var c0, f0, i0 := code, frame.State(), index;
      var continueLabel, brkLabel := EnterWhile(frame);
      ghost var c1 := code;
      ghost var g := VisitCondJump(s.cond, brkLabel, frame);
      ghost var c2 := code;
      ghost var b := VisitStmt(s.body, frame);
      ghost var c3 := code;
      LeaveLoopBody(continueLabel, brkLabel, frame);
      WhileCode(continueLabel, g.code, b.code, c0, c1, c2, c3, code);
      WhileResult(s, classname, i0, f0, g, b);
      r := SGen(WhileShape(continueLabel, g.code, b.code), LeaveLoop(b.f), b.index);
    }

    /** The test of visitForStmt: an absent test is the constant 1. */
    method VisitTest(e: Expr, frame: Frame)
      requires e == EmptyExpr || (WF(e, index.Keys) && Produces(e))
      modifies this, frame
      ensures index == old(index)
      ensures code == old(code) + TestGen(e, Cx(), old(frame.State())).code
      ensures frame.State() == TestGen(e, Cx(), old(frame.State())).f
    {
      if e == EmptyExpr {
        EmitIconst(1);
        frame.Push(1);
      } else {
        VisitExpr(e, frame);
      }
    }

    /** The start of visitForStmt: the start, continue and break labels,
        the last two pushed on the loop stacks. */
    method EnterFor(frame: Frame) returns (startLabel: nat, continueLabel: nat, brkLabel: nat)
      modifies frame
      ensures startLabel == old(frame.nextLabel) && continueLabel == startLabel + 1
      ensures brkLabel == startLabel + 2
      ensures frame.State() == ForFrame(old(frame.State()))
    {
      startLabel := frame.GetNewLabel();
      continueLabel := frame.GetNewLabel();
      brkLabel := frame.GetNewLabel();
      frame.PushLoop(brkLabel, continueLabel);
    }

    /** The first and third clauses of visitForStmt: the initialiser, the
        jump to the test, the continue label, the step, the start label. */
    method VisitForClauses(init: Expr, step: Expr, startLabel: nat, continueLabel: nat, frame: Frame)
      returns (ghost g1: Gen, ghost g3: Gen)
      requires WF(init, index.Keys) && WF(step, index.Keys)
      modifies this, frame
      ensures index == old(index)
      ensures g1 == DiscardGen(init, Cx(), old(frame.State())) && g3 == DiscardGen(step, Cx(), g1.f)
      ensures code == old(code) + g1.code + [Goto(startLabel), Label(continueLabel)] + g3.code + [Label(startLabel)]
      ensures frame.State() == g3.f
    {
      g1 := DiscardGen(init, Cx(), frame.State());
      g3 := DiscardGen(step, Cx(), g1.f);
      VisitDiscarded(init, frame);
      EmitTwo(Goto(startLabel), Label(continueLabel));
      VisitDiscarded(step, frame);
      Emit(Label(startLabel));
    }

    /** The test of visitForStmt and the jump to the break label. */
    method VisitTestJump(e: Expr, brkLabel: nat, frame: Frame) returns (ghost g: Gen)
      requires e == EmptyExpr || (WF(e, index.Keys) && Produces(e))
      modifies this, frame
      ensures index == old(index) && g == TestGen(e, Cx(), old(frame.State()))
      ensures code == old(code) + TestGen(e, Cx(), old(frame.State())).code + [IfZ(EQ, brkLabel)]
      ensures frame.State() == Popped(TestGen(e, Cx(), old(frame.State())).f, 1)
    {
      g := TestGen(e, Cx(), frame.State());
      VisitTest(e, frame);
      Emit(IfZ(EQ, brkLabel));
      frame.Pop(1);
    }

    /** visitForStmt. */
    method VisitFor(s: Stmt, frame: Frame) returns (ghost r: SGen)
      requires s.For? && WFStmt(s, index.Keys, InLoop(frame.State()))
      modifies this, frame
      ensures r == ForGen(s, classname, old(index), old(frame.State()))
      ensures code == old(code) + r.code && frame.State() == r.f && index == r.index
      decreases s, 1
    {
      ghost var c0, f0, i0 := code, frame.State(), index;
      var startLabel, continueLabel, brkLabel := EnterFor(frame);
      ghost var g1, g3 := VisitForClauses(s.init, s.step, startLabel, continueLabel, frame);
      ghost var c1 := code;
      ghost var g2 := VisitTestJump(s.test, brkLabel, frame);
      ghost var c2 := code;
      ghost var b := VisitStmt(s.body, frame);
      ghost var c3 := code;
      LeaveLoopBody(continueLabel, brkLabel, frame);
      ForCode(startLabel, g1.code, g3.code, g2.code, b.code, c0, c1, c2, c3, code);
      ForResult(s, classname, i0, f0, g1, g3, g2, b);
      r := SGen(ForShape(startLabel, g1.code, g3.code, g2.code, b.code), LeaveLoop(b.f), b.index);
    }

    /** visitReturnStmt, with `return;` outside main emitting `return`. */
    method VisitReturn(e: Expr, frame: Frame)
      requires WF(e, index.Keys) && (e == EmptyExpr || IsScalar(TypeOf(e)))
      modifies this, frame
      ensures code == old(code) + ReturnGen(e, classname, old(index), old(frame.State())).code
      ensures frame.State() == ReturnGen(e, classname, old(index), old(frame.State())).f
      ensures index == old(index)
    {
      if frame.main {
        Emit(ReturnVoid);
      } else {
        VisitReturnValue(e, frame);
      }
    }

    /** visitReturnStmt outside main: the value, then the return instruction
        its type selects. */
    method VisitReturnValue(e: Expr, frame: Frame)
      requires WF(e, index.Keys) && (e == EmptyExpr || IsScalar(TypeOf(e))) && !frame.main
      modifies this, frame
      ensures code == old(code) + ReturnGen(e, classname, old(index), old(frame.State())).code
      ensures frame.State() == ReturnGen(e, classname, old(index), old(frame.State())).f
      ensures index == old(index)
    {
      ghost var c0 := code;
      ghost var g := ExprGen(e, Cx(), frame.State());
      VisitExpr(e, frame);
      var t := TypeOf(e);
      if t == IntType || t == BooleanType {
        Emit(Ireturn);
        frame.Pop(1);
        Assoc(c0, g.code, [Ireturn]);
      } else if t == FloatType {
        Emit(Freturn);
        frame.Pop(1);
        Assoc(c0, g.code, [Freturn]);
      } else {
        Emit(ReturnVoid);
        Assoc(c0, g.code, [ReturnVoid]);
      }
    }

    // -------------------------------------------------------------------
    // Declarations
    // -------------------------------------------------------------------

    /** visitParaList: each parameter takes the next slot. */
    method VisitParams(ps: seq<Param>, frame: Frame)
      modifies this, frame
      ensures code == old(code)
      ensures frame.State() == ParamsGen(ps, old(index), old(frame.State())).f
      ensures index == ParamsGen(ps, old(index), old(frame.State())).index
    {
      ghost var whole := ParamsGen(ps, index, frame.State());
      var k := 0;
      while k < |ps|
        invariant k <= |ps| && code == old(code)
        invariant whole == ParamsGen(ps[k..], index, frame.State())
      {
        assert ps[k..][0] == ps[k] && ps[k..][1..] == ps[k + 1..];
        var slot := frame.GetNewIndex();
        index := index[ps[k].id := slot];
        k := k + 1;
      }
    }

    /** The array allocation of visitLocalVarDecl and of the static
        initialiser: the length, then `newarray`. */
    method EmitNewArray(size: Int32, elem: Type, frame: Frame)
      modifies this, frame
      ensures index == old(index) && code == old(code) + [IconstInstr(size), Newarray(elem)]
      ensures frame.State() == Pushed(old(frame.State()), 1)
    {
      EmitIconst(size);
      frame.Push(1);
      Emit(Newarray(elem));
    }

    /** visitLocalVarDecl. */
    method VisitLocalDecl(d: LocalDecl, frame: Frame)
      requires DeclOk(d, index.Keys + {d.id})
      modifies this, frame
      ensures code == old(code) + LocalDeclGen(d, classname, old(index), old(frame.State())).code
      ensures frame.State() == LocalDeclGen(d, classname, old(index), old(frame.State())).f
      ensures index == LocalDeclGen(d, classname, old(index), old(frame.State())).index
    {
      ghost var c0 := code;
      var slot := frame.GetNewIndex();
      index := index[d.id := slot];
      assert index.Keys == old(index).Keys + {d.id};
      if d.ty.ArrayType? {
        EmitNewArray(d.size, d.ty.elem, frame);
        ghost var g := if d.init.ArrayInit? then InitGen(d.init.elems, d.ty.elem, Cx(), frame.State())
                       else Gen([], frame.State());
        if d.init.ArrayInit? {
          VisitInitExpr(d.init.elems, d.ty.elem, frame);
        }
        EmitStore(RefSlot, slot);
        frame.Pop(1);
        Assoc3(c0, [IconstInstr(d.size), Newarray(d.ty.elem)], g.code, [StoreInstr(RefSlot, slot)]);
      } else if d.init.ExprInit? {
        ghost var g := ExprGen(d.init.e, Cx(), frame.State());
        VisitExpr(d.init.e, frame);
        EmitStore(KindOf(d.ty), slot);
        frame.Pop(1);
        Assoc(c0, g.code, [StoreInstr(KindOf(d.ty), slot)]);
      }
    }

    /** visitDeclList over a compound statement's declarations. */
    method VisitDecls(ds: seq<LocalDecl>, frame: Frame) returns (ghost r: SGen)
      requires DeclsOk(ds, index.Keys)
      modifies this, frame
      ensures r == DeclsGen(ds, classname, old(index), old(frame.State()))
      ensures code == old(code) + r.code && frame.State() == r.f && index == r.index
    {
      r := DeclsGen(ds, classname, index, frame.State());
      var k := 0;
      while k < |ds|
        invariant k <= |ds| && DeclsOk(ds[k..], index.Keys)
        invariant old(code) + r.code == code + DeclsGen(ds[k..], classname, index, frame.State()).code
        invariant r.f == DeclsGen(ds[k..], classname, index, frame.State()).f
        invariant r.index == DeclsGen(ds[k..], classname, index, frame.State()).index
      {
        assert ds[k..][0] == ds[k] && ds[k..][1..] == ds[k + 1..];
        ghost var c0, i0 := code, index;
        ghost var a := LocalDeclGen(ds[k], classname, index, frame.State());
        VisitLocalDecl(ds[k], frame);
        assert index.Keys == i0.Keys + {ds[k].id};
        ghost var b := DeclsGen(ds[k + 1..], classname, index, frame.State());
        Assoc(c0, a.code, b.code);
        k := k + 1;
      }
    }


    // -------------------------------------------------------------------
    // Functions and the program
    // -------------------------------------------------------------------

    /** The end of a method: the closing instruction, the `.limit locals`
        taken from the frame's next free slot, the `.limit stack` from its
        maximum depth, the end directive. */
    method EmitMethodEnd(tail: Instr, frame: Frame)
      modifies this, frame
      ensures index == old(index) && frame.State() == WithNewIndex(old(frame.State()))
      ensures code == old(code) + [tail, LimitLocals(old(frame.nextIndex)), LimitStack(old(frame.max)), MethodEnd]
    {
      Emit(tail);
      var locals := frame.GetNewIndex();
      EmitTwo(LimitLocals(locals), LimitStack(frame.max));
      Emit(MethodEnd);
    }

    /** The frame of visitFuncDecl before the body: main reserves slots 0
        and 1, any other function slot 0. */
    method NewFuncFrame(isMain: bool) returns (frame: Frame)
      ensures fresh(frame) && frame.State() == EntryFrame(isMain)
    {
      frame := new Frame(isMain);
      var thisSlot := frame.GetNewIndex();
      if isMain {
        var instanceSlot := frame.GetNewIndex();
      }
    }

    /** The Jasmin header of visitFuncDecl; the descriptor of a function
        other than main is built from its parameters' types in order. */
    method FuncHeader(fd: FuncDecl) returns (header: string)
      ensures header == MethodHeader(fd)
    {
      if fd.name == "main" {
        header := "public static main([Ljava/lang/String;)V";
      } else {
        var retType := JavaType(fd.result);
        var argsTypes, count := ArgsTypes(ParamTypes(fd.params));
        header := fd.name + "(" + argsTypes + ")" + retType;
      }
    }

    /** The body of a function in the frame made for it; an empty body
        emits nothing. */
    method VisitBody(fd: FuncDecl, frame: Frame) returns (ghost b: SGen)
      requires FuncOk(fd) && frame.State() == EntryFrame(fd.name == "main")
      modifies this, frame
      ensures b == BodyGen(fd, classname, old(index))
      ensures code == old(code) + b.code && frame.State() == b.f && index == b.index
    {
      BodyOk(fd, index.Keys);
      b := SGen([], frame.State(), index);
      if fd.body.Compound? {
        b := VisitCompound(fd.body, FunctionBody(fd.name, fd.params), frame);
      }
    }

    /** visitFuncDecl: a fresh frame, the header, the body, the closing
        instruction and the limits. */
    method VisitFuncDecl(fd: FuncDecl) returns (ghost r: FGen)
      requires FuncOk(fd)
      modifies this
      ensures r == FuncGen(fd, classname, old(index))
      ensures code == old(code) + r.code && index == r.index
    {
      ghost var c0, i0 := code, index;
      var isMain := fd.name == "main";
      var frame := NewFuncFrame(isMain);
      var header := FuncHeader(fd);
      Emit(MethodStart(header));
      ghost var c1 := code;
      ghost var b := VisitBody(fd, frame);
      ghost var c2 := code;
      var tail := if fd.result == VoidType then ReturnVoid else if isMain then ReturnVoid else Nop;
      EmitMethodEnd(tail, frame);
      MethodCodeOf(header, b.code, tail, b.f, c0, c1, c2, code);
      r := FGen(MethodCode(header, b.code, tail, b.f), b.index);
    }

    /** The first subpass of visitProgram: a `.field` for each global. */
    method VisitFields(ds: seq<Decl>)
      modifies this
      ensures index == old(index) && code == old(code) + FieldsGen(ds)
    {
      var k := 0;
      assert ds[..k] == [];
      while k < |ds|
        invariant k <= |ds| && index == old(index)
        invariant code == old(code) + FieldsGen(ds[..k])
      {
        assert ds[..k + 1][..k] == ds[..k];
        if ds[k].GlobalVar? {
          Emit(FieldDirective(ds[k].name, Descriptor(ds[k].ty)));
        }
        k := k + 1;
      }
      assert ds[..k] == ds;
    }

    /** The initialisation of one global in `<clinit>`. */
    method VisitGlobalInit(d: Decl, frame: Frame) returns (ghost r: Gen)
      requires d.GlobalVar? && GlobalOk(d)
      modifies this, frame
      ensures index == old(index) && r == GlobalInitGen(d, Cx(), old(frame.State()))
      ensures code == old(code) + r.code && frame.State() == r.f
    {
      ghost var c0, f0 := code, frame.State();
      if d.ty.ArrayType? {
        EmitNewArray(d.size, d.ty.elem, frame);
        if d.init.ArrayInit? {
          ElemsMono(d.init.elems, {}, index.Keys);
        }
        ghost var g := if d.init.ArrayInit? then InitGen(d.init.elems, d.ty.elem, Cx(), frame.State())
                       else Gen([], frame.State());
        if d.init.ArrayInit? {
          VisitInitExpr(d.init.elems, d.ty.elem, frame);
        }
        var put := Putstatic(classname, d.name, Descriptor(d.ty));
        Emit(put);
        frame.Pop(1);
        Assoc3(c0, [IconstInstr(d.size), Newarray(d.ty.elem)], g.code, [put]);
        r := Gen([IconstInstr(d.size), Newarray(d.ty.elem)] + g.code + [put], frame.State());
      } else {
        if d.init.ExprInit? {
          WFMono(d.init.e, {}, index.Keys);
        }
        ghost var g := if d.init.ExprInit? then ExprGen(d.init.e, Cx(), f0)
                       else Gen([if d.ty == FloatType then Fconst0 else Iconst(0)], Pushed(f0, 1));
        if d.init.ExprInit? {
          VisitExpr(d.init.e, frame);
        } else {
          Emit(if d.ty == FloatType then Fconst0 else Iconst(0));
          frame.Push(1);
        }
        var put := Putstatic(classname, d.name, JavaType(d.ty));
        Emit(put);
        frame.Pop(1);
        Assoc(c0, g.code, [put]);
        r := Gen(g.code + [put], frame.State());
      }
    }

    /** The second subpass of visitProgram: `<clinit>`, which initialises
        the globals in order with a frame of its own. */
    method VisitClinit(ds: seq<Decl>)
      requires forall k :: 0 <= k < |ds| ==> ds[k].GlobalVar? ==> GlobalOk(ds[k])
      modifies this
      ensures index == old(index) && code == old(code) + ClinitMethod(ds, Cx())
    {
      ghost var c0 := code;
      Emit(MethodStart("static <clinit>()V"));
      ghost var c1 := code;
      var frame := new Frame(false);
      var k := 0;
      assert ds[..k] == [];
      while k < |ds|
        invariant k <= |ds| && index == old(index)
        invariant code == c1 + ClinitGen(ds[..k], Cx(), NewFrame(false)).code
        invariant frame.State() == ClinitGen(ds[..k], Cx(), NewFrame(false)).f
      {
        ClinitStep(ds, k, Cx(), NewFrame(false));
        ghost var p := ClinitGen(ds[..k], Cx(), NewFrame(false));
        if ds[k].GlobalVar? {
          ghost var g := VisitGlobalInit(ds[k], frame);
          Assoc(c1, p.code, g.code);
        }
        k := k + 1;
      }
      assert ds[..k] == ds;
      ghost var c2 := code;
      var locals := frame.GetNewIndex();
      EmitTwo(LimitLocals(locals), LimitStack(frame.max));
      EmitTwo(ReturnVoid, MethodEnd);
      ClinitCode(ds, Cx(), c0, c1, c2, code);
    }

    /** The default constructor `<init>`. */
    method EmitInitMethod()
      modifies this
      ensures index == old(index) && code == old(code) + InitMethod
    {
      EmitTwo(MethodStart("public <init>()V"), LimitStack(1));
      EmitTwo(LimitLocals(1), LoadShort(RefSlot, 0));
      EmitTwo(InvokeObjectInit, ReturnVoid);
      Emit(MethodEnd);
    }

    /** One declaration of the third subpass of visitProgram: a function is
        translated, a variable skipped. */
    method VisitFuncOf(d: Decl) returns (ghost a: FGen)
      requires d.Func? ==> FuncOk(d.f)
      modifies this
      ensures a == if d.Func? then FuncGen(d.f, classname, old(index)) else FGen([], old(index))
      ensures code == old(code) + a.code && index == a.index
    {
      a := FGen([], index);
      if d.Func? {
        a := VisitFuncDecl(d.f);
      }
    }

    /** The third subpass of visitProgram: visitDeclList translating each
        function in order. */
    method VisitFuncs(ds: seq<Decl>) returns (ghost r: FGen)
      requires forall k :: 0 <= k < |ds| ==> ds[k].Func? ==> FuncOk(ds[k].f)
      modifies this
      ensures r == FuncsGen(ds, classname, old(index))
      ensures code == old(code) + r.code && index == r.index
    {
      r := FuncsGen(ds, classname, index);
      ghost var rest := r;
      var k := 0;
      assert ds[k..] == ds;
      while k < |ds|
        invariant k <= |ds|
        invariant rest == FuncsGen(ds[k..], classname, index)
        invariant old(code) + r.code == code + rest.code && r.index == rest.index
      {
        ghost var c0, i0 := code, index;
        ghost var a := VisitFuncOf(ds[k]);
        rest := FuncsStep(ds, k, classname, i0, a);
        Assoc(c0, a.code, rest.code);
        k := k + 1;
      }
    }

    /** visitProgram: the class header, the fields, `<clinit>`, `<init>`
        and the functions. */
    method VisitProgram(p: Program) returns (ghost r: FGen)
      requires ProgramOk(p)
      modifies this
      ensures r == ProgramGen(p, classname, old(index))
      ensures code == old(code) + r.code && index == r.index
    {
      ghost var c0, i0 := code, index;
      EmitTwo(ClassDirective(classname), SuperDirective("java/lang/Object"));
      ghost var c1 := code;
      VisitFields(p.decls);
      ghost var c2 := code;
      VisitClinit(p.decls);
      ghost var c3 := code;
      EmitInitMethod();
      ghost var c4 := code;
      ghost var funcs := VisitFuncs(p.decls);
      ProgramCode(p, classname, i0, funcs, c0, c1, c2, c3, c4, code);
      r := FGen(code[|c0|..], funcs.index);
    }
  }
}
