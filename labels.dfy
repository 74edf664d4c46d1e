/** Label discipline of the generated code: each generator defines exactly
    the labels it takes from the frame, each of them once, and every jump
    it emits targets one of those labels or the break or continue label of
    the innermost enclosing loop; a loop's own code jumps nowhere else. For a whole method this means every jump lands on a
    label the method defines exactly once. */
module Labels {
  import opened Syntax
  import opened Jvm
  import opened Select
  import opened Frames
  import opened Translate

  predicate IsJump(i: Instr) {
    i.IfIcmp? || i.IfZ? || i.Goto?
  }

  /** How many times `code` defines label `x`. */
  function Count(code: seq<Instr>, x: nat): (n: nat)
    ensures n <= |code|
  {
    if code == [] then 0
    else (if code[0].Label? && code[0].l == x then 1 else 0) + Count(code[1..], x)
  }

  /** The targets of the jumps of `code`, in order. */
  function Targets(code: seq<Instr>): (r: seq<nat>)
    ensures |r| <= |code|
  {
    if code == [] then []
    else (if IsJump(code[0]) then [code[0].target] else []) + Targets(code[1..])
  }

  /** `code` defines exactly the labels [lo, hi), each of them once. */
  ghost predicate Block(code: seq<Instr>, lo: nat, hi: nat) {
    lo <= hi && forall x: nat :: Count(code, x) == if lo <= x < hi then 1 else 0
  }

  /** Every jump of `code` targets [lo, hi) or one of `out`. */
  predicate Jumps(code: seq<Instr>, lo: nat, hi: nat, out: seq<nat>) {
    forall t :: t in Targets(code) ==> lo <= t < hi || t in out
  }

  /** What the lemmas below establish for the code a generator appends,
      starting at label `lo`, handing out labels up to `hi`. */
  ghost predicate Labelled(code: seq<Instr>, lo: nat, hi: nat, out: seq<nat>) {
    Block(code, lo, hi) && Jumps(code, lo, hi, out)
  }

  // ---------------------------------------------------------------------
  // The two functions above
  // ---------------------------------------------------------------------

  lemma {:induction false} CatCount(a: seq<Instr>, b: seq<Instr>, x: nat)
    ensures Count(a + b, x) == Count(a, x) + Count(b, x)
  {
    if a != [] {
      assert (a + b)[1..] == a[1..] + b;
      CatCount(a[1..], b, x);
    } else {
      assert a + b == b;
    }
  }

  lemma {:induction false} CatTargets(a: seq<Instr>, b: seq<Instr>)
    ensures Targets(a + b) == Targets(a) + Targets(b)
  {
    if a != [] {
      assert (a + b)[1..] == a[1..] + b;
      CatTargets(a[1..], b);
    } else {
      assert a + b == b;
    }
  }

  /** A label is defined at least once exactly when it occurs. */
  lemma {:induction false} CountMember(code: seq<Instr>, x: nat)
    ensures Count(code, x) > 0 <==> Label(x) in code
  {
    if code != [] {
      CountMember(code[1..], x);
      assert code == [code[0]] + code[1..];
    }
  }

  /** `Targets` lists exactly the targets of the jumps in the code. */
  lemma {:induction false} TargetsMember(code: seq<Instr>, x: nat)
    ensures x in Targets(code) <==> exists i :: 0 <= i < |code| && IsJump(code[i]) && code[i].target == x
  {
    if code != [] {
      TargetsMember(code[1..], x);
      if x in Targets(code[1..]) {
        var i :| 0 <= i < |code[1..]| && IsJump(code[1..][i]) && code[1..][i].target == x;
        assert code[i + 1] == code[1..][i];
      }
      forall i | 1 <= i < |code| && IsJump(code[i]) && code[i].target == x
        ensures x in Targets(code[1..])
      {
        assert code[1..][i - 1] == code[i];
      }
    }
  }

  lemma One(i: Instr)
    ensures Targets([i]) == if IsJump(i) then [i.target] else []
  {
    assert [i][1..] == [];
  }

  lemma Pair(a: Instr, b: Instr)
    ensures [a, b] == [a] + [b]
  {
  }

  lemma OneCount(i: Instr, x: nat)
    ensures Count([i], x) == if i.Label? && i.l == x then 1 else 0
  {
    assert [i][1..] == [];
  }

  // ---------------------------------------------------------------------
  // Joining pieces
  // ---------------------------------------------------------------------

  lemma Cat(a: seq<Instr>, b: seq<Instr>, lo: nat, mid: nat, hi: nat, jlo: nat, jhi: nat, out: seq<nat>)
    requires Block(a, lo, mid) && Block(b, mid, hi)
    requires Jumps(a, jlo, jhi, out) && Jumps(b, jlo, jhi, out)
    ensures Block(a + b, lo, hi) && Jumps(a + b, jlo, jhi, out)
  {
    CatTargets(a, b);
    forall x: nat ensures Count(a + b, x) == if lo <= x < hi then 1 else 0 {
      CatCount(a, b, x);
    }
  }

  lemma CatSwap(a: seq<Instr>, b: seq<Instr>, lo: nat, mid: nat, hi: nat, jlo: nat, jhi: nat, out: seq<nat>)
    requires Block(a, mid, hi) && Block(b, lo, mid)
    requires Jumps(a, jlo, jhi, out) && Jumps(b, jlo, jhi, out)
    ensures Block(a + b, lo, hi) && Jumps(a + b, jlo, jhi, out)
  {
    CatTargets(a, b);
    forall x: nat ensures Count(a + b, x) == if lo <= x < hi then 1 else 0 {
      CatCount(a, b, x);
    }
  }

  /** Two pieces one after the other, the second taking its labels where
      the first stopped. */
  lemma Join(a: seq<Instr>, b: seq<Instr>, lo: nat, mid: nat, hi: nat, out: seq<nat>)
    requires Labelled(a, lo, mid, out) && Labelled(b, mid, hi, out)
    ensures Labelled(a + b, lo, hi, out)
  {
    Cat(a, b, lo, mid, hi, lo, hi, out);
  }

  /** Two pieces joined by a jump. */
  lemma Bridge(a: seq<Instr>, j: Instr, b: seq<Instr>, lo: nat, mid: nat, hi: nat, jlo: nat, jhi: nat, out: seq<nat>)
    requires Block(a, lo, mid) && Block(b, mid, hi)
    requires Jumps(a, jlo, jhi, out) && Jumps(b, jlo, jhi, out)
    requires IsJump(j) && (jlo <= j.target < jhi || j.target in out)
    ensures Block(a + [j] + b, lo, hi) && Jumps(a + [j] + b, jlo, jhi, out)
  {
    One(j);
    forall x: nat ensures Count([j], x) == 0 {
      OneCount(j, x);
    }
    Cat(a, [j], lo, mid, mid, jlo, jhi, out);
    Cat(a + [j], b, lo, mid, hi, jlo, jhi, out);
  }

  /** Allowing more targets keeps the jumps allowed. */
  lemma Widen(code: seq<Instr>, lo: nat, hi: nat, out: seq<nat>, jlo: nat, jhi: nat, out2: seq<nat>)
    requires Jumps(code, lo, hi, out)
    requires jlo <= lo && hi <= jhi
    requires forall x :: x in out ==> x in out2 || jlo <= x < jhi
    ensures Jumps(code, jlo, jhi, out2)
  {
  }

  lemma JumpsCat(a: seq<Instr>, b: seq<Instr>, lo: nat, hi: nat, out: seq<nat>)
    requires Jumps(a, lo, hi, out) && Jumps(b, lo, hi, out)
    ensures Jumps(a + b, lo, hi, out)
  {
    CatTargets(a, b);
  }

  lemma JumpsOne(i: Instr, lo: nat, hi: nat, out: seq<nat>)
    requires IsJump(i) ==> lo <= i.target < hi || i.target in out
    ensures Jumps([i], lo, hi, out)
  {
    One(i);
  }

  /** Where the code of a statement may jump outside itself: the break and
      the continue label of the innermost enclosing loop, if there is one. */
  function Exits(f: FrameState): seq<nat> {
    if InLoop(f) then [f.brk[|f.brk| - 1], f.con[|f.con| - 1]] else []
  }

  /** Code with neither labels nor jumps. */
  predicate Plain(code: seq<Instr>) {
    forall i :: 0 <= i < |code| ==> !code[i].Label? && !IsJump(code[i])
  }

  lemma {:induction false} PlainLabelled(code: seq<Instr>, x: nat, jlo: nat, jhi: nat, out: seq<nat>)
    requires Plain(code)
    ensures Block(code, x, x) && Jumps(code, jlo, jhi, out)
  {
    if code != [] {
      PlainLabelled(code[1..], x, jlo, jhi, out);
    }
  }

  /** A piece between instructions with neither labels nor jumps. */
  lemma Wrap(pre: seq<Instr>, mid: seq<Instr>, post: seq<Instr>, lo: nat, hi: nat, out: seq<nat>)
    requires Plain(pre) && Plain(post) && Labelled(mid, lo, hi, out)
    ensures Labelled(pre + mid + post, lo, hi, out)
    ensures Labelled(pre + mid, lo, hi, out) && Labelled(mid + post, lo, hi, out)
  {
    PlainLabelled(pre, lo, lo, hi, out);
    PlainLabelled(post, hi, lo, hi, out);
    Cat(pre, mid, lo, lo, hi, lo, hi, out);
    Cat(mid, post, lo, hi, hi, lo, hi, out);
    Cat(pre + mid, post, lo, hi, hi, lo, hi, out);
  }

  /** The shape shared by comparisons and short circuits: a jump, a value,
      a jump over the alternative, the first label, the alternative value,
      the second label. */
  lemma DiamondLabelled(j: Instr, a: Instr, b: Instr, s: nat, hi: nat)
    requires IsJump(j) && j.target == s && Plain([a]) && Plain([b]) && s + 2 <= hi
    ensures Labelled([j, a, Goto(s + 1), Label(s), b, Label(s + 1)], s, s + 2, [])
    ensures Jumps([j, a, Goto(s + 1), Label(s), b, Label(s + 1)], s, hi, [])
  {
    var t := [j, a, Goto(s + 1), Label(s), b, Label(s + 1)];
    var p1 := [j] + [a] + [Goto(s + 1)];
    var p2 := p1 + [Label(s)] + [b];
    assert t == p2 + [Label(s + 1)];
    One(j); One(a); One(Goto(s + 1)); One(Label(s)); One(b); One(Label(s + 1));
    CatTargets([j], [a]);
    CatTargets([j] + [a], [Goto(s + 1)]);
    CatTargets(p1, [Label(s)]);
    CatTargets(p1 + [Label(s)], [b]);
    CatTargets(p2, [Label(s + 1)]);
    forall x: nat ensures Count(t, x) == if s <= x < s + 2 then 1 else 0 {
      OneCount(j, x); OneCount(a, x); OneCount(Goto(s + 1), x);
      OneCount(Label(s), x); OneCount(b, x); OneCount(Label(s + 1), x);
      CatCount([j], [a], x);
      CatCount([j] + [a], [Goto(s + 1)], x);
      CatCount(p1, [Label(s)], x);
      CatCount(p1 + [Label(s)], [b], x);
      CatCount(p2, [Label(s + 1)], x);
    }
  }

  // ---------------------------------------------------------------------
  // Expressions
  // ---------------------------------------------------------------------

  lemma CompareLabelled(c: Cond, f: FrameState, isFloat: bool)
    requires 2 <= f.cur
    ensures var r := if isFloat then FloatCompare(c, f) else IntCompare(c, f);
      r.f.nextLabel == f.nextLabel + 2 && Labelled(r.code, f.nextLabel, r.f.nextLabel, [])
  {
    var t := f.nextLabel;
    var d := [IfIcmp(c, t), Iconst(0), Goto(t + 1), Label(t), Iconst(1), Label(t + 1)];
    DiamondLabelled(IfIcmp(c, t), Iconst(0), Iconst(1), t, t + 2);
    var j := IfZ(c, t);
    var e := [j, Iconst(0), Goto(t + 1), Label(t), Iconst(1), Label(t + 1)];
    DiamondLabelled(j, Iconst(0), Iconst(1), t, t + 2);
    PlainLabelled([Fcmpg], t, t, t + 2, []);
    Cat([Fcmpg], e, t, t, t + 2, t, t + 2, []);
    assert FloatCompare(c, f).code == [Fcmpg] + e;
  }

  lemma {:induction false} ExprLabels(e: Expr, cx: Ctx, f: FrameState)
    requires WF(e, cx.index.Keys)
    ensures Labelled(ExprGen(e, cx, f).code, f.nextLabel, ExprGen(e, cx, f).f.nextLabel, [])
    decreases e, 2
  {
    match e
    case IntLit(v) => PlainLabelled(ExprGen(e, cx, f).code, f.nextLabel, f.nextLabel, f.nextLabel, []);
    case FloatLit(_) =>
    case BoolLit(_) =>
    case StringLit(_) =>
    case VarExpr(x) => PlainLabelled([LoadVar(x, cx)], f.nextLabel, f.nextLabel, f.nextLabel, []);
    case Unary(_, _) => UnaryLabels(e, cx, f);
    case Binary(_, _, _) => BinaryLabels(e, cx, f);
    case Call(_, _) => CallLabels(e, cx, f);
    case ArrayExpr(x, i) =>
      var g := ArrayRefGen(x, i, cx, f);
      ArrayRefLabels(x, i, cx, f);
      Wrap([], g.code, [ArrayLoadInstr(x.ty.elem)], f.nextLabel, g.f.nextLabel, []);
    case Assign(_, _) => AssignLabels(e, cx, f);
    case EmptyExpr =>
  }

  lemma {:induction false} UnaryLabels(e: Expr, cx: Ctx, f: FrameState)
    requires e.Unary? && WF(e, cx.index.Keys)
    ensures Labelled(UnaryGen(e, cx, f).code, f.nextLabel, UnaryGen(e, cx, f).f.nextLabel, [])
    decreases e, 1
  {
    var g := ExprGen(e.e, cx, f);
    ExprLabels(e.e, cx, f);
    match e.uop
    case INot =>
      var c := IntCompare(EQ, Pushed(g.f, 1));
      CompareLabelled(EQ, Pushed(g.f, 1), false);
      Wrap([], g.code, [Iconst(0)], f.nextLabel, g.f.nextLabel, []);
      Join(g.code + [Iconst(0)], c.code, f.nextLabel, g.f.nextLabel, c.f.nextLabel, []);
    case IPlus =>
    case FPlus =>
    case INeg => Wrap([], g.code, [Ineg], f.nextLabel, g.f.nextLabel, []);
    case FNeg => Wrap([], g.code, [Fneg], f.nextLabel, g.f.nextLabel, []);
    case I2F => Wrap([], g.code, [I2f], f.nextLabel, g.f.nextLabel, []);
  }

  lemma {:induction false} BinaryLabels(e: Expr, cx: Ctx, f: FrameState)
    requires e.Binary? && WF(e, cx.index.Keys)
    ensures Labelled(BinaryGen(e, cx, f).code, f.nextLabel, BinaryGen(e, cx, f).f.nextLabel, [])
    decreases e, 1
  {
    if e.bop == And || e.bop == Or {
      LogicLabels(e, cx, f);
    } else {
      var g1 := ExprGen(e.e1, cx, f);
      var g2 := ExprGen(e.e2, cx, g1.f);
      ExprLabels(e.e1, cx, f);
      ExprLabels(e.e2, cx, g1.f);
      Join(g1.code, g2.code, f.nextLabel, g1.f.nextLabel, g2.f.nextLabel, []);
      if e.bop.ICmp? || e.bop.FCmp? {
        var c := if e.bop.ICmp? then IntCompare(e.bop.c, g2.f) else FloatCompare(e.bop.c, g2.f);
        CompareLabelled(e.bop.c, g2.f, e.bop.FCmp?);
        Join(g1.code + g2.code, c.code, f.nextLabel, g2.f.nextLabel, c.f.nextLabel, []);
      } else {
        Wrap([], g1.code + g2.code, ArithInstrs(e.bop), f.nextLabel, g2.f.nextLabel, []);
      }
    }
  }

  lemma {:induction false} LogicLabels(e: Expr, cx: Ctx, f: FrameState)
    requires e.Binary? && (e.bop == And || e.bop == Or) && WF(e, cx.index.Keys)
    ensures Labelled(LogicGen(e, cx, f).code, f.nextLabel, LogicGen(e, cx, f).f.nextLabel, [])
    decreases e, 0
  {
    var f1 := WithNewLabel(WithNewLabel(f));
    var g1 := ExprGen(e.e1, cx, f1);
    var g2 := ExprGen(e.e2, cx, Popped(g1.f, 1));
    ExprLabels(e.e1, cx, f1);
    ExprLabels(e.e2, cx, Popped(g1.f, 1));
    JoinShortCircuit(g1.code, g2.code, e.bop == Or, f.nextLabel, g1.f.nextLabel, g2.f.nextLabel);
  }

  /** The layout of a short circuit: the first operand, a jump, the second
      operand, the same jump, then the two values and the two labels taken
      before the operands. */
  lemma JoinShortCircuit(c1: seq<Instr>, c2: seq<Instr>, isOr: bool, lo: nat, mid: nat, hi: nat)
    requires Labelled(c1, lo + 2, mid, []) && Labelled(c2, mid, hi, [])
    ensures var jump := if isOr then IfZ(NE, lo) else IfZ(EQ, lo);
      Labelled(c1 + [jump] + c2 +
               [jump, Iconst(if isOr then 0 else 1), Goto(lo + 1),
                Label(lo), Iconst(if isOr then 1 else 0), Label(lo + 1)], lo, hi, [])
  {
    var jump := if isOr then IfZ(NE, lo) else IfZ(EQ, lo);
    var a, b := Iconst(if isOr then 0 else 1), Iconst(if isOr then 1 else 0);
    DiamondLabelled(jump, a, b, lo, hi);
    Widen(c1, lo + 2, mid, [], lo, hi, []);
    Widen(c2, mid, hi, [], lo, hi, []);
    Bridge(c1, jump, c2, lo + 2, mid, hi, lo, hi, []);
    CatSwap(c1 + [jump] + c2, [jump, a, Goto(lo + 1), Label(lo), b, Label(lo + 1)], lo, lo + 2, hi, lo, hi, []);
  }

  lemma {:induction false} ArgsLabels(args: seq<Expr>, cx: Ctx, f: FrameState)
    requires forall k :: 0 <= k < |args| ==> WF(args[k], cx.index.Keys) && Produces(args[k])
    ensures Labelled(ArgsGen(args, cx, f).code, f.nextLabel, ArgsGen(args, cx, f).f.nextLabel, [])
    decreases args
  {
    if args != [] {
      var g := ExprGen(args[0], cx, f);
      var h := ArgsGen(args[1..], cx, g.f);
      ExprLabels(args[0], cx, f);
      ArgsLabels(args[1..], cx, g.f);
      Join(g.code, h.code, f.nextLabel, g.f.nextLabel, h.f.nextLabel, []);
    }
  }

  lemma {:induction false} CallLabels(e: Expr, cx: Ctx, f: FrameState)
    requires e.Call? && WF(e, cx.index.Keys)
    ensures Labelled(CallGen(e, cx, f).code, f.nextLabel, CallGen(e, cx, f).f.nextLabel, [])
    decreases e, 1
  {
    if e.callee.Std? {
      StdCallLabels(e, cx, f);
    } else {
      UserCallLabels(e, cx, f);
    }
  }

  lemma {:induction false} StdCallLabels(e: Expr, cx: Ctx, f: FrameState)
    requires e.Call? && e.callee.Std? && WF(e, cx.index.Keys)
    ensures Labelled(CallGen(e, cx, f).code, f.nextLabel, CallGen(e, cx, f).f.nextLabel, [])
    decreases e, 0
  {
    var g := ArgsGen(e.args, cx, f);
    ArgsLabels(e.args, cx, f);
    Wrap([], g.code, [InvokeStd(e.callee.fn)], f.nextLabel, g.f.nextLabel, []);
  }

  lemma {:induction false} UserCallLabels(e: Expr, cx: Ctx, f: FrameState)
    requires e.Call? && e.callee.User? && WF(e, cx.index.Keys)
    ensures Labelled(CallGen(e, cx, f).code, f.nextLabel, CallGen(e, cx, f).f.nextLabel, [])
    decreases e, 0
  {
    var g := ArgsGen(e.args, cx, Pushed(f, 1));
    ArgsLabels(e.args, cx, Pushed(f, 1));
    Wrap([LoadShort(RefSlot, if f.main then 1 else 0)], g.code,
         [Invokevirtual(cx.cls, e.callee.name, MethodDescriptor(e.callee.params, e.callee.result))],
         f.nextLabel, g.f.nextLabel, []);
  }

  lemma {:induction false} ArrayRefLabels(x: Var, i: Expr, cx: Ctx, f: FrameState)
    requires VarOk(x, cx.index.Keys) && x.ty.ArrayType? && WF(i, cx.index.Keys) && Produces(i)
    ensures Labelled(ArrayRefGen(x, i, cx, f).code, f.nextLabel, ArrayRefGen(x, i, cx, f).f.nextLabel, [])
    decreases i, 3
  {
    var g := ExprGen(i, cx, Pushed(f, 1));
    ExprLabels(i, cx, Pushed(f, 1));
    Wrap([LoadVar(x, cx)], g.code, [], f.nextLabel, g.f.nextLabel, []);
  }

  lemma {:induction false} AssignLabels(e: Expr, cx: Ctx, f: FrameState)
    requires e.Assign? && WF(e, cx.index.Keys)
    ensures Labelled(AssignGen(e, cx, f).code, f.nextLabel, AssignGen(e, cx, f).f.nextLabel, [])
    decreases e, 1
  {
    if e.lhs.ArrayExpr? {
      ElementAssignLabels(e, cx, f);
    } else {
      var g := ExprGen(e.rhs, cx, f);
      ExprLabels(e.rhs, cx, f);
      Wrap([], g.code, [Dup, StoreVar(e.lhs.x, TypeOf(e.rhs), cx)], f.nextLabel, g.f.nextLabel, []);
    }
  }

  lemma {:induction false} ElementAssignLabels(e: Expr, cx: Ctx, f: FrameState)
    requires e.Assign? && e.lhs.ArrayExpr? && WF(e, cx.index.Keys)
    ensures Labelled(AssignGen(e, cx, f).code, f.nextLabel, AssignGen(e, cx, f).f.nextLabel, [])
    decreases e, 0
  {
    var x, i := e.lhs.arr, e.lhs.idx;
    assert WF(e.lhs, cx.index.Keys);
    var a := ArrayRefGen(x, i, cx, f);
    var g := ExprGen(e.rhs, cx, a.f);
    ArrayRefLabels(x, i, cx, f);
    ExprLabels(e.rhs, cx, a.f);
    Join(a.code, g.code, f.nextLabel, a.f.nextLabel, g.f.nextLabel, []);
    Wrap([], a.code + g.code, [DupX2, ArrayStoreInstr(TypeOf(e.rhs))], f.nextLabel, g.f.nextLabel, []);
  }

  // ---------------------------------------------------------------------
  // Layouts of the statements, as sequence facts
  // ---------------------------------------------------------------------

  /** Expression code jumps nowhere outside itself, so any targets may be
      allowed. */
  lemma Lift(code: seq<Instr>, lo: nat, hi: nat, out: seq<nat>)
    requires Labelled(code, lo, hi, [])
    ensures Labelled(code, lo, hi, out)
  {
  }

  /** The layout of `if`: the condition, a jump to the else label, the then
      part, a jump to the next label, the else label, the else part, the
      next label. */
  lemma IfLayout(g: seq<Instr>, a: seq<Instr>, b: seq<Instr>, lo: nat, m1: nat, m2: nat, hi: nat, out: seq<nat>)
    requires Labelled(g, lo + 2, m1, []) && Labelled(a, m1, m2, out) && Labelled(b, m2, hi, out)
    ensures Labelled(IfShape(lo, g, a, b), lo, hi, out)
  {
    Widen(g, lo + 2, m1, [], lo, hi, out);
    Widen(a, m1, m2, out, lo, hi, out);
    Bridge(g, IfZ(EQ, lo), a, lo + 2, m1, m2, lo, hi, out);
    var p := g + [IfZ(EQ, lo)] + a;
    var q := [Goto(lo + 1), Label(lo)];
    Pair(Goto(lo + 1), Label(lo));
    var t := p + q + b + [Label(lo + 1)];
    One(Goto(lo + 1)); One(Label(lo)); One(Label(lo + 1));
    CatTargets([Goto(lo + 1)], [Label(lo)]);
    CatTargets(p, q);
    CatTargets(p + q, b);
    CatTargets(p + q + b, [Label(lo + 1)]);
    forall x: nat ensures Count(t, x) == if lo <= x < hi then 1 else 0 {
      OneCount(Goto(lo + 1), x); OneCount(Label(lo), x); OneCount(Label(lo + 1), x);
      CatCount([Goto(lo + 1)], [Label(lo)], x);
      CatCount(p, q, x);
      CatCount(p + q, b, x);
      CatCount(p + q + b, [Label(lo + 1)], x);
    }
  }

  /** The layout of `while`: the continue label, the test, a jump to the
      break label, the body, the back jump, the break label. */
  lemma WhileLayout(g: seq<Instr>, b: seq<Instr>, lo: nat, m: nat, hi: nat)
    requires Labelled(g, lo + 2, m, []) && Labelled(b, m, hi, [lo + 1, lo])
    ensures Labelled(WhileShape(lo, g, b), lo, hi, [])
  {
    WhileJumps(g, b, lo, m, hi);
    WhileBlock(g, b, lo, m, hi);
  }

  lemma WhileJumps(g: seq<Instr>, b: seq<Instr>, lo: nat, m: nat, hi: nat)
    requires lo + 2 <= m <= hi
    requires Jumps(g, lo + 2, m, []) && Jumps(b, m, hi, [lo + 1, lo])
    ensures Jumps(WhileShape(lo, g, b), lo, hi, [])
  {
    var out: seq<nat> := [];
    Widen(b, m, hi, [lo + 1, lo], lo, hi, out);
    Widen(g, lo + 2, m, [], lo, hi, out);
    JumpsOne(Label(lo), lo, hi, out);
    JumpsOne(IfZ(EQ, lo + 1), lo, hi, out);
    JumpsOne(Goto(lo), lo, hi, out);
    JumpsOne(Label(lo + 1), lo, hi, out);
    JumpsCat([Label(lo)], g, lo, hi, out);
    JumpsCat([Label(lo)] + g, [IfZ(EQ, lo + 1)], lo, hi, out);
    JumpsCat([Label(lo)] + g + [IfZ(EQ, lo + 1)], b, lo, hi, out);
    JumpsCat([Label(lo)] + g + [IfZ(EQ, lo + 1)] + b, [Goto(lo)], lo, hi, out);
    JumpsCat([Label(lo)] + g + [IfZ(EQ, lo + 1)] + b + [Goto(lo)], [Label(lo + 1)], lo, hi, out);
    assert WhileShape(lo, g, b) == [Label(lo)] + g + [IfZ(EQ, lo + 1)] + b + [Goto(lo)] + [Label(lo + 1)];
  }

  lemma WhileBlock(g: seq<Instr>, b: seq<Instr>, lo: nat, m: nat, hi: nat)
    requires Block(g, lo + 2, m) && Block(b, m, hi)
    ensures Block(WhileShape(lo, g, b), lo, hi)
  {
    var q := [Goto(lo), Label(lo + 1)];
    Pair(Goto(lo), Label(lo + 1));
    var p := [Label(lo)] + g + [IfZ(EQ, lo + 1)] + b;
    forall x: nat ensures Count(p + q, x) == if lo <= x < hi then 1 else 0 {
      OneCount(IfZ(EQ, lo + 1), x); OneCount(Goto(lo), x); OneCount(Label(lo), x); OneCount(Label(lo + 1), x);
      CatCount([Goto(lo)], [Label(lo + 1)], x);
      CatCount([Label(lo)], g, x);
      CatCount([Label(lo)] + g, [IfZ(EQ, lo + 1)], x);
      CatCount([Label(lo)] + g + [IfZ(EQ, lo + 1)], b, x);
      CatCount(p, q, x);
    }
  }

  /** The layout of `for`: the initialiser, a jump to the start label, the
      continue label, the step, the start label, the test, a jump to the
      break label, the body, the jump to the continue label, the break label. */
  lemma ForLayout(g1: seq<Instr>, g3: seq<Instr>, g2: seq<Instr>, b: seq<Instr>,
                  lo: nat, m1: nat, m3: nat, m2: nat, hi: nat)
    requires Labelled(g1, lo + 3, m1, []) && Labelled(g3, m1, m3, []) && Labelled(g2, m3, m2, [])
    requires Labelled(b, m2, hi, [lo + 2, lo + 1])
    ensures Labelled(ForShape(lo, g1, g3, g2, b), lo, hi, [])
  {
    ForJumps(g1, g3, g2, b, lo, m1, m3, m2, hi);
    ForBlock(g1, g3, g2, b, lo, m1, m3, m2, hi);
  }

  lemma ForJumps(g1: seq<Instr>, g3: seq<Instr>, g2: seq<Instr>, b: seq<Instr>,
                 lo: nat, m1: nat, m3: nat, m2: nat, hi: nat)
    requires lo + 3 <= m1 <= m3 <= m2 <= hi
    requires Jumps(g1, lo + 3, m1, []) && Jumps(g3, m1, m3, []) && Jumps(g2, m3, m2, [])
    requires Jumps(b, m2, hi, [lo + 2, lo + 1])
    ensures Jumps(ForShape(lo, g1, g3, g2, b), lo, hi, [])
  {
    var p2 := g1 + [Goto(lo)] + [Label(lo + 1)] + g3 + [Label(lo)];
    ForJumpsHead(g1, g3, lo, m1, m3, hi);
    ForJumpsTail(p2, g2, b, lo, m3, m2, hi);
    assert ForShape(lo, g1, g3, g2, b) == p2 + g2 + [IfZ(EQ, lo + 2)] + b + [Goto(lo + 1)] + [Label(lo + 2)];
  }

  /** The part of `for` up to the start label. */
  lemma ForJumpsHead(g1: seq<Instr>, g3: seq<Instr>, lo: nat, m1: nat, m3: nat, hi: nat)
    requires lo + 3 <= m1 <= m3 <= hi
    requires Jumps(g1, lo + 3, m1, []) && Jumps(g3, m1, m3, [])
    ensures Jumps(g1 + [Goto(lo)] + [Label(lo + 1)] + g3 + [Label(lo)], lo, hi, [])
  {
    var out: seq<nat> := [];
    Widen(g1, lo + 3, m1, [], lo, hi, out);
    Widen(g3, m1, m3, [], lo, hi, out);
    JumpsOne(Goto(lo), lo, hi, out);
    JumpsOne(Label(lo + 1), lo, hi, out);
    JumpsOne(Label(lo), lo, hi, out);
    var p1 := g1 + [Goto(lo)] + [Label(lo + 1)];
    JumpsCat(g1, [Goto(lo)], lo, hi, out);
    JumpsCat(g1 + [Goto(lo)], [Label(lo + 1)], lo, hi, out);
    JumpsCat(p1, g3, lo, hi, out);
    JumpsCat(p1 + g3, [Label(lo)], lo, hi, out);
  }

  /** The part of `for` from the test on, after a head `p` that stays
      within the loop's labels. */
  lemma ForJumpsTail(p: seq<Instr>, g2: seq<Instr>, b: seq<Instr>, lo: nat, m3: nat, m2: nat, hi: nat)
    requires lo + 3 <= m3 <= m2 <= hi
    requires Jumps(p, lo, hi, []) && Jumps(g2, m3, m2, []) && Jumps(b, m2, hi, [lo + 2, lo + 1])
    ensures Jumps(p + g2 + [IfZ(EQ, lo + 2)] + b + [Goto(lo + 1)] + [Label(lo + 2)], lo, hi, [])
  {
    var out: seq<nat> := [];
    Widen(g2, m3, m2, [], lo, hi, out);
    Widen(b, m2, hi, [lo + 2, lo + 1], lo, hi, out);
    JumpsOne(IfZ(EQ, lo + 2), lo, hi, out);
    JumpsOne(Goto(lo + 1), lo, hi, out);
    JumpsOne(Label(lo + 2), lo, hi, out);
    var p3 := p + g2 + [IfZ(EQ, lo + 2)] + b;
    JumpsCat(p, g2, lo, hi, out);
    JumpsCat(p + g2, [IfZ(EQ, lo + 2)], lo, hi, out);
    JumpsCat(p + g2 + [IfZ(EQ, lo + 2)], b, lo, hi, out);
    JumpsCat(p3, [Goto(lo + 1)], lo, hi, out);
    JumpsCat(p3 + [Goto(lo + 1)], [Label(lo + 2)], lo, hi, out);
  }

  lemma ForBlock(g1: seq<Instr>, g3: seq<Instr>, g2: seq<Instr>, b: seq<Instr>,
                 lo: nat, m1: nat, m3: nat, m2: nat, hi: nat)
    requires Block(g1, lo + 3, m1) && Block(g3, m1, m3) && Block(g2, m3, m2) && Block(b, m2, hi)
    ensures Block(ForShape(lo, g1, g3, g2, b), lo, hi)
  {
    var p1 := g1 + [Goto(lo)] + [Label(lo + 1)];
    var p2 := p1 + g3 + [Label(lo)];
    var p3 := p2 + g2 + [IfZ(EQ, lo + 2)] + b;
    var t := p3 + [Goto(lo + 1)] + [Label(lo + 2)];
    assert ForShape(lo, g1, g3, g2, b) == t;
    forall x: nat ensures Count(t, x) == if lo <= x < hi then 1 else 0 {
      OneCount(Goto(lo), x); OneCount(Label(lo + 1), x); OneCount(Label(lo), x);
      OneCount(IfZ(EQ, lo + 2), x); OneCount(Goto(lo + 1), x); OneCount(Label(lo + 2), x);
      CatCount(g1, [Goto(lo)], x);
      CatCount(g1 + [Goto(lo)], [Label(lo + 1)], x);
      CatCount(p1, g3, x);
      CatCount(p1 + g3, [Label(lo)], x);
      CatCount(p2, g2, x);
      CatCount(p2 + g2, [IfZ(EQ, lo + 2)], x);
      CatCount(p2 + g2 + [IfZ(EQ, lo + 2)], b, x);
      CatCount(p3, [Goto(lo + 1)], x);
      CatCount(p3 + [Goto(lo + 1)], [Label(lo + 2)], x);
    }
  }

  /** The layout of a compound statement: its start label, the header, the
      declarations, the statements, its end label. */
  lemma CompoundLayout(h: seq<Instr>, d: seq<Instr>, b: seq<Instr>, lo: nat, md: nat, hi: nat, out: seq<nat>)
    requires Plain(h) && Labelled(d, lo + 2, md, []) && Labelled(b, md, hi, out)
    ensures Labelled(CompoundShape(lo, h, d, b), lo, hi, out)
  {
    PlainLabelled(h, lo + 2, lo, hi, out);
    CompoundJumps(h, d, b, lo, md, hi, out);
    CompoundBlock(h, d, b, lo, md, hi);
  }

  lemma CompoundJumps(h: seq<Instr>, d: seq<Instr>, b: seq<Instr>, lo: nat, md: nat, hi: nat, out: seq<nat>)
    requires lo + 2 <= md <= hi
    requires Jumps(h, lo, hi, out) && Jumps(d, lo + 2, md, []) && Jumps(b, md, hi, out)
    ensures Jumps(CompoundShape(lo, h, d, b), lo, hi, out)
  {
    Widen(d, lo + 2, md, [], lo, hi, out);
    Widen(b, md, hi, out, lo, hi, out);
    JumpsOne(Label(lo), lo, hi, out);
    JumpsOne(Label(lo + 1), lo, hi, out);
    JumpsCat([Label(lo)], h, lo, hi, out);
    JumpsCat([Label(lo)] + h, d, lo, hi, out);
    JumpsCat([Label(lo)] + h + d, b, lo, hi, out);
    JumpsCat([Label(lo)] + h + d + b, [Label(lo + 1)], lo, hi, out);
  }

  lemma CompoundBlock(h: seq<Instr>, d: seq<Instr>, b: seq<Instr>, lo: nat, md: nat, hi: nat)
    requires Block(h, lo + 2, lo + 2) && Block(d, lo + 2, md) && Block(b, md, hi)
    ensures Block(CompoundShape(lo, h, d, b), lo, hi)
  {
    forall x: nat ensures Count(CompoundShape(lo, h, d, b), x) == if lo <= x < hi then 1 else 0 {
      OneCount(Label(lo), x); OneCount(Label(lo + 1), x);
      CatCount([Label(lo)], h, x);
      CatCount([Label(lo)] + h, d, x);
      CatCount([Label(lo)] + h + d, b, x);
      CatCount([Label(lo)] + h + d + b, [Label(lo + 1)], x);
    }
  }

  // The same layouts, stated over the frames the pieces start from: the
  // statement lemmas below then only pass facts along.

  lemma IfFrameLayout(g: seq<Instr>, a: seq<Instr>, b: seq<Instr>, f: FrameState, fa: FrameState, fb: FrameState,
                      m: nat, hi: nat)
    requires Labelled(g, WithNewLabel(WithNewLabel(f)).nextLabel, m, [])
    requires fa.nextLabel == m && fa.brk == f.brk && fa.con == f.con
    requires Labelled(a, fa.nextLabel, fb.nextLabel, Exits(fa))
    requires fb.brk == f.brk && fb.con == f.con
    requires Labelled(b, fb.nextLabel, hi, Exits(fb))
    ensures Labelled(IfShape(f.nextLabel, g, a, b), f.nextLabel, hi, Exits(f))
  {
    assert Exits(fa) == Exits(f) && Exits(fb) == Exits(f);
    IfLayout(g, a, b, f.nextLabel, m, fb.nextLabel, hi, Exits(f));
  }

  lemma WhileFrameLayout(g: seq<Instr>, b: seq<Instr>, f: FrameState, fb: FrameState, m: nat, hi: nat)
    requires Labelled(g, WhileFrame(f).nextLabel, m, [])
    requires fb.nextLabel == m && fb.brk == WhileFrame(f).brk && fb.con == WhileFrame(f).con
    requires Labelled(b, fb.nextLabel, hi, Exits(fb))
    ensures Labelled(WhileShape(f.nextLabel, g, b), f.nextLabel, hi, [])
  {
    assert Exits(fb) == [f.nextLabel + 1, f.nextLabel];
    WhileLayout(g, b, f.nextLabel, m, hi);
  }

  lemma ForFrameLayout(g1: seq<Instr>, g3: seq<Instr>, g2: seq<Instr>, b: seq<Instr>, f: FrameState, fb: FrameState,
                       m1: nat, m3: nat, m2: nat, hi: nat)
    requires Labelled(g1, ForFrame(f).nextLabel, m1, []) && Labelled(g3, m1, m3, []) && Labelled(g2, m3, m2, [])
    requires fb.nextLabel == m2 && fb.brk == ForFrame(f).brk && fb.con == ForFrame(f).con
    requires Labelled(b, fb.nextLabel, hi, Exits(fb))
    ensures Labelled(ForShape(f.nextLabel, g1, g3, g2, b), f.nextLabel, hi, [])
  {
    assert Exits(fb) == [f.nextLabel + 2, f.nextLabel + 1];
    ForLayout(g1, g3, g2, b, f.nextLabel, m1, m3, m2, hi);
  }

  lemma CompoundFrameLayout(h: seq<Instr>, d: seq<Instr>, b: seq<Instr>, f: FrameState, fh: FrameState, fd: FrameState,
                            hi: nat)
    requires Plain(h) && fh.nextLabel == ScopeFrame(f).nextLabel
    requires Labelled(d, fh.nextLabel, fd.nextLabel, [])
    requires fd.brk == f.brk && fd.con == f.con
    requires Labelled(b, fd.nextLabel, hi, Exits(fd))
    ensures Labelled(CompoundShape(f.nextLabel, h, d, b), f.nextLabel, hi, Exits(f))
  {
    assert Exits(fd) == Exits(f);
    CompoundLayout(h, d, b, f.nextLabel, fd.nextLabel, hi, Exits(f));
  }

  // ---------------------------------------------------------------------
  // Declarations and statements
  // ---------------------------------------------------------------------

  /** A jump out of the code, to one of `out`. */
  lemma GotoLabelled(t: nat, lo: nat, out: seq<nat>)
    requires t in out
    ensures Labelled([Goto(t)], lo, lo, out)
  {
    One(Goto(t));
    forall x: nat ensures Count([Goto(t)], x) == 0 {
      OneCount(Goto(t), x);
    }
  }

  lemma DiscardLabels(e: Expr, cx: Ctx, f: FrameState)
    requires WF(e, cx.index.Keys)
    ensures Labelled(DiscardGen(e, cx, f).code, f.nextLabel, DiscardGen(e, cx, f).f.nextLabel, [])
  {
    var g := ExprGen(e, cx, f);
    ExprLabels(e, cx, f);
    Wrap([], g.code, [Pop], f.nextLabel, g.f.nextLabel, []);
  }

  lemma {:induction false} InitLabels(es: seq<Expr>, t: Type, cx: Ctx, f: FrameState)
    requires IsScalar(t) && ElemsOk(es, cx.index.Keys)
    ensures Labelled(InitGen(es, t, cx, f).code, f.nextLabel, InitGen(es, t, cx, f).f.nextLabel, [])
    decreases |es|
  {
    if es != [] {
      var p := InitGen(es[..|es| - 1], t, cx, f);
      var g := ExprGen(es[|es| - 1], cx, Pushed(Pushed(p.f, 1), 1));
      InitLabels(es[..|es| - 1], t, cx, f);
      ExprLabels(es[|es| - 1], cx, Pushed(Pushed(p.f, 1), 1));
      Wrap([], p.code, [Dup, IconstInstr(|es| - 1)], f.nextLabel, p.f.nextLabel, []);
      Join(p.code + [Dup, IconstInstr(|es| - 1)], g.code, f.nextLabel, p.f.nextLabel, g.f.nextLabel, []);
      Wrap([], p.code + [Dup, IconstInstr(|es| - 1)] + g.code, [ArrayStoreInstr(t)], f.nextLabel, g.f.nextLabel, []);
    }
  }

  lemma LocalDeclLabels(d: LocalDecl, cls: string, index: map<nat, nat>, f: FrameState)
    requires DeclOk(d, index.Keys + {d.id})
    ensures Labelled(LocalDeclGen(d, cls, index, f).code, f.nextLabel, LocalDeclGen(d, cls, index, f).f.nextLabel, [])
  {
    var ix := index[d.id := f.nextIndex];
    assert ix.Keys == index.Keys + {d.id};
    var cx := Ctx(cls, ix);
    var f1 := WithNewIndex(f);
    if d.ty.ArrayType? {
      var g := if d.init.ArrayInit? then InitGen(d.init.elems, d.ty.elem, cx, Pushed(f1, 1))
               else Gen([], Pushed(f1, 1));
      if d.init.ArrayInit? {
        InitLabels(d.init.elems, d.ty.elem, cx, Pushed(f1, 1));
      }
      Wrap([IconstInstr(d.size), Newarray(d.ty.elem)], g.code, [StoreInstr(RefSlot, f.nextIndex)],
           f.nextLabel, g.f.nextLabel, []);
    } else if d.init.ExprInit? {
      var g := ExprGen(d.init.e, cx, f1);
      ExprLabels(d.init.e, cx, f1);
      Wrap([], g.code, [StoreInstr(KindOf(d.ty), f.nextIndex)], f.nextLabel, g.f.nextLabel, []);
    }
  }

  lemma {:induction false} DeclsLabels(ds: seq<LocalDecl>, cls: string, index: map<nat, nat>, f: FrameState)
    requires DeclsOk(ds, index.Keys)
    ensures Labelled(DeclsGen(ds, cls, index, f).code, f.nextLabel, DeclsGen(ds, cls, index, f).f.nextLabel, [])
    decreases ds
  {
    if ds != [] {
      var d := LocalDeclGen(ds[0], cls, index, f);
      assert d.index.Keys == index.Keys + {ds[0].id};
      var rest := DeclsGen(ds[1..], cls, d.index, d.f);
      LocalDeclLabels(ds[0], cls, index, f);
      DeclsLabels(ds[1..], cls, d.index, d.f);
      Join(d.code, rest.code, f.nextLabel, d.f.nextLabel, rest.f.nextLabel, []);
    }
  }

  /** The header of a compound statement has neither labels nor jumps and
      takes no label. */
  lemma HeaderPlain(owner: Owner, cls: string, index: map<nat, nat>, f: FrameState)
    ensures Plain(HeaderGen(owner, cls, index, f).code)
    ensures HeaderGen(owner, cls, index, f).f.nextLabel == f.nextLabel
  {
  }

  lemma {:induction false} StmtLabels(s: Stmt, cls: string, index: map<nat, nat>, f: FrameState)
    requires WFStmt(s, index.Keys, InLoop(f))
    ensures Labelled(StmtGen(s, cls, index, f).code, f.nextLabel, StmtGen(s, cls, index, f).f.nextLabel, Exits(f))
    decreases s, 2
  {
    match s
    case Compound(_, _) =>
      assert index.Keys + OwnerIds(Nested) == index.Keys;
      CompoundLabels(s, Nested, cls, index, f);
    case EmptyComp =>
    case If(_, _, _) => IfLabels(s, cls, index, f);
    case While(_, _) =>
      WhileLabels(s, cls, index, f);
      Lift(WhileGen(s, cls, index, f).code, f.nextLabel, WhileGen(s, cls, index, f).f.nextLabel, Exits(f));
    case For(_, _, _, _) =>
      ForLabels(s, cls, index, f);
      Lift(ForGen(s, cls, index, f).code, f.nextLabel, ForGen(s, cls, index, f).f.nextLabel, Exits(f));
    case Break => GotoLabelled(f.brk[|f.brk| - 1], f.nextLabel, Exits(f));
    case Continue => GotoLabelled(f.con[|f.con| - 1], f.nextLabel, Exits(f));
    case Return(e) => ReturnLabels(e, cls, index, f);
    case ExprStmt(e) =>
      DiscardLabels(e, Ctx(cls, index), f);
      Lift(DiscardGen(e, Ctx(cls, index), f).code, f.nextLabel, DiscardGen(e, Ctx(cls, index), f).f.nextLabel, Exits(f));
    case EmptyStmt =>
  }

  lemma {:induction false} StmtsLabels(ss: seq<Stmt>, cls: string, index: map<nat, nat>, f: FrameState)
    requires forall k :: 0 <= k < |ss| ==> WFStmt(ss[k], index.Keys, InLoop(f))
    ensures Labelled(StmtsGen(ss, cls, index, f).code, f.nextLabel, StmtsGen(ss, cls, index, f).f.nextLabel, Exits(f))
    decreases ss
  {
    if ss != [] {
      var a := StmtGen(ss[0], cls, index, f);
      StmtsMono(ss[1..], index.Keys, a.index.Keys, InLoop(f));
      var b := StmtsGen(ss[1..], cls, a.index, a.f);
      StmtLabels(ss[0], cls, index, f);
      StmtsLabels(ss[1..], cls, a.index, a.f);
      Join(a.code, b.code, f.nextLabel, a.f.nextLabel, b.f.nextLabel, Exits(f));
    }
  }

  lemma {:induction false} CompoundLabels(s: Stmt, owner: Owner, cls: string, index: map<nat, nat>, f: FrameState)
    requires s.Compound? && WFStmt(s, index.Keys + OwnerIds(owner), InLoop(f))
    ensures Labelled(CompoundGen(s, owner, cls, index, f).code, f.nextLabel,
                     CompoundGen(s, owner, cls, index, f).f.nextLabel, Exits(f))
    decreases s, 1
  {
    var h := HeaderGen(owner, cls, index, ScopeFrame(f));
    var d := DeclsGen(s.decls, cls, h.index, h.f);
    var b := StmtsGen(s.stmts, cls, d.index, d.f);
    HeaderPlain(owner, cls, index, ScopeFrame(f));
    DeclsLabels(s.decls, cls, h.index, h.f);
    StmtsLabels(s.stmts, cls, d.index, d.f);
    CompoundFrameLayout(h.code, d.code, b.code, f, h.f, d.f, b.f.nextLabel);
  }

  lemma {:induction false} IfLabels(s: Stmt, cls: string, index: map<nat, nat>, f: FrameState)
    requires s.If? && WFStmt(s, index.Keys, InLoop(f))
    ensures Labelled(IfGen(s, cls, index, f).code, f.nextLabel, IfGen(s, cls, index, f).f.nextLabel, Exits(f))
    decreases s, 1
  {
    var g := ExprGen(s.cond, Ctx(cls, index), WithNewLabel(WithNewLabel(f)));
    var a := StmtGen(s.thn, cls, index, Popped(g.f, 1));
    WFStmtMono(s.els, index.Keys, a.index.Keys, InLoop(f));
    var b := StmtGen(s.els, cls, a.index, a.f);
    ExprLabels(s.cond, Ctx(cls, index), WithNewLabel(WithNewLabel(f)));
    StmtLabels(s.thn, cls, index, Popped(g.f, 1));
    StmtLabels(s.els, cls, a.index, a.f);
    IfFrameLayout(g.code, a.code, b.code, f, Popped(g.f, 1), a.f, g.f.nextLabel, b.f.nextLabel);
  }

  lemma {:induction false} WhileLabels(s: Stmt, cls: string, index: map<nat, nat>, f: FrameState)
    requires s.While? && WFStmt(s, index.Keys, InLoop(f))
    ensures Labelled(WhileGen(s, cls, index, f).code, f.nextLabel, WhileGen(s, cls, index, f).f.nextLabel, [])
    decreases s, 1
  {
    var g := ExprGen(s.cond, Ctx(cls, index), WhileFrame(f));
    var b := StmtGen(s.body, cls, index, Popped(g.f, 1));
    ExprLabels(s.cond, Ctx(cls, index), WhileFrame(f));
    StmtLabels(s.body, cls, index, Popped(g.f, 1));
    WhileFrameLayout(g.code, b.code, f, Popped(g.f, 1), g.f.nextLabel, b.f.nextLabel);
  }

  lemma {:induction false} ForLabels(s: Stmt, cls: string, index: map<nat, nat>, f: FrameState)
    requires s.For? && WFStmt(s, index.Keys, InLoop(f))
    ensures Labelled(ForGen(s, cls, index, f).code, f.nextLabel, ForGen(s, cls, index, f).f.nextLabel, [])
    decreases s, 1
  {
    var g1 := DiscardGen(s.init, Ctx(cls, index), ForFrame(f));
    var g3 := DiscardGen(s.step, Ctx(cls, index), g1.f);
    var g2 := TestGen(s.test, Ctx(cls, index), g3.f);
    var b := StmtGen(s.body, cls, index, Popped(g2.f, 1));
    DiscardLabels(s.init, Ctx(cls, index), ForFrame(f));
    DiscardLabels(s.step, Ctx(cls, index), g1.f);
    TestLabels(s.test, Ctx(cls, index), g3.f);
    StmtLabels(s.body, cls, index, Popped(g2.f, 1));
    ForFrameLayout(g1.code, g3.code, g2.code, b.code, f, Popped(g2.f, 1),
                   g1.f.nextLabel, g3.f.nextLabel, g2.f.nextLabel, b.f.nextLabel);
  }

  lemma TestLabels(e: Expr, cx: Ctx, f: FrameState)
    requires e == EmptyExpr || (WF(e, cx.index.Keys) && Produces(e))
    ensures Labelled(TestGen(e, cx, f).code, f.nextLabel, TestGen(e, cx, f).f.nextLabel, [])
  {
    if e == EmptyExpr {
      PlainLabelled([IconstInstr(1)], f.nextLabel, f.nextLabel, f.nextLabel, []);
    } else {
      ExprLabels(e, cx, f);
    }
  }

  lemma ReturnLabels(e: Expr, cls: string, index: map<nat, nat>, f: FrameState)
    requires WF(e, index.Keys) && (e == EmptyExpr || IsScalar(TypeOf(e)))
    ensures Labelled(ReturnGen(e, cls, index, f).code, f.nextLabel, ReturnGen(e, cls, index, f).f.nextLabel, Exits(f))
  {
    if f.main {
      PlainLabelled([ReturnVoid], f.nextLabel, f.nextLabel, f.nextLabel, Exits(f));
    } else {
      var g := ExprGen(e, Ctx(cls, index), f);
      ExprLabels(e, Ctx(cls, index), f);
      Lift(g.code, f.nextLabel, g.f.nextLabel, Exits(f));
      var t := TypeOf(e);
      var last := if t == IntType || t == BooleanType then Ireturn else if t == FloatType then Freturn else ReturnVoid;
      Wrap([], g.code, [last], f.nextLabel, g.f.nextLabel, Exits(f));
    }
  }

  // ---------------------------------------------------------------------
  // A whole method
  // ---------------------------------------------------------------------

  /** The code of a translated function defines each of its labels once,
      and every jump in it lands on one of them: labels are numbered from 0
      in every method, and no `break` or `continue` escapes the body. */
  lemma FuncLabels(fd: FuncDecl, cls: string, index: map<nat, nat>)
    requires FuncOk(fd)
    ensures var code := FuncGen(fd, cls, index).code;
      (forall x: nat :: Count(code, x) <= 1) &&
      (forall t :: t in Targets(code) ==> Count(code, t) == 1 && Label(t) in code)
  {
    var b := BodyGen(fd, cls, index);
    BodyLabels(fd, cls, index);
    MethodLabels(MethodHeader(fd), b.code, Closing(fd), b.f);
  }

  lemma BodyLabels(fd: FuncDecl, cls: string, index: map<nat, nat>)
    requires FuncOk(fd)
    ensures Labelled(BodyGen(fd, cls, index).code, 0, BodyGen(fd, cls, index).f.nextLabel, [])
  {
    BodyOk(fd, index.Keys);
    if fd.body.Compound? {
      EntryLabels(fd.body, FunctionBody(fd.name, fd.params), cls, index, EntryFrame(fd.name == "main"));
    } else {
      PlainLabelled([], 0, 0, 0, []);
    }
  }

  lemma EntryLabels(s: Stmt, owner: Owner, cls: string, index: map<nat, nat>, f: FrameState)
    requires s.Compound? && f.nextLabel == 0 && f.brk == [] && f.con == []
    requires WFStmt(s, index.Keys + OwnerIds(owner), InLoop(f))
    ensures Labelled(CompoundGen(s, owner, cls, index, f).code, 0, CompoundGen(s, owner, cls, index, f).f.nextLabel, [])
  {
    CompoundLabels(s, owner, cls, index, f);
    assert Exits(f) == [];
  }

  /** A body whose labels are numbered from 0 and which jumps nowhere else,
      between instructions without labels or jumps: every label of the
      method is defined once and its jumps land on them. */
  lemma MethodLabels(header: string, body: seq<Instr>, tail: Instr, f: FrameState)
    requires !tail.Label? && !IsJump(tail) && Labelled(body, 0, f.nextLabel, [])
    ensures var code := MethodCode(header, body, tail, f);
      (forall x: nat :: Count(code, x) <= 1) &&
      (forall t :: t in Targets(code) ==> Count(code, t) == 1 && Label(t) in code)
  {
    var pre := [MethodStart(header)];
    var post := [tail, LimitLocals(f.nextIndex), LimitStack(f.max), MethodEnd];
    Wrap(pre, body, post, 0, f.nextLabel, []);
    var code := pre + body + post;
    forall t | t in Targets(code) ensures Count(code, t) == 1 && Label(t) in code {
      CountMember(code, t);
    }
  }
}
