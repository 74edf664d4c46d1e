/** What the translation means: the integer expression patterns compute,
    on the reference machine of module `Machine`, the value the source
    language gives the expression; the slots handed out are the ones the
    frame reserves for them; loads, stores, calls and returns agree with the
    declarations they refer to. */
module Properties {
  import opened Wrappers
  import opened Syntax
  import opened Jvm
  import opened Select
  import opened Frames
  import opened Translate
  import opened Labels
  import opened Machine

  // ---------------------------------------------------------------------
  // The reference machine
  // ---------------------------------------------------------------------

  /** Two integers congruent modulo 2^32 are the same Java `int`. */
  lemma Congruent(x: int, y: int)
    requires (x - y) % Modulus == 0
    ensures ToInt32(x) == ToInt32(y)
  {
    var k := (x - y) / Modulus;
    assert x + 0x8000_0000 == (y + 0x8000_0000) + Modulus * k;
  }

  /** `ineg` then `iadd` subtracts, wrap-around included. */
  lemma NegAddIsSub(a: int, b: int)
    ensures ToInt32(a + ToInt32(-b)) == ToInt32(a - b)
  {
    Congruent(a + ToInt32(-b), a - b);
  }

  /** A label in front of which there is no other copy of it is found. */
  lemma FindFirst(code: seq<Instr>, l: nat, p: nat)
    requires p < |code| && code[p] == Label(l)
    requires forall k :: 0 <= k < p ==> !Defines(code, k, l)
    ensures Find(code, l) == Some(p)
  {
    FindFromFirst(code, l, 0, p);
  }

  lemma {:induction false} FindFromFirst(code: seq<Instr>, l: nat, i: nat, p: nat)
    requires i <= p < |code| && code[p] == Label(l)
    requires forall k :: i <= k < p ==> !Defines(code, k, l)
    ensures FindFrom(code, l, i) == Some(p)
    decreases p - i
  {
    if i < p {
      assert !Defines(code, i, l);
      FindFromFirst(code, l, i + 1, p);
    }
  }

  /** Code that defines no label (it may jump). */
  predicate NoLabels(code: seq<Instr>) {
    forall k :: 0 <= k < |code| ==> !code[k].Label?
  }

  lemma PlainNoLabels(code: seq<Instr>)
    requires Plain(code)
    ensures NoLabels(code)
  {
  }

  lemma FindAfter(pre: seq<Instr>, d: seq<Instr>, l: nat, p: nat)
    requires NoLabels(pre) && p < |d| && d[p] == Label(l)
    requires forall k :: 0 <= k < p ==> !Defines(d, k, l)
    ensures Find(pre + d, l) == Some(|pre| + p)
  {
    var code := pre + d;
    forall k | 0 <= k < |pre| + p ensures !Defines(code, k, l) {
      if k < |pre| {
        assert code[k] == pre[k] && !pre[k].Label?;
      } else {
        assert code[k] == d[k - |pre|] && !Defines(d, k - |pre|, l);
      }
    }
    FindFirst(code, l, |pre| + p);
  }

  lemma {:induction false} StraightCat(a: seq<Instr>, b: seq<Instr>, m: MState)
    ensures Straight(a + b, m) == match Straight(a, m) case None => None case Some(m1) => Straight(b, m1)
    decreases |a|
  {
    if a != [] {
      assert (a + b)[0] == a[0];
      assert (a + b)[1..] == a[1..] + b;
      match Apply(a[0], m)
      case None =>
      case Some(m') => StraightCat(a[1..], b, m');
    } else {
      assert a + b == b;
    }
  }

  /** `k` steps from `c`, each from an instruction of the code. */
  ghost function Steps(code: seq<Instr>, c: Config, k: nat): Option<Config>
    decreases k
  {
    if k == 0 then Some(c)
    else if c.pc >= |code| then None
    else match Step(code, c)
      case None => None
      case Some(c1) => Steps(code, c1, k - 1)
  }

  /** Running `code` from `c` takes `k` steps to `c'`. */
  ghost predicate Reaches(code: seq<Instr>, c: Config, c': Config, k: nat) {
    Steps(code, c, k) == Some(c')
  }

  lemma {:induction false} Trans(code: seq<Instr>, c1: Config, c2: Config, c3: Config, k1: nat, k2: nat, k: nat)
    requires k == k1 + k2
    requires Reaches(code, c1, c2, k1) == true && Reaches(code, c2, c3, k2) == true
    ensures Reaches(code, c1, c3, k) == true
    decreases k1
  {
    if k1 > 0 {
      var c := Step(code, c1).value;
      Trans(code, c, c2, c3, k1 - 1, k2, k - 1);
    }
  }

  lemma StepReaches(code: seq<Instr>, c: Config, c': Config)
    requires c.pc < |code| && Step(code, c) == Some(c')
    ensures Reaches(code, c, c', 1) == true
  {
  }

  /** A run that takes `k` steps to `c'` goes on from there with `k` steps'
      less fuel. */
  lemma {:induction false} StepsRun(code: seq<Instr>, c: Config, c': Config, k: nat, fuel: nat)
    requires Reaches(code, c, c', k) == true && k <= fuel
    ensures Run(code, c, fuel) == Run(code, c', fuel - k)
    decreases k
  {
    if k > 0 {
      var c1 := Step(code, c).value;
      StepsRun(code, c1, c', k - 1, fuel - 1);
    }
  }

  /** Reaching the end of the code within the fuel is the result of the run. */
  lemma Finish(code: seq<Instr>, c: Config, e: nat, m': MState, k: nat, fuel: nat)
    requires e == |code| && Reaches(code, c, Config(e, m'), k) == true && k <= fuel
    ensures Run(code, c, fuel) == Some(m')
  {
    StepsRun(code, c, Config(e, m'), k, fuel);
  }

  /** Two runs one after the other, the second reaching the end of the code
      within the fuel. */
  lemma FinishAfter(code: seq<Instr>, c0: Config, c1: Config, m': MState, k1: nat, k2: nat, fuel: nat)
    requires Reaches(code, c0, c1, k1) == true && Reaches(code, c1, Config(|code|, m'), k2) == true
    requires k1 + k2 <= fuel
    ensures Run(code, c0, fuel) == Some(m')
  {
    Trans(code, c0, c1, Config(|code|, m'), k1, k2, k1 + k2);
    Finish(code, c0, |code|, m', k1 + k2, fuel);
  }

  /** An instruction with an effect on the state is not a jump: it steps to
      the next instruction. */
  lemma ApplyReaches(code: seq<Instr>, c: Config, m': MState)
    requires c.pc < |code| && Apply(code[c.pc], c.m) == Some(m')
    ensures Reaches(code, c, Config(c.pc + 1, m'), 1) == true
  {
    var i := code[c.pc];
    assert !i.Goto? && !i.IfZ? && !i.IfIcmp?;
    assert Step(code, c) == Some(Config(c.pc + 1, m'));
  }

  /** Code without control transfers, found at position `p` of the code
      being run, takes one step per instruction there. */
  lemma {:induction false} RunStraight(code: seq<Instr>, p: nat, c: seq<Instr>, m: MState, m': MState)
    requires p + |c| <= |code| && code[p..p + |c|] == c
    requires Straight(c, m) == Some(m')
    ensures Reaches(code, Config(p, m), Config(p + |c|, m'), |c|) == true
    decreases |c|
  {
    if c != [] {
      assert code[p] == c[0];
      assert code[p + 1..p + |c|] == c[1..];
      var m1 := Apply(c[0], m).value;
      ApplyReaches(code, Config(p, m), m1);
      RunStraight(code, p + 1, c[1..], m1, m');
      Trans(code, Config(p, m), Config(p + 1, m1), Config(p + |c|, m'), 1, |c| - 1, |c|);
    }
  }

  /** The diamond's two ends: from the first label, the second constant and
      then the end of the code; from after the jump, the first constant, a
      jump to the second label, and the end of the code. */
  lemma DiamondTaken(code: seq<Instr>, q: nat, y: nat, m: MState)
    requires q + 3 == |code| && y <= 5
    requires code[q].Label? && code[q + 1] == Iconst(y) && code[q + 2].Label?
    ensures Reaches(code, Config(q, m), Config(q + 3, Push(m, y)), 3) == true
  {
    StepReaches(code, Config(q, m), Config(q + 1, m));
    StepReaches(code, Config(q + 1, m), Config(q + 2, Push(m, y)));
    StepReaches(code, Config(q + 2, Push(m, y)), Config(q + 3, Push(m, y)));
    Trans(code, Config(q, m), Config(q + 1, m), Config(q + 2, Push(m, y)), 1, 1, 2);
    Trans(code, Config(q, m), Config(q + 2, Push(m, y)), Config(q + 3, Push(m, y)), 2, 1, 3);
  }

  lemma DiamondNotTaken(code: seq<Instr>, q: nat, x: nat, l: nat, m: MState)
    requires q + 5 == |code| && x <= 5
    requires code[q] == Iconst(x) && code[q + 1] == Goto(l) && Find(code, l) == Some(q + 4)
    ensures Reaches(code, Config(q, m), Config(q + 5, Push(m, x)), 3) == true
  {
    var m1 := Push(m, x);
    StepReaches(code, Config(q, m), Config(q + 1, m1));
    StepReaches(code, Config(q + 1, m1), Config(q + 4, m1));
    StepReaches(code, Config(q + 4, m1), Config(q + 5, m1));
    Trans(code, Config(q, m), Config(q + 1, m1), Config(q + 4, m1), 1, 1, 2);
    Trans(code, Config(q, m), Config(q + 4, m1), Config(q + 5, m1), 2, 1, 3);
  }

  // ---------------------------------------------------------------------
  // Comparisons (emitIF_ICMPCOND)
  // ---------------------------------------------------------------------

  /** From an integer comparison at position `q`, the last six instructions
      of the code: 1 if the comparison holds between the two operands on top
      of the stack, 0 otherwise, in their place. */
  lemma CompareTail(code: seq<Instr>, q: nat, c: Cond, t: nat, m: MState, a: int, b: int)
    requires q + 6 == |code| && |m.stack| >= 2
    requires m.stack[|m.stack| - 2] == a && m.stack[|m.stack| - 1] == b
    requires code[q] == IfIcmp(c, t) && code[q + 1] == Iconst(0) && code[q + 2] == Goto(t + 1)
    requires code[q + 3] == Label(t) && code[q + 4] == Iconst(1) && code[q + 5] == Label(t + 1)
    requires Find(code, t) == Some(q + 3) && Find(code, t + 1) == Some(q + 5)
    ensures Reaches(code, Config(q, m), Config(q + 6, MState(m.stack[..|m.stack| - 2] + [Bit(Holds(c, a, b))], m.locals)), 4) == true
  {
    var m2 := m.(stack := m.stack[..|m.stack| - 2]);
    if Holds(c, a, b) {
      StepReaches(code, Config(q, m), Config(q + 3, m2));
      DiamondTaken(code, q + 3, 1, m2);
      Trans(code, Config(q, m), Config(q + 3, m2), Config(q + 6, Push(m2, 1)), 1, 3, 4);
    } else {
      StepReaches(code, Config(q, m), Config(q + 1, m2));
      DiamondNotTaken(code, q + 1, 0, t + 1, m2);
      Trans(code, Config(q, m), Config(q + 1, m2), Config(q + 6, Push(m2, 0)), 1, 3, 4);
    }
  }

  /** Code without control transfers at the start of the code being run
      takes one step per instruction. */
  lemma StraightPrefix(code: seq<Instr>, pre: seq<Instr>, m: MState, m1: MState)
    requires |pre| <= |code| && code[0..|pre|] == pre
    requires Straight(pre, m) == Some(m1)
    ensures Reaches(code, Config(0, m), Config(|pre|, m1), |pre|) == true
  {
    RunStraight(code, 0, pre, m, m1);
  }

  /** An integer comparison after code that defines no label. */
  lemma CompareDiamond(pre: seq<Instr>, c: Cond, t: nat, m1: MState, a: int, b: int)
    requires NoLabels(pre) && |m1.stack| >= 2
    requires m1.stack[|m1.stack| - 2] == a && m1.stack[|m1.stack| - 1] == b
    ensures Reaches(pre + [IfIcmp(c, t), Iconst(0), Goto(t + 1), Label(t), Iconst(1), Label(t + 1)],
                    Config(|pre|, m1),
                    Config(|pre| + 6, MState(m1.stack[..|m1.stack| - 2] + [Bit(Holds(c, a, b))], m1.locals)), 4) == true
  {
    var code := pre + [IfIcmp(c, t), Iconst(0), Goto(t + 1), Label(t), Iconst(1), Label(t + 1)];
    DiamondAfter(code, pre, |pre|, IfIcmp(c, t), 0, 1, t);
    CompareTail(code, |pre|, c, t, m1, a, b);
  }

  /** Plain code leaving two operands `a` and `b`, followed by an integer
      comparison, leaves 1 if the comparison holds between them and 0
      otherwise, in place of the two operands. */
  lemma CompareAfter(pre: seq<Instr>, c: Cond, f: FrameState, m: MState, m1: MState, a: int, b: int, fuel: nat)
    requires 2 <= f.cur && Plain(pre) && |pre| + 4 <= fuel
    requires Straight(pre, m) == Some(m1) && |m1.stack| >= 2
    requires m1.stack[|m1.stack| - 2] == a && m1.stack[|m1.stack| - 1] == b
    ensures Run(pre + IntCompare(c, f).code, Config(0, m), fuel) ==
            Some(MState(m1.stack[..|m1.stack| - 2] + [Bit(Holds(c, a, b))], m1.locals))
  {
    var t := f.nextLabel;
    var d := IntCompare(c, f).code;
    assert d == [IfIcmp(c, t), Iconst(0), Goto(t + 1), Label(t), Iconst(1), Label(t + 1)];
    var r := MState(m1.stack[..|m1.stack| - 2] + [Bit(Holds(c, a, b))], m1.locals);
    assert (pre + d)[0..|pre|] == pre;
    StraightPrefix(pre + d, pre, m, m1);
    PlainNoLabels(pre);
    CompareDiamond(pre, c, t, m1, a, b);
    FinishAfter(pre + d, Config(0, m), Config(|pre|, m1), r, |pre|, 4, fuel);
  }

  /** Where the instructions of a diamond after plain code are, and where
      its labels are found. */
  lemma DiamondAfter(code: seq<Instr>, pre: seq<Instr>, q: nat, j: Instr, x: nat, y: nat, t: nat)
    requires NoLabels(pre) && !j.Label? && q == |pre|
    requires code == pre + [j, Iconst(x), Goto(t + 1), Label(t), Iconst(y), Label(t + 1)]
    ensures |code| == q + 6 && code[q] == j && code[q + 1] == Iconst(x) && code[q + 2] == Goto(t + 1)
    ensures code[q + 3] == Label(t) && code[q + 4] == Iconst(y) && code[q + 5] == Label(t + 1)
    ensures Find(code, t) == Some(q + 3) && Find(code, t + 1) == Some(q + 5)
  {
    var d := [j, Iconst(x), Goto(t + 1), Label(t), Iconst(y), Label(t + 1)];
    FindAfter(pre, d, t, 3);
    FindAfter(pre, d, t + 1, 5);
  }

  // ---------------------------------------------------------------------
  // Expressions with operands whose code neither jumps nor defines labels
  // (constants, variables, arithmetic on them)
  // ---------------------------------------------------------------------

  lemma PlainCat(a: seq<Instr>, b: seq<Instr>)
    requires Plain(a) && Plain(b)
    ensures Plain(a + b)
  {
    forall i | 0 <= i < |a + b| ensures !(a + b)[i].Label? && !IsJump((a + b)[i]) {
      if i < |a| { assert (a + b)[i] == a[i]; } else { assert (a + b)[i] == b[i - |a|]; }
    }
  }

  /** emitIF_ICMPCOND after the two operands (visitBinaryExpr): the operands
      are evaluated left to right, and the comparison leaves 1 exactly when
      it holds between their values, 0 otherwise. */
  lemma IntCompareComputes(e: Expr, cx: Ctx, f: FrameState, m: MState, m1: MState, m2: MState, v1: int, v2: int, fuel: nat)
    requires e.Binary? && e.bop.ICmp? && WF(e, cx.index.Keys)
    requires var g1 := ExprGen(e.e1, cx, f); var g2 := ExprGen(e.e2, cx, g1.f);
      Plain(g1.code) && Plain(g2.code) && |g1.code| + |g2.code| + 4 <= fuel &&
      Straight(g1.code, m) == Some(m1) && m1.stack == m.stack + [v1] &&
      Straight(g2.code, m1) == Some(m2) && m2.stack == m.stack + [v1, v2]
    ensures Run(BinaryGen(e, cx, f).code, Config(0, m), fuel) ==
            Some(MState(m.stack + [Bit(Holds(e.bop.c, v1, v2))], m2.locals))
  {
    var g1 := ExprGen(e.e1, cx, f);
    var g2 := ExprGen(e.e2, cx, g1.f);
    var pre := g1.code + g2.code;
    PlainCat(g1.code, g2.code);
    StraightCat(g1.code, g2.code, m);
    assert m2.stack[..|m2.stack| - 2] == m.stack;
    CompareAfter(pre, e.bop.c, g2.f, m, m2, v1, v2, fuel);
  }

  /** `!E` (visitUnaryExpr): the operand, `iconst_0` and an `==` comparison,
      which leaves 1 for an operand of 0 and 0 otherwise, so 1 - v on a
      boolean operand v. */
  lemma NotComputes(e: Expr, cx: Ctx, f: FrameState, m: MState, m1: MState, v: int, fuel: nat)
    requires e.Unary? && e.uop == INot && WF(e, cx.index.Keys)
    requires var g := ExprGen(e.e, cx, f);
      Plain(g.code) && |g.code| + 5 <= fuel &&
      Straight(g.code, m) == Some(m1) && m1.stack == m.stack + [v]
    ensures Run(UnaryGen(e, cx, f).code, Config(0, m), fuel) == Some(MState(m.stack + [Bit(v == 0)], m1.locals))
    ensures v == 0 || v == 1 ==> Bit(v == 0) == 1 - v
  {
    var g := ExprGen(e.e, cx, f);
    var pre := g.code + [Iconst(0)];
    PlainCat(g.code, [Iconst(0)]);
    StraightCat(g.code, [Iconst(0)], m);
    var m2 := Push(m1, 0);
    assert Straight(pre, m) == Some(m2);
    assert m2.stack[..|m2.stack| - 2] == m.stack;
    CompareAfter(pre, EQ, Pushed(g.f, 1), m, m2, v, 0, fuel);
  }

  /** An integer-constant instruction pushes the value it stands for. */
  lemma ApplyPushed(i: Instr, m: MState)
    requires PushedInt(i).Some?
    ensures Apply(i, m) == Some(Push(m, PushedInt(i).value))
  {
  }

  /** An integer or boolean literal (visitIntLiteral, visitBooleanLiteral)
      pushes its value, a boolean as 1 or 0. */
  lemma LiteralComputes(e: Expr, cx: Ctx, f: FrameState, m: MState)
    requires e.IntLit? || e.BoolLit?
    ensures Straight(ExprGen(e, cx, f).code, m) == Some(Push(m, if e.IntLit? then e.value else Bit(e.b)))
  {
    var i := ExprGen(e, cx, f).code[0];
    if e.IntLit? {
      IconstPushesValue(e.value);
    }
    ApplyPushed(i, m);
    assert ExprGen(e, cx, f).code[1..] == [];
  }

  /** A local integer or boolean variable (visitVarExpr) pushes the value
      in its slot. */
  lemma LocalLoadComputes(x: Var, cx: Ctx, f: FrameState, m: MState)
    requires x.Local? && x.id in cx.index && IsVarType(x.ty) && KindOf(x.ty) == IntSlot
    requires cx.index[x.id] in m.locals
    ensures Straight(ExprGen(VarExpr(x), cx, f).code, m) == Some(Push(m, m.locals[cx.index[x.id]]))
  {
    var code := ExprGen(VarExpr(x), cx, f).code;
    assert code == [LoadInstr(IntSlot, cx.index[x.id])];
    assert code[1..] == [];
  }

  /** Integer negation (visitUnaryExpr): the operand, then `ineg`, which
      leaves its wrapped negation. */
  lemma NegComputes(e: Expr, cx: Ctx, f: FrameState, m: MState, m1: MState, v: int)
    requires e.Unary? && e.uop == INeg && WF(e, cx.index.Keys)
    requires Straight(ExprGen(e.e, cx, f).code, m) == Some(m1) && m1.stack == m.stack + [v]
    ensures Straight(UnaryGen(e, cx, f).code, m) == Some(MState(m.stack + [ToInt32(-v)], m1.locals))
  {
    var g := ExprGen(e.e, cx, f);
    StraightCat(g.code, [Ineg], m);
    NegOp(m.stack, m1.locals, v);
    assert m1 == MState(m.stack + [v], m1.locals);
  }

  /** `dup` and an integer store: the slot receives the value on top of the
      stack, which stays there. */
  lemma DupStore(s: seq<int>, l: map<nat, int>, v: int, slot: nat)
    ensures Straight([Dup, StoreInstr(IntSlot, slot)], MState(s + [v], l)) == Some(MState(s + [v], l[slot := v]))
  {
    var t := s + [v, v];
    assert (s + [v])[|s|] == v && (s + [v]) + [v] == t;
    assert Apply(Dup, MState(s + [v], l)) == Some(MState(t, l));
    assert t[..|t| - 1] == s + [v];
    assert Apply(StoreInstr(IntSlot, slot), MState(t, l)) == Some(MState(s + [v], l[slot := v]));
    assert [StoreInstr(IntSlot, slot)][1..] == [];
    assert Straight([StoreInstr(IntSlot, slot)], MState(t, l)) == Some(MState(s + [v], l[slot := v]));
    assert [Dup, StoreInstr(IntSlot, slot)][1..] == [StoreInstr(IntSlot, slot)];
  }

  /** An assignment to a local integer or boolean variable
      (visitAssignExpr): the right-hand side, then `dup` and the store, so
      that the slot holds the value and the value is left as the
      assignment's own. */
  lemma AssignComputes(e: Expr, cx: Ctx, f: FrameState, m: MState, m1: MState, v: int)
    requires e.Assign? && e.lhs.VarExpr? && e.lhs.x.Local? && WF(e, cx.index.Keys)
    requires KindOf(TypeOf(e.rhs)) == IntSlot
    requires Straight(ExprGen(e.rhs, cx, f).code, m) == Some(m1) && m1.stack == m.stack + [v]
    ensures Straight(AssignGen(e, cx, f).code, m) ==
            Some(MState(m.stack + [v], m1.locals[cx.index[e.lhs.x.id] := v]))
  {
    var g := ExprGen(e.rhs, cx, f);
    var slot := cx.index[e.lhs.x.id];
    assert AssignGen(e, cx, f).code == g.code + [Dup, StoreInstr(IntSlot, slot)];
    StraightCat(g.code, [Dup, StoreInstr(IntSlot, slot)], m);
    DupStore(m.stack, m1.locals, v, slot);
  }

  /** A value stored into a local slot is the value a later load of the same
      variable pushes: the store and the load of a variable agree on the
      slot and on the instruction family. */
  lemma StoreLoadAgree(x: Var, cx: Ctx, m: MState, v: int)
    requires x.Local? && x.id in cx.index && KindOf(x.ty) == IntSlot
    requires |m.stack| >= 1 && m.stack[|m.stack| - 1] == v
    ensures var after := Apply(StoreVar(x, x.ty, cx), m);
      after.Some? && Apply(LoadVar(x, cx), after.value) == Some(Push(after.value, v)) &&
      Push(after.value, v).stack == m.stack
  {
    var slot := cx.index[x.id];
    assert StoreVar(x, x.ty, cx) == StoreInstr(IntSlot, slot);
    assert LoadVar(x, cx) == LoadInstr(IntSlot, slot);
    var after := MState(m.stack[..|m.stack| - 1], m.locals[slot := v]);
    assert Apply(StoreInstr(IntSlot, slot), m) == Some(after);
    assert Apply(LoadInstr(IntSlot, slot), after) == Some(Push(after, v));
  }

  /** The value of an integer arithmetic operator on Java `int`s. */
  function IntArith(op: BinaryOp, a: int, b: int): (r: Int32)
    requires op == IAdd || op == ISub || op == IMul
    ensures (r - (if op == IAdd then a + b else if op == ISub then a - b else a * b)) % Modulus == 0
  {
    ToInt32(if op == IAdd then a + b else if op == ISub then a - b else a * b)
  }

  /** `iadd` and `imul` replace the two operands on top of the stack by
      their wrapped sum or product. */
  lemma AddMulOp(i: Instr, s: seq<int>, l: map<nat, int>, a: int, b: int)
    requires i == Iadd || i == Imul
    ensures Apply(i, MState(s + [a, b], l)) == Some(MState(s + [ToInt32(if i == Iadd then a + b else a * b)], l))
  {
    var t := s + [a, b];
    assert |t| == |s| + 2 && t[|s|] == a && t[|s| + 1] == b && t[..|s|] == s;
  }

  /** `ineg` negates the operand on top of the stack, wrap-around included. */
  lemma NegOp(s: seq<int>, l: map<nat, int>, b: int)
    ensures Apply(Ineg, MState(s + [b], l)) == Some(MState(s + [ToInt32(-b)], l))
  {
    var t := s + [b];
    assert |t| == |s| + 1 && t[|s|] == b && t[..|s|] == s;
  }

  /** `ineg` then `iadd` replace the two operands on top of the stack by
      their wrapped difference. */
  lemma SubOps(s: seq<int>, l: map<nat, int>, a: int, b: int)
    ensures Straight([Ineg, Iadd], MState(s + [a, b], l)) == Some(MState(s + [ToInt32(a - b)], l))
  {
    var n := ToInt32(-b);
    var m1 := MState(s + [a, n], l);
    NegOp(s + [a], l, b);
    assert s + [a, b] == (s + [a]) + [b] && (s + [a]) + [n] == s + [a, n];
    assert Apply(Ineg, MState(s + [a, b], l)) == Some(m1);
    AddMulOp(Iadd, s, l, a, n);
    NegAddIsSub(a, b);
    assert [Ineg, Iadd][1..] == [Iadd];
    assert Straight([Iadd], m1) == Some(MState(s + [ToInt32(a - b)], l));
  }

  /** The operator instructions of `+`, `-` and `*` replace the two operands
      on top of the stack by the operator's value. */
  lemma ArithOps(op: BinaryOp, s: seq<int>, l: map<nat, int>, a: int, b: int)
    requires op == IAdd || op == ISub || op == IMul
    ensures Straight(ArithInstrs(op), MState(s + [a, b], l)) == Some(MState(s + [IntArith(op, a, b)], l))
  {
    if op == ISub {
      SubOps(s, l, a, b);
    } else {
      AddMulOp(ArithInstrs(op)[0], s, l, a, b);
    }
  }

  /** Two pieces of code and then an arithmetic operator. */
  lemma ArithAfter(c1: seq<Instr>, c2: seq<Instr>, op: BinaryOp, m: MState, m1: MState, m2: MState, a: int, b: int)
    requires op == IAdd || op == ISub || op == IMul
    requires Straight(c1, m) == Some(m1) && Straight(c2, m1) == Some(m2) && m2.stack == m.stack + [a, b]
    ensures Straight(c1 + c2 + ArithInstrs(op), m) == Some(MState(m.stack + [IntArith(op, a, b)], m2.locals))
  {
    StraightCat(c1, c2, m);
    StraightCat(c1 + c2, ArithInstrs(op), m);
    ArithOps(op, m.stack, m2.locals, a, b);
  }

  /** `+`, `-` and `*` on integers (visitBinaryExpr): the operands left to
      right, then the operator; subtraction, emitted as `ineg` and `iadd`,
      computes the difference, wrap-around included. */
  lemma ArithComputes(e: Expr, cx: Ctx, f: FrameState, m: MState, m1: MState, m2: MState, v1: int, v2: int)
    requires e.Binary? && (e.bop == IAdd || e.bop == ISub || e.bop == IMul) && WF(e, cx.index.Keys)
    requires var g1 := ExprGen(e.e1, cx, f); var g2 := ExprGen(e.e2, cx, g1.f);
      Straight(g1.code, m) == Some(m1) && m1.stack == m.stack + [v1] &&
      Straight(g2.code, m1) == Some(m2) && m2.stack == m.stack + [v1, v2]
    ensures Straight(BinaryGen(e, cx, f).code, m) == Some(MState(m.stack + [IntArith(e.bop, v1, v2)], m2.locals))
  {
    var g1 := ExprGen(e.e1, cx, f);
    var g2 := ExprGen(e.e2, cx, g1.f);
    ArithAfter(g1.code, g2.code, e.bop, m, m1, m2, v1, v2);
  }

  // ---------------------------------------------------------------------
  // Short-circuit && and || (emitRELATION)
  // ---------------------------------------------------------------------

  /** The last six instructions of `code`, from position `q`: a test
      against zero jumping to label `s`, then a diamond pushing `x` when the
      test fails and `y` when it holds. */
  ghost predicate ZeroDiamond(code: seq<Instr>, q: nat, cond: Cond, s: nat, x: nat, y: nat) {
    q + 6 == |code| && x <= 5 && y <= 5 &&
    code[q] == IfZ(cond, s) && code[q + 1] == Iconst(x) && code[q + 2] == Goto(s + 1) &&
    code[q + 3] == Label(s) && code[q + 4] == Iconst(y) && code[q + 5] == Label(s + 1) &&
    Find(code, s) == Some(q + 3) && Find(code, s + 1) == Some(q + 5)
  }

  /** A test against zero that holds jumps to the first label of the
      diamond, which pushes its second constant. */
  lemma ZeroTaken(code: seq<Instr>, p: nat, q: nat, cond: Cond, s: nat, x: nat, y: nat, base: seq<int>, l: map<nat, int>, v: int)
    requires p < |code| && code[p] == IfZ(cond, s) && Holds(cond, v, 0)
    requires ZeroDiamond(code, q, cond, s, x, y) == true
    ensures Reaches(code, Config(p, MState(base + [v], l)), Config(q + 6, MState(base + [y], l)), 4) == true
  {
    var m := MState(base + [v], l);
    var mp := MState(base, l);
    assert m.stack[..|m.stack| - 1] == base;
    StepReaches(code, Config(p, m), Config(q + 3, mp));
    DiamondTaken(code, q + 3, y, mp);
    Trans(code, Config(p, m), Config(q + 3, mp), Config(q + 6, Push(mp, y)), 1, 3, 4);
  }

  /** The diamond after a value: it leaves the second constant when the
      test holds for the value on top of the stack, the first otherwise, in
      its place. */
  lemma ZeroTail(code: seq<Instr>, q: nat, cond: Cond, s: nat, x: nat, y: nat, base: seq<int>, l: map<nat, int>, v: int)
    requires ZeroDiamond(code, q, cond, s, x, y) == true
    ensures Reaches(code, Config(q, MState(base + [v], l)), Config(q + 6, MState(base + [if Holds(cond, v, 0) then y else x], l)), 4) == true
  {
    var m := MState(base + [v], l);
    var mp := MState(base, l);
    if Holds(cond, v, 0) {
      ZeroTaken(code, q, q, cond, s, x, y, base, l, v);
    } else {
      assert m.stack[..|m.stack| - 1] == base;
      StepReaches(code, Config(q, m), Config(q + 1, mp));
      DiamondNotTaken(code, q + 1, x, s + 1, mp);
      Trans(code, Config(q, m), Config(q + 1, mp), Config(q + 6, Push(mp, x)), 1, 3, 4);
    }
  }

  /** The value `&&` (`or` false) or `||` (`or` true) gives two integer
      operands, each true when it is not zero. */
  function LogicValue(or: bool, v1: int, v2: int): (r: int)
    ensures r == 0 || r == 1
    ensures or ==> (r == 1 <==> v1 != 0 || v2 != 0)
    ensures !or ==> (r == 1 <==> v1 != 0 && v2 != 0)
  {
    Bit(if or then v1 != 0 || v2 != 0 else v1 != 0 && v2 != 0)
  }

  /** The test emitRELATION places after each operand: a jump to the label
      yielding the deciding value, taken on true for `||` and on false for
      `&&`. */
  function LogicCond(or: bool): Cond {
    if or then NE else EQ
  }

  /** The code emitRELATION lays out around two operands. */
  function LogicCode(c1: seq<Instr>, c2: seq<Instr>, or: bool, s: nat): seq<Instr> {
    var j := IfZ(LogicCond(or), s);
    c1 + [j] + c2 + [j, Iconst(if or then 0 else 1), Goto(s + 1), Label(s), Iconst(if or then 1 else 0), Label(s + 1)]
  }

  /** Where the pieces of the short-circuit code are, and where its labels
      are found. */
  lemma LogicLayout(code: seq<Instr>, c1: seq<Instr>, c2: seq<Instr>, or: bool, s: nat, p: nat, q: nat)
    requires Plain(c1) && Plain(c2)
    requires code == LogicCode(c1, c2, or, s) && p == |c1| && q == p + 1 + |c2|
    ensures |code| == q + 6 && code[p] == IfZ(LogicCond(or), s)
    ensures code[0..p] == c1 && code[p + 1..q] == c2
    ensures ZeroDiamond(code, q, LogicCond(or), s, if or then 0 else 1, if or then 1 else 0) == true
  {
    var j := IfZ(LogicCond(or), s);
    var pre := c1 + [j] + c2;
    var d := [j, Iconst(if or then 0 else 1), Goto(s + 1), Label(s), Iconst(if or then 1 else 0), Label(s + 1)];
    assert code == pre + d;
    LogicPrefix(pre, c1, j, c2, d);
    ZeroDiamondAfter(code, pre, q, LogicCond(or), s, if or then 0 else 1, if or then 1 else 0);
  }

  /** A test against zero and its diamond after code that defines no label. */
  lemma ZeroDiamondAfter(code: seq<Instr>, pre: seq<Instr>, q: nat, cond: Cond, s: nat, x: nat, y: nat)
    requires NoLabels(pre) && q == |pre| && x <= 5 && y <= 5
    requires code == pre + [IfZ(cond, s), Iconst(x), Goto(s + 1), Label(s), Iconst(y), Label(s + 1)]
    ensures ZeroDiamond(code, q, cond, s, x, y) == true
  {
    DiamondAfter(code, pre, q, IfZ(cond, s), x, y, s);
  }

  /** The operands' code and the first test, in front of the diamond. */
  lemma LogicPrefix(pre: seq<Instr>, c1: seq<Instr>, j: Instr, c2: seq<Instr>, d: seq<Instr>)
    requires Plain(c1) && Plain(c2) && !j.Label? && pre == c1 + [j] + c2
    ensures NoLabels(pre)
    ensures (pre + d)[0..|c1|] == c1 && (pre + d)[|c1|] == j && (pre + d)[|c1| + 1..|c1| + 1 + |c2|] == c2
  {
    PlainNoLabels(c1);
    PlainNoLabels(c2);
    forall k | 0 <= k < |pre| ensures !pre[k].Label? {
      if k < |c1| { assert pre[k] == c1[k]; }
      else if k > |c1| { assert pre[k] == c2[k - |c1| - 1]; }
    }
    assert (pre + d)[0..|c1|] == pre[0..|c1|] == c1;
    assert (pre + d)[|c1| + 1..|c1| + 1 + |c2|] == pre[|c1| + 1..|c1| + 1 + |c2|] == c2;
  }

  /** Falling through the test after the first operand, then going on as
      from the next instruction. */
  lemma FallThrough(code: seq<Instr>, p: nat, cond: Cond, s: nat, base: seq<int>, l: map<nat, int>, c': Config, k: nat, v1: int)
    requires p < |code| && code[p] == IfZ(cond, s) && !Holds(cond, v1, 0)
    requires Reaches(code, Config(p + 1, MState(base, l)), c', k) == true
    ensures Reaches(code, Config(p, MState(base + [v1], l)), c', k + 1) == true
  {
    var m1 := MState(base + [v1], l);
    assert m1.stack[..|m1.stack| - 1] == base;
    assert Step(code, Config(p, m1)) == Some(Config(p + 1, MState(base, l)));
  }

  /** The first operand does not decide: its test falls through, the second
      operand runs, and the diamond tests its value. */
  lemma SecondDecides(code: seq<Instr>, p: nat, q: nat, k: nat, cond: Cond, s: nat, x: nat, y: nat,
                      base: seq<int>, l1: map<nat, int>, m2: MState, r: MState, v1: int, v2: int)
    requires q == p + 1 + k
    requires p < |code| && code[p] == IfZ(cond, s) && ZeroDiamond(code, q, cond, s, x, y) == true
    requires !Holds(cond, v1, 0)
    requires Reaches(code, Config(p + 1, MState(base, l1)), Config(q, m2), k) == true
    requires m2 == MState(base + [v2], m2.locals)
    requires r == MState(base + [if Holds(cond, v2, 0) then y else x], m2.locals)
    ensures Reaches(code, Config(p, MState(base + [v1], l1)), Config(q + 6, r), k + 1 + 4) == true
  {
    FallThrough(code, p, cond, s, base, l1, Config(q, m2), k, v1);
    ZeroTail(code, q, cond, s, x, y, base, m2.locals, v2);
    Trans(code, Config(p, MState(base + [v1], l1)), Config(q, m2), Config(q + 6, r), k + 1, 4, k + 1 + 4);
  }

  /** The first operand decides `&&` or `||`: its test jumps straight to
      the label yielding the deciding value. */
  lemma LogicShort(code: seq<Instr>, p: nat, q: nat, or: bool, s: nat, base: seq<int>,
                   m: MState, l1: map<nat, int>, r: MState, v1: int)
    requires p < |code| && code[p] == IfZ(LogicCond(or), s) && or == (v1 != 0)
    requires ZeroDiamond(code, q, LogicCond(or), s, if or then 0 else 1, if or then 1 else 0) == true
    requires Reaches(code, Config(0, m), Config(p, MState(base + [v1], l1)), p) == true
    requires r == MState(base + [if or then 1 else 0], l1)
    ensures Reaches(code, Config(0, m), Config(q + 6, r), p + 4) == true
  {
    ZeroTaken(code, p, q, LogicCond(or), s, if or then 0 else 1, if or then 1 else 0, base, l1, v1);
    Trans(code, Config(0, m), Config(p, MState(base + [v1], l1)), Config(q + 6, r), p, 4, p + 4);
  }

  /** The first operand does not decide `&&` or `||`: the second operand's
      value does. */
  lemma LogicLong(code: seq<Instr>, p: nat, q: nat, k: nat, or: bool, s: nat, base: seq<int>,
                  m: MState, l1: map<nat, int>, m2: MState, r: MState, v1: int, v2: int)
    requires q == p + 1 + k && or != (v1 != 0)
    requires p < |code| && code[p] == IfZ(LogicCond(or), s)
    requires ZeroDiamond(code, q, LogicCond(or), s, if or then 0 else 1, if or then 1 else 0) == true
    requires Reaches(code, Config(0, m), Config(p, MState(base + [v1], l1)), p) == true
    requires Reaches(code, Config(p + 1, MState(base, l1)), Config(q, m2), k) == true
    requires m2 == MState(base + [v2], m2.locals)
    requires r == MState(base + [Bit(v2 != 0)], m2.locals)
    ensures Reaches(code, Config(0, m), Config(q + 6, r), p + (k + 1 + 4)) == true
  {
    var cond := LogicCond(or);
    assert Holds(cond, v2, 0) == (or == (v2 != 0));
    SecondDecides(code, p, q, k, cond, s, if or then 0 else 1, if or then 1 else 0, base, l1, m2, r, v1, v2);
    Trans(code, Config(0, m), Config(p, MState(base + [v1], l1)), Config(q + 6, r), p, k + 1 + 4, p + (k + 1 + 4));
  }

  /** Short circuit over two plain operands: the first operand decides when
      it is true for `||` or false for `&&`, and then the second is never
      evaluated; otherwise the second operand's value decides. */
  lemma LogicAfter(c1: seq<Instr>, c2: seq<Instr>, or: bool, s: nat, m: MState, m1: MState, m2: MState, v1: int, v2: int, fuel: nat)
    requires Plain(c1) && Plain(c2) && |c1| + |c2| + 5 <= fuel
    requires Straight(c1, m) == Some(m1) && m1.stack == m.stack + [v1]
    requires or == (v1 != 0) || (Straight(c2, MState(m.stack, m1.locals)) == Some(m2) && m2.stack == m.stack + [v2])
    ensures Run(LogicCode(c1, c2, or, s), Config(0, m), fuel) ==
            Some(MState(m.stack + [LogicValue(or, v1, v2)], if or == (v1 != 0) then m1.locals else m2.locals))
  {
    var code := LogicCode(c1, c2, or, s);
    assert m1 == MState(m.stack + [v1], m1.locals);
    if or == (v1 != 0) {
      LogicRunShort(code, c1, c2, or, s, |c1|, |c1| + 1 + |c2|, m, m1, MState(m.stack + [if or then 1 else 0], m1.locals), v1, fuel);
    } else {
      assert m2 == MState(m.stack + [v2], m2.locals);
      LogicRunLong(code, c1, c2, or, s, |c1|, |c1| + 1 + |c2|, m, m1, m2, MState(m.stack + [Bit(v2 != 0)], m2.locals), v1, v2, fuel);
    }
  }

  /** The run of the short-circuit code when the first operand decides. */
  lemma LogicRunShort(code: seq<Instr>, c1: seq<Instr>, c2: seq<Instr>, or: bool, s: nat, p: nat, q: nat,
                      m: MState, m1: MState, r: MState, v1: int, fuel: nat)
    requires Plain(c1) && Plain(c2) && p + 4 <= fuel
    requires code == LogicCode(c1, c2, or, s) && p == |c1| && q == p + 1 + |c2|
    requires Straight(c1, m) == Some(m1) && m1 == MState(m.stack + [v1], m1.locals) && or == (v1 != 0)
    requires r == MState(m.stack + [if or then 1 else 0], m1.locals)
    ensures Run(code, Config(0, m), fuel) == Some(r)
  {
    LogicLayout(code, c1, c2, or, s, p, q);
    StraightPrefix(code, c1, m, m1);
    LogicShort(code, p, q, or, s, m.stack, m, m1.locals, r, v1);
    Finish(code, Config(0, m), q + 6, r, p + 4, fuel);
  }

  /** The run of the short-circuit code when the second operand decides. */
  lemma LogicRunLong(code: seq<Instr>, c1: seq<Instr>, c2: seq<Instr>, or: bool, s: nat, p: nat, q: nat,
                     m: MState, m1: MState, m2: MState, r: MState, v1: int, v2: int, fuel: nat)
    requires Plain(c1) && Plain(c2) && p + (|c2| + 1 + 4) <= fuel
    requires code == LogicCode(c1, c2, or, s) && p == |c1| && q == p + 1 + |c2|
    requires Straight(c1, m) == Some(m1) && m1 == MState(m.stack + [v1], m1.locals) && or != (v1 != 0)
    requires Straight(c2, MState(m.stack, m1.locals)) == Some(m2) && m2 == MState(m.stack + [v2], m2.locals)
    requires r == MState(m.stack + [Bit(v2 != 0)], m2.locals)
    ensures Run(code, Config(0, m), fuel) == Some(r)
  {
    LogicLayout(code, c1, c2, or, s, p, q);
    LogicRunLongAt(code, c1, c2, or, s, p, q, m, m1, m2, r, v1, v2, fuel);
  }

  /** LogicRunLong on the layout of the short-circuit code alone. */
  lemma LogicRunLongAt(code: seq<Instr>, c1: seq<Instr>, c2: seq<Instr>, or: bool, s: nat, p: nat, q: nat,
                       m: MState, m1: MState, m2: MState, r: MState, v1: int, v2: int, fuel: nat)
    requires p + (|c2| + 1 + 4) <= fuel && p == |c1| && q == p + 1 + |c2|
    requires |code| == q + 6 && code[p] == IfZ(LogicCond(or), s)
    requires code[0..p] == c1 && code[p + 1..q] == c2
    requires ZeroDiamond(code, q, LogicCond(or), s, if or then 0 else 1, if or then 1 else 0) == true
    requires Straight(c1, m) == Some(m1) && m1 == MState(m.stack + [v1], m1.locals) && or != (v1 != 0)
    requires Straight(c2, MState(m.stack, m1.locals)) == Some(m2) && m2 == MState(m.stack + [v2], m2.locals)
    requires r == MState(m.stack + [Bit(v2 != 0)], m2.locals)
    ensures Run(code, Config(0, m), fuel) == Some(r)
  {
    StraightPrefix(code, c1, m, m1);
    RunStraight(code, p + 1, c2, MState(m.stack, m1.locals), m2);
    LogicLong(code, p, q, |c2|, or, s, m.stack, m, m1.locals, m2, r, v1, v2);
    Finish(code, Config(0, m), q + 6, r, p + (|c2| + 1 + 4), fuel);
  }

  /** `&&` and `||` (emitRELATION, visitBinaryExpr) over operands whose code
      neither jumps nor defines labels: the value is the operator's on the
      two operands' truth values, and the second operand is evaluated (its
      stores take effect) exactly when the first does not decide. */
  lemma ShortCircuitComputes(e: Expr, cx: Ctx, f: FrameState, m: MState, m1: MState, m2: MState, v1: int, v2: int, fuel: nat)
    requires e.Binary? && (e.bop == And || e.bop == Or) && WF(e, cx.index.Keys)
    requires var g1 := ExprGen(e.e1, cx, WithNewLabel(WithNewLabel(f)));
      var g2 := ExprGen(e.e2, cx, Popped(g1.f, 1));
      Plain(g1.code) && Plain(g2.code) && |g1.code| + |g2.code| + 5 <= fuel &&
      Straight(g1.code, m) == Some(m1) && m1.stack == m.stack + [v1] &&
      ((e.bop == Or) == (v1 != 0) ||
       (Straight(g2.code, MState(m.stack, m1.locals)) == Some(m2) && m2.stack == m.stack + [v2]))
    ensures Run(LogicGen(e, cx, f).code, Config(0, m), fuel) ==
            Some(MState(m.stack + [LogicValue(e.bop == Or, v1, v2)], if (e.bop == Or) == (v1 != 0) then m1.locals else m2.locals))
  {
    var g1 := ExprGen(e.e1, cx, WithNewLabel(WithNewLabel(f)));
    var g2 := ExprGen(e.e2, cx, Popped(g1.f, 1));
    LogicGenCode(e, cx, f, g1, g2);
    LogicAfter(g1.code, g2.code, e.bop == Or, f.nextLabel, m, m1, m2, v1, v2, fuel);
  }

  /** The code of `&&` and `||` is the short-circuit layout around its
      operands' code. */
  lemma LogicGenCode(e: Expr, cx: Ctx, f: FrameState, g1: Gen, g2: Gen)
    requires e.Binary? && (e.bop == And || e.bop == Or) && WF(e, cx.index.Keys)
    requires g1 == ExprGen(e.e1, cx, WithNewLabel(WithNewLabel(f)))
    requires g2 == ExprGen(e.e2, cx, Popped(g1.f, 1))
    ensures LogicGen(e, cx, f).code == LogicCode(g1.code, g2.code, e.bop == Or, f.nextLabel)
  {
  }

  // ---------------------------------------------------------------------
  // Whole integer expressions
  // ---------------------------------------------------------------------

  /** An integer expression built from integer literals, local integer
      variables whose slots hold values in `l`, negation and `+ - *`: its
      code is straight-line. */
  predicate IntTerm(e: Expr, index: map<nat, nat>, l: map<nat, int>)
    decreases e
  {
    match e
    case IntLit(_) => true
    case VarExpr(x) => x.Local? && x.ty == IntType && x.id in index && index[x.id] in l
    case Unary(op, a) => op == INeg && IntTerm(a, index, l)
    case Binary(op, a, b) => (op == IAdd || op == ISub || op == IMul) && IntTerm(a, index, l) && IntTerm(b, index, l)
    case _ => false
  }

  /** The value VC gives such an expression, with Java `int` arithmetic;
      a variable's value is the one in its slot. */
  function IntValue(e: Expr, index: map<nat, nat>, l: map<nat, int>): (v: int)
    requires IntTerm(e, index, l)
    decreases e
  {
    match e
    case IntLit(v) => v
    case VarExpr(x) => l[index[x.id]]
    case Unary(_, a) => ToInt32(-IntValue(a, index, l))
    case Binary(op, a, b) => IntArith(op, IntValue(a, index, l), IntValue(b, index, l))
  }

  /** The code generated for an integer expression of literals, local
      variables, negation and `+ - *` pushes the expression's value and
      changes nothing else: by induction over the expression, each operator
      case being the lemma for that operator. */
  lemma {:induction false} IntTermComputes(e: Expr, cx: Ctx, f: FrameState, m: MState)
    requires IntTerm(e, cx.index, m.locals) && WF(e, cx.index.Keys)
    ensures Straight(ExprGen(e, cx, f).code, m) == Some(Push(m, IntValue(e, cx.index, m.locals)))
    decreases e
  {
    match e
    case IntLit(_) => LiteralComputes(e, cx, f, m);
    case VarExpr(x) => LocalLoadComputes(x, cx, f, m);
    case Unary(_, _) => NegTermComputes(e, cx, f, m);
    case Binary(_, _, _) => BinaryTermComputes(e, cx, f, m);
  }

  lemma {:induction false} NegTermComputes(e: Expr, cx: Ctx, f: FrameState, m: MState)
    requires e.Unary? && IntTerm(e, cx.index, m.locals) && WF(e, cx.index.Keys)
    ensures Straight(ExprGen(e, cx, f).code, m) == Some(Push(m, IntValue(e, cx.index, m.locals)))
    decreases e, 0
  {
    var v := IntValue(e.e, cx.index, m.locals);
    assert e.uop == INeg && IntValue(e, cx.index, m.locals) == ToInt32(-v);
    IntTermComputes(e.e, cx, f, m);
    NegComputes(e, cx, f, m, Push(m, v), v);
    assert ExprGen(e, cx, f) == UnaryGen(e, cx, f);
  }

  lemma {:induction false} BinaryTermComputes(e: Expr, cx: Ctx, f: FrameState, m: MState)
    requires e.Binary? && IntTerm(e, cx.index, m.locals) && WF(e, cx.index.Keys)
    ensures Straight(ExprGen(e, cx, f).code, m) == Some(Push(m, IntValue(e, cx.index, m.locals)))
    decreases e, 0
  {
    var v1 := IntValue(e.e1, cx.index, m.locals);
    var v2 := IntValue(e.e2, cx.index, m.locals);
    var g1 := ExprGen(e.e1, cx, f);
    var m1 := Push(m, v1);
    IntTermComputes(e.e1, cx, f, m);
    IntTermComputes(e.e2, cx, g1.f, m1);
    var m2 := Push(m1, v2);
    assert m2.stack == m.stack + [v1, v2];
    ArithComputes(e, cx, f, m, m1, m2, v1, v2);
  }
}
