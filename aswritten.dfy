/** The emitter as written, at the three places where it departs from what
    it evidently intends. Each departure is modelled as the code does it and
    shown on an input; the rest of the model (module `Translate` and the
    class `CodeGen.Emitter`) uses the corrected definition, whose intended
    property is proved here beside it. */
module AsWritten {
  import opened Wrappers
  import opened Syntax
  import opened Jvm
  import opened Select
  import opened Frames
  import opened Translate
  import opened Machine
  import opened Properties

  // ---------------------------------------------------------------------
  // `return;` in a function other than main (visitReturnStmt)
  // ---------------------------------------------------------------------

  /** visitReturnStmt as written: outside main the value, then a return
      chosen by the value's type; a `return;` has no value and no type, and
      gets no return instruction at all. */
  function ReturnAsWritten(e: Expr, cls: string, index: map<nat, nat>, f: FrameState): (r: SGen)
    requires WF(e, index.Keys) && (e == EmptyExpr || IsScalar(TypeOf(e)))
    ensures r.index == index
  {
    if f.main then SGen([ReturnVoid], f, index)
    else
      var g := ExprGen(e, Ctx(cls, index), f);
      var t := TypeOf(e);
      if t == IntType || t == BooleanType then SGen(g.code + [Ireturn], Popped(g.f, 1), index)
      else if t == FloatType then SGen(g.code + [Freturn], Popped(g.f, 1), index)
      else SGen(g.code, g.f, index)
  }

  predicate IsReturn(i: Instr) {
    i == ReturnVoid || i == Ireturn || i == Freturn
  }

  /** As written, `return;` in a void function other than main emits
      nothing, so control runs on into the statements after it; the
      corrected translation emits `return`. */
  lemma BareReturnFallsThrough(cls: string, index: map<nat, nat>, f: FrameState)
    requires !f.main
    ensures ReturnAsWritten(EmptyExpr, cls, index, f).code == []
    ensures ReturnGen(EmptyExpr, cls, index, f).code == [ReturnVoid]
  {
  }

  /** The corrected translation of every return statement ends in a return
      instruction: `return` in main and for `return;`, otherwise `ireturn`
      for an integer or boolean value and `freturn` for a float. */
  lemma ReturnEndsMethod(e: Expr, cls: string, index: map<nat, nat>, f: FrameState)
    requires WF(e, index.Keys) && (e == EmptyExpr || IsScalar(TypeOf(e)))
    ensures var c := ReturnGen(e, cls, index, f).code;
      |c| > 0 && IsReturn(c[|c| - 1]) &&
      c[|c| - 1] == (if f.main || e == EmptyExpr then ReturnVoid
                     else if TypeOf(e) == FloatType then Freturn else Ireturn)
  {
    if !f.main && e != EmptyExpr {
      var g := ExprGen(e, Ctx(cls, index), f);
      var t := TypeOf(e);
      assert t == IntType || t == FloatType || t == BooleanType;
      if t == FloatType {
        assert ReturnGen(e, cls, index, f).code == g.code + [Freturn];
      } else {
        assert ReturnGen(e, cls, index, f).code == g.code + [Ireturn];
      }
    }
  }

  // ---------------------------------------------------------------------
  // Stores (emitISTORE, emitFSTORE) and assignments (visitAssignExpr)
  // ---------------------------------------------------------------------

  /** emitISTORE/emitFSTORE as written: the slot of the variable's
      declaration, read through a cast to a local-variable declaration when
      it is not a parameter. The declaration of a global is neither, so the
      cast fails with a `ClassCastException` (none here). */
  function StoreVarAsWritten(x: Var, t: Type, cx: Ctx): (r: Option<Instr>)
    requires x.Global? || x.id in cx.index
  {
    if x.Global? then None else Some(StoreInstr(KindOf(t), cx.index[x.id]))
  }

  /** As written, an assignment to a global scalar aborts the translation;
      the corrected store is `putstatic` of the global's field. On locals
      and parameters the two agree. */
  lemma GlobalStoreFails(x: Var, t: Type, cx: Ctx)
    requires x.Global? || x.id in cx.index
    ensures x.Global? ==> StoreVarAsWritten(x, t, cx) == None && StoreVar(x, t, cx).Putstatic?
    ensures x.Local? ==> StoreVarAsWritten(x, t, cx) == Some(StoreVar(x, t, cx))
  {
  }

  /** The corrected store to a global scalar writes the very field, with the
      very descriptor, that a use of the global reads. */
  lemma GlobalStoreLoadSameField(x: Var, cx: Ctx)
    requires x.Global? && IsScalar(x.ty)
    ensures LoadVar(x, cx) == Getstatic(cx.cls, x.name, JavaType(x.ty))
    ensures StoreVar(x, x.ty, cx) == Putstatic(cx.cls, x.name, JavaType(x.ty))
  {
  }

  /** visitAssignExpr as written: the right-hand side, then the store, which
      consumes the value, so nothing is left for the assignment although it
      is an expression of its left side's type. An assignment nested as the
      right-hand side of another leaves nothing for the outer store: the
      outer pop then goes below what was pushed, which the frame treats as
      its fatal internal error (none here), as it does the failed cast of a
      store to a global. */
  function AssignAsWritten(e: Expr, cx: Ctx, f: FrameState): (r: Option<Gen>)
    requires e.Assign? && WF(e, cx.index.Keys)
    ensures r.Some? ==> r.value.f.cur <= f.cur
    decreases e, 1
  {
    match e.lhs
    case ArrayExpr(x, i) =>
      assert WF(e.lhs, cx.index.Keys);
      var a := ArrayRefGen(x, i, cx, f);
      (match RhsAsWritten(e.rhs, cx, a.f)
       case None => None
       case Some(g) =>
         if g.f.cur < 3 then None
         else Some(Gen(a.code + g.code + [ArrayStoreInstr(TypeOf(e.rhs))], Popped(g.f, 3))))
    case VarExpr(x) =>
      match (RhsAsWritten(e.rhs, cx, f), StoreVarAsWritten(x, TypeOf(e.rhs), cx))
      case (Some(g), Some(store)) =>
        if g.f.cur < 1 then None else Some(Gen(g.code + [store], Popped(g.f, 1)))
      case _ => None
  }

  /** The right-hand side of an assignment as written: a nested assignment
      as written, anything else as translated. */
  function RhsAsWritten(e: Expr, cx: Ctx, f: FrameState): (r: Option<Gen>)
    requires WF(e, cx.index.Keys)
    ensures r.Some? ==> r.value.f.cur <= f.cur + Width(TypeOf(e))
    decreases e, 2
  {
    if e.Assign? then AssignAsWritten(e, cx, f) else Some(ExprGen(e, cx, f))
  }

  /** As written, an assignment to a local or an array element leaves the
      stack as deep as before it; the corrected translation leaves the
      assigned value, one entry deeper. */
  lemma AssignLeavesNoValue(e: Expr, cx: Ctx, f: FrameState)
    requires e.Assign? && WF(e, cx.index.Keys) && !e.rhs.Assign?
    requires e.lhs.VarExpr? ==> e.lhs.x.Local?
    ensures AssignAsWritten(e, cx, f).Some? && AssignAsWritten(e, cx, f).value.f.cur == f.cur
    ensures AssignGen(e, cx, f).f.cur == f.cur + 1
  {
    assert IsScalar(TypeOf(e.rhs));
  }

  /** An integer store on its own: the slot receives the value on top of
      the stack, which is popped. */
  lemma StoreOnly(s: seq<int>, l: map<nat, int>, v: int, slot: nat)
    ensures Straight([StoreInstr(IntSlot, slot)], MState(s + [v], l)) == Some(MState(s, l[slot := v]))
  {
    var t := s + [v];
    assert |t| == |s| + 1 && t[|s|] == v && t[..|s|] == s;
  }

  /** Run on the machine, the assignment as written to a local integer
      variable stores the value and leaves the stack as it found it. */
  lemma AssignAsWrittenRuns(e: Expr, cx: Ctx, f: FrameState, m: MState, m1: MState, v: int)
    requires e.Assign? && e.lhs.VarExpr? && e.lhs.x.Local? && WF(e, cx.index.Keys) && !e.rhs.Assign?
    requires KindOf(TypeOf(e.rhs)) == IntSlot
    requires Straight(ExprGen(e.rhs, cx, f).code, m) == Some(m1) && m1.stack == m.stack + [v]
    ensures AssignAsWritten(e, cx, f).Some?
    ensures Straight(AssignAsWritten(e, cx, f).value.code, m) ==
            Some(MState(m.stack, m1.locals[cx.index[e.lhs.x.id] := v]))
  {
    var g := ExprGen(e.rhs, cx, f);
    var store := StoreInstr(IntSlot, cx.index[e.lhs.x.id]);
    AssignLeavesNoValue(e, cx, f);
    assert AssignAsWritten(e, cx, f).value.code == g.code + [store];
    StraightCat(g.code, [store], m);
    assert m1 == MState(m.stack + [v], m1.locals);
    StoreOnly(m.stack, m1.locals, v, cx.index[e.lhs.x.id]);
  }

  /** `x = y = 1` with `x` and `y` local integers, on an empty stack: as
      written the outer store has nothing to store and the frame's pop
      fails; the corrected translation leaves 1 and sets both slots. */
  lemma ChainedAssignUnderflows(x: nat, y: nat, cx: Ctx, f: FrameState, l: map<nat, int>)
    requires x in cx.index && y in cx.index && f.cur == 0
    ensures var e := Assign(VarExpr(Local(x, IntType)), Assign(VarExpr(Local(y, IntType)), IntLit(1)));
      WF(e, cx.index.Keys) && AssignAsWritten(e, cx, f) == None &&
      Straight(AssignGen(e, cx, f).code, MState([], l)) ==
        Some(MState([1], l[cx.index[y] := 1][cx.index[x] := 1]))
  {
    var inner := Assign(VarExpr(Local(y, IntType)), IntLit(1));
    var e := Assign(VarExpr(Local(x, IntType)), inner);
    assert TypeOf(IntLit(1)) == IntType;
    assert WF(inner, cx.index.Keys);
    assert WF(e, cx.index.Keys);
    AssignLeavesNoValue(inner, cx, f);
    var m := MState([], l);
    LiteralComputes(IntLit(1), cx, f, m);
    var m1 := Push(m, 1);
    var m2 := MState([1], l[cx.index[y] := 1]);
    AssignComputes(inner, cx, f, m, m1, 1);
    assert MState(m.stack + [1], m1.locals[cx.index[y] := 1]) == m2;
    assert ExprGen(inner, cx, f) == AssignGen(inner, cx, f);
    AssignComputes(e, cx, f, m, m2, 1);
  }
}
