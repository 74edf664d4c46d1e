/** Local-variable slots: every slot the translation of a function hands
    to a parameter or a local declaration lies between the slots the
    method reserves for itself and the `.limit locals` value written after
    its body, and a function's parameters take the slots after `this` in
    order. */
module Slots {
  import opened Syntax
  import opened Jvm
  import opened Frames
  import opened Translate

  /** Every slot that `after` gives and `before` did not (to a new id, or
      anew to an old one) lies in `[lo, hi)`. */
  predicate NewSlots(before: map<nat, nat>, after: map<nat, nat>, lo: nat, hi: nat) {
    forall id :: id in after && (id !in before || after[id] != before[id]) ==> lo <= after[id] < hi
  }

  lemma NewSlotsTrans(a: map<nat, nat>, b: map<nat, nat>, c: map<nat, nat>, lo: nat, m: nat, hi: nat)
    requires NewSlots(a, b, lo, m) && NewSlots(b, c, m, hi) && lo <= m <= hi
    ensures NewSlots(a, c, lo, hi)
  {
  }

  // ---------------------------------------------------------------------
  // Parameters and declarations
  // ---------------------------------------------------------------------

  /** visitParaDecl over a list: the k-th parameter gets the k-th slot from
      the counter (the last of several with one id wins), other entries are
      kept, and nothing outside the slots handed out is given. */
  lemma {:induction false} ParamSlots(ps: seq<Param>, index: map<nat, nat>, f: FrameState)
    ensures var r := ParamsGen(ps, index, f);
      (forall k :: 0 <= k < |ps| && LastWithId(ps, k) ==> r.index[ps[k].id] == f.nextIndex + k) &&
      (forall id :: id in index && id !in ParamIds(ps) ==> r.index[id] == index[id]) &&
      NewSlots(index, r.index, f.nextIndex, f.nextIndex + |ps|)
    decreases ps
  {
    if ps != [] {
      var ix := index[ps[0].id := f.nextIndex];
      var r := ParamsGen(ps[1..], ix, WithNewIndex(f));
      ParamSlots(ps[1..], ix, WithNewIndex(f));
      assert forall k :: 0 < k < |ps| && LastWithId(ps, k) ==> LastWithId(ps[1..], k - 1);
      ParamIdsOnly(ps[1..], ps[0].id);
      NewSlotsTrans(index, ix, r.index, f.nextIndex, f.nextIndex + 1, f.nextIndex + |ps|);
    }
  }

  lemma LocalDeclSlots(d: LocalDecl, cls: string, index: map<nat, nat>, f: FrameState)
    requires DeclOk(d, index.Keys + {d.id})
    ensures NewSlots(index, LocalDeclGen(d, cls, index, f).index, f.nextIndex, f.nextIndex + 1)
  {
  }

  lemma {:induction false} DeclsSlots(ds: seq<LocalDecl>, cls: string, index: map<nat, nat>, f: FrameState)
    requires DeclsOk(ds, index.Keys)
    ensures NewSlots(index, DeclsGen(ds, cls, index, f).index, f.nextIndex, DeclsGen(ds, cls, index, f).f.nextIndex)
    decreases ds
  {
    if ds != [] {
      var d := LocalDeclGen(ds[0], cls, index, f);
      assert d.index.Keys == index.Keys + {ds[0].id};
      var rest := DeclsGen(ds[1..], cls, d.index, d.f);
      LocalDeclSlots(ds[0], cls, index, f);
      DeclsSlots(ds[1..], cls, d.index, d.f);
      NewSlotsTrans(index, d.index, rest.index, f.nextIndex, d.f.nextIndex, rest.f.nextIndex);
    }
  }

  /** A function body's header: main gives no slot (its `vc$` goes to the
      reserved slot 1); any other function gives its parameters the next
      slots in order. */
  lemma HeaderSlots(owner: Owner, cls: string, index: map<nat, nat>, f: FrameState)
    ensures var h := HeaderGen(owner, cls, index, f);
      NewSlots(index, h.index, f.nextIndex, h.f.nextIndex) &&
      (owner.FunctionBody? && owner.name != "main" ==>
        forall k :: 0 <= k < |owner.params| && LastWithId(owner.params, k) ==>
          h.index[owner.params[k].id] == f.nextIndex + k)
  {
    if owner.FunctionBody? && owner.name != "main" {
      ParamSlots(owner.params, index, f);
    }
  }

  // ---------------------------------------------------------------------
  // Statements
  // ---------------------------------------------------------------------

  lemma {:induction false} StmtSlots(s: Stmt, cls: string, index: map<nat, nat>, f: FrameState)
    requires WFStmt(s, index.Keys, InLoop(f))
    ensures NewSlots(index, StmtGen(s, cls, index, f).index, f.nextIndex, StmtGen(s, cls, index, f).f.nextIndex)
    decreases s, 2
  {
    match s
    case Compound(_, _) =>
      assert index.Keys + OwnerIds(Nested) == index.Keys;
      CompoundSlots(s, Nested, cls, index, f);
    case If(_, _, _) => IfSlots(s, cls, index, f);
    case While(_, _) => WhileSlots(s, cls, index, f);
    case For(_, _, _, _) => ForSlots(s, cls, index, f);
    case _ =>
  }

  lemma {:induction false} StmtsSlots(ss: seq<Stmt>, cls: string, index: map<nat, nat>, f: FrameState)
    requires forall k :: 0 <= k < |ss| ==> WFStmt(ss[k], index.Keys, InLoop(f))
    ensures NewSlots(index, StmtsGen(ss, cls, index, f).index, f.nextIndex, StmtsGen(ss, cls, index, f).f.nextIndex)
    decreases ss
  {
    if ss != [] {
      var a := StmtGen(ss[0], cls, index, f);
      StmtsMono(ss[1..], index.Keys, a.index.Keys, InLoop(f));
      var b := StmtsGen(ss[1..], cls, a.index, a.f);
      StmtSlots(ss[0], cls, index, f);
      StmtsSlots(ss[1..], cls, a.index, a.f);
      NewSlotsTrans(index, a.index, b.index, f.nextIndex, a.f.nextIndex, b.f.nextIndex);
    }
  }

  lemma {:induction false} CompoundSlots(s: Stmt, owner: Owner, cls: string, index: map<nat, nat>, f: FrameState)
    requires s.Compound? && WFStmt(s, index.Keys + OwnerIds(owner), InLoop(f))
    ensures NewSlots(index, CompoundGen(s, owner, cls, index, f).index, f.nextIndex,
                     CompoundGen(s, owner, cls, index, f).f.nextIndex)
    decreases s, 1
  {
    var h := HeaderGen(owner, cls, index, ScopeFrame(f));
    var d := DeclsGen(s.decls, cls, h.index, h.f);
    var b := StmtsGen(s.stmts, cls, d.index, d.f);
    HeaderSlots(owner, cls, index, ScopeFrame(f));
    DeclsSlots(s.decls, cls, h.index, h.f);
    StmtsSlots(s.stmts, cls, d.index, d.f);
    NewSlotsTrans(index, h.index, d.index, f.nextIndex, h.f.nextIndex, d.f.nextIndex);
    NewSlotsTrans(index, d.index, b.index, f.nextIndex, d.f.nextIndex, b.f.nextIndex);
  }

  lemma {:induction false} IfSlots(s: Stmt, cls: string, index: map<nat, nat>, f: FrameState)
    requires s.If? && WFStmt(s, index.Keys, InLoop(f))
    ensures NewSlots(index, IfGen(s, cls, index, f).index, f.nextIndex, IfGen(s, cls, index, f).f.nextIndex)
    decreases s, 1
  {
    var g := ExprGen(s.cond, Ctx(cls, index), WithNewLabel(WithNewLabel(f)));
    var a := StmtGen(s.thn, cls, index, Popped(g.f, 1));
    WFStmtMono(s.els, index.Keys, a.index.Keys, InLoop(f));
    var b := StmtGen(s.els, cls, a.index, a.f);
    assert Popped(g.f, 1).nextIndex == f.nextIndex;
    StmtSlots(s.thn, cls, index, Popped(g.f, 1));
    StmtSlots(s.els, cls, a.index, a.f);
    NewSlotsTrans(index, a.index, b.index, f.nextIndex, a.f.nextIndex, b.f.nextIndex);
    assert IfGen(s, cls, index, f).index == b.index && IfGen(s, cls, index, f).f == b.f;
  }

  lemma {:induction false} WhileSlots(s: Stmt, cls: string, index: map<nat, nat>, f: FrameState)
    requires s.While? && WFStmt(s, index.Keys, InLoop(f))
    ensures NewSlots(index, WhileGen(s, cls, index, f).index, f.nextIndex, WhileGen(s, cls, index, f).f.nextIndex)
    decreases s, 1
  {
    var g := ExprGen(s.cond, Ctx(cls, index), WhileFrame(f));
    StmtSlots(s.body, cls, index, Popped(g.f, 1));
  }

  lemma {:induction false} ForSlots(s: Stmt, cls: string, index: map<nat, nat>, f: FrameState)
    requires s.For? && WFStmt(s, index.Keys, InLoop(f))
    ensures NewSlots(index, ForGen(s, cls, index, f).index, f.nextIndex, ForGen(s, cls, index, f).f.nextIndex)
    decreases s, 1
  {
    var g1 := DiscardGen(s.init, Ctx(cls, index), ForFrame(f));
    var g3 := DiscardGen(s.step, Ctx(cls, index), g1.f);
    var g2 := TestGen(s.test, Ctx(cls, index), g3.f);
    StmtSlots(s.body, cls, index, Popped(g2.f, 1));
  }

  // ---------------------------------------------------------------------
  // Functions and the program
  // ---------------------------------------------------------------------

  /** The slots the body of a function hands out lie after the ones its
      method reserves (0 for `this` or the argument array, 1 for main's
      `vc$`) and below the frame's final slot counter. */
  lemma BodySlots(fd: FuncDecl, cls: string, index: map<nat, nat>)
    requires FuncOk(fd)
    ensures NewSlots(index, BodyGen(fd, cls, index).index, EntryFrame(fd.name == "main").nextIndex,
                     BodyGen(fd, cls, index).f.nextIndex)
  {
    BodyOk(fd, index.Keys);
    if fd.body.Compound? {
      CompoundSlots(fd.body, FunctionBody(fd.name, fd.params), cls, index, EntryFrame(fd.name == "main"));
    }
  }

  /** The `.limit locals` value a translated function ends with covers the
      slots it reserves and every slot it hands out, and its parameters
      (other than main's) are in slots 1, 2, ... in order. */
  lemma FuncSlots(fd: FuncDecl, cls: string, index: map<nat, nat>)
    requires FuncOk(fd)
    ensures var r := FuncGen(fd, cls, index);
      |r.code| >= 5 && r.code[|r.code| - 3].LimitLocals? &&
      (if fd.name == "main" then 2 else 1) <= r.code[|r.code| - 3].n &&
      NewSlots(index, r.index, if fd.name == "main" then 2 else 1, r.code[|r.code| - 3].n)
  {
    BodySlots(fd, cls, index);
  }

  /** With distinct parameter ids, a function other than main gives its
      k-th parameter slot k + 1, right after `this`. */
  lemma ParamsAfterThis(fd: FuncDecl, cls: string, index: map<nat, nat>)
    requires fd.name != "main" && DistinctIds(fd.params)
    ensures var h := HeaderGen(FunctionBody(fd.name, fd.params), cls, index, ScopeFrame(EntryFrame(false)));
      forall k :: 0 <= k < |fd.params| ==> fd.params[k].id in h.index && h.index[fd.params[k].id] == k + 1
  {
    HeaderSlots(FunctionBody(fd.name, fd.params), cls, index, ScopeFrame(EntryFrame(false)));
  }

  /** visitDeclList over the program: no function gives any declaration
      slot 0, which holds `this` or main's argument array. */
  lemma {:induction false} FuncsSlots(ds: seq<Decl>, cls: string, index: map<nat, nat>)
    requires forall k :: 0 <= k < |ds| ==> ds[k].Func? ==> FuncOk(ds[k].f)
    ensures var r := FuncsGen(ds, cls, index);
      forall id :: id in r.index && (id !in index || r.index[id] != index[id]) ==> 1 <= r.index[id]
    decreases ds
  {
    if ds != [] {
      var a := if ds[0].Func? then FuncGen(ds[0].f, cls, index) else FGen([], index);
      if ds[0].Func? {
        FuncSlots(ds[0].f, cls, index);
      }
      FuncsSlots(ds[1..], cls, a.index);
    }
  }
}
