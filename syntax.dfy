/** The type-checked syntax tree the code generator walks.
    Parent back-links are gone: whether an array element is an assignment
    target is a flag of the array-element visitor, and whether a compound
    statement is a function body is an `Owner` argument of its visitor.
    Every identifier arrives resolved: a local or parameter reference carries
    the id of its declaration, a global reference its name and type. */
module Syntax {

  /** A Java `int`: integer literals and array sizes arrive already parsed. */
  type Int32 = x: int | -0x8000_0000 <= x < 0x8000_0000

  datatype Type =
    | IntType
    | FloatType
    | BooleanType
    | StringType
    | VoidType
    | ArrayType(elem: Type)

  /** The element types a variable, a parameter or an array may have. */
  predicate IsScalar(t: Type) {
    t == IntType || t == FloatType || t == BooleanType
  }

  /** Types a variable or parameter may be declared with. */
  predicate IsVarType(t: Type) {
    IsScalar(t) || (t.ArrayType? && IsScalar(t.elem))
  }

  /** A resolved variable: a global by name, or a local variable or
      parameter by the id of its declaration. */
  datatype Var =
    | Global(name: string, ty: Type)
    | Local(id: nat, ty: Type)

  /** Comparison conditions shared by the integer and float comparisons. */
  datatype Cond = EQ | NE | LT | LE | GT | GE

  /** The unary operators after type checking: "i!", "i+", "f+", "i-", "f-", "i2f". */
  datatype UnaryOp = INot | IPlus | FPlus | INeg | FNeg | I2F

  /** The binary operators after type checking: "i+", "i-", ..., "f>=", "i&&", "i||". */
  datatype BinaryOp =
    | IAdd | ISub | IMul | IDiv
    | FAdd | FSub | FMul | FDiv
    | ICmp(c: Cond)
    | FCmp(c: Cond)
    | And
    | Or

  /** The built-in I/O functions of the language's standard environment. */
  datatype StdFunc =
    | GetInt | PutInt | PutIntLn
    | GetFloat | PutFloat | PutFloatLn
    | PutBool | PutBoolLn
    | PutString | PutStringLn
    | PutLn

  /** The function a call resolves to; a programmer-defined one with the
      parameter types and result type of its declaration. */
  datatype Callee =
    | Std(fn: StdFunc)
    | User(name: string, params: seq<Type>, result: Type)

  datatype Expr =
    | IntLit(value: Int32)
    | FloatLit(spelling: string)
    | BoolLit(b: bool)
    | StringLit(s: string)
    | VarExpr(x: Var)
    | Unary(uop: UnaryOp, e: Expr)
    | Binary(bop: BinaryOp, e1: Expr, e2: Expr)
    | Call(callee: Callee, args: seq<Expr>)
    | ArrayExpr(arr: Var, idx: Expr)
    | Assign(lhs: Expr, rhs: Expr)
    | EmptyExpr

  /** The initialiser of a declaration: none, an expression, or an
      array initialiser `{e0, e1, ...}`. */
  datatype Init =
    | NoInit
    | ExprInit(e: Expr)
    | ArrayInit(elems: seq<Expr>)

  /** A local variable declaration; `size` is the declared length of an
      array (a compile-time integer constant). */
  datatype LocalDecl = LocalDecl(id: nat, ty: Type, size: Int32, init: Init)

  datatype Stmt =
    | Compound(decls: seq<LocalDecl>, stmts: seq<Stmt>)
    | EmptyComp
    | If(cond: Expr, thn: Stmt, els: Stmt)
    | While(cond: Expr, body: Stmt)
    | For(init: Expr, test: Expr, step: Expr, body: Stmt)
    | Break
    | Continue
    | Return(e: Expr)
    | ExprStmt(e: Expr)
    | EmptyStmt

  datatype Param = Param(id: nat, ty: Type)

  datatype FuncDecl = FuncDecl(name: string, params: seq<Param>, result: Type, body: Stmt)

  datatype Decl =
    | GlobalVar(name: string, ty: Type, size: Int32, init: Init)
    | Func(f: FuncDecl)

  datatype Program = Program(decls: seq<Decl>)

  /** What a compound statement's parent is: a function (whose body it is)
      or another statement. */
  datatype Owner =
    | Nested
    | FunctionBody(name: string, params: seq<Param>)

  function DeclIds(ds: seq<LocalDecl>): (ids: set<nat>)
    ensures forall k :: 0 <= k < |ds| ==> ds[k].id in ids
  {
    if ds == [] then {} else {ds[0].id} + DeclIds(ds[1..])
  }

  function ParamIds(ps: seq<Param>): (ids: set<nat>)
    ensures forall k :: 0 <= k < |ps| ==> ps[k].id in ids
  {
    if ps == [] then {} else {ps[0].id} + ParamIds(ps[1..])
  }

  /** The ids of a parameter list are those of its parameters and no
      others. */
  lemma {:induction false} ParamIdsOnly(ps: seq<Param>, id: nat)
    ensures (forall k :: 0 <= k < |ps| ==> ps[k].id != id) ==> id !in ParamIds(ps)
    decreases ps
  {
    if ps != [] {
      ParamIdsOnly(ps[1..], id);
    }
  }

  /** No parameter after the k-th has the same id. */
  predicate LastWithId(ps: seq<Param>, k: int)
    requires 0 <= k < |ps|
  {
    forall j :: k < j < |ps| ==> ps[j].id != ps[k].id
  }

  /** The parameters have pairwise different ids, as the checker ensures
      for the parameters of one function. */
  predicate DistinctIds(ps: seq<Param>) {
    forall i, j :: 0 <= i < j < |ps| ==> ps[i].id != ps[j].id
  }

  function ParamTypes(ps: seq<Param>): (ts: seq<Type>)
    ensures |ts| == |ps|
    ensures forall k :: 0 <= k < |ps| ==> ts[k] == ps[k].ty
  {
    if ps == [] then [] else [ps[0].ty] + ParamTypes(ps[1..])
  }
}
