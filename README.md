# The VC code generator, modelled in Dafny

This project models the code generator of the VC compiler, the class
`Emitter` in `CodeGen/Emitter.java`. The code generator walks a checked
VC syntax tree and writes a Jasmin assembly file. The file holds one class,
named after the input file, which contains:

- a static field for each global variable;
- a static initialiser `<clinit>` that stores each global's initial value;
- the default constructor `<init>`;
- one method per VC function. `main` becomes `public static main`, and every
  other function becomes an instance method called on `this` (on `vc$` from
  `main`).

Each method is generated with a frame. The frame counts the operand-stack
depth and its maximum, hands out local-variable slots and labels, and keeps
the stacks of scope labels and of `break`/`continue` targets.

The model is built in layers:

- **Data.** `Syntax` models the checked tree. `Jvm` models the Jasmin
  instructions as a datatype, with labels as numbers.
- **Small choices.** `Select` covers how instructions are selected: the
  type letters, descriptors, the `iconst`/`bipush`/`sipush`/`ldc` tiers, the
  short and long load and store forms, and the class name.
- **Frame.** `Frames` models the frame, both as a value (`FrameState`) and as
  a class with in-place methods (`Frame`).
- **Translation as functions.** `Translate` states each visitor as a pure
  function: from a tree node and the frame before it to the instructions
  appended and the frame after it. Its contracts state the stack discipline.
  An expression leaves exactly as many values as its type occupies. A
  statement goes from an empty stack to an empty stack. The label stacks are
  restored, and the label and slot counters and the maximum depth only grow.
- **The emitter.** `CodeGen.Emitter` is the emitter itself: a class whose
  methods append to its instruction stream and update the frame in place,
  each proved to append exactly what the matching `Translate` function gives.
- **Labels.** `Labels` proves that every generated method defines each of its
  labels once and that every jump lands on one of them. Inside a statement,
  `break` and `continue` jump only to the labels of the innermost loop, and a
  whole loop jumps nowhere outside itself.
- **Slots.** `Slots` proves that every slot a function hands to a parameter
  or a local declaration lies after the slots its method reserves and below
  the `.limit locals` value written after the body. A function other than
  main whose parameters have distinct names gives them slots 1, 2, ... in
  order.
- **Machine.** `Machine` gives the integer part of the generated code a
  meaning: an operand stack and local slots, with Java `int` wrap-around as
  section 6.5 of the Java Virtual Machine Specification defines it.
- **Properties.** `Properties` proves, one operator at a time, what the
  generated code computes from the values its operands' code leaves. It
  covers literals, local variables, negation, `+ - *`, comparisons, `!`,
  short-circuit `&&`/`||` and assignment to a local variable. For whole
  expressions built from integer literals, local integer variables,
  negation and `+ - *`, it proves by induction that the code pushes the
  expression's Java `int` value. The operator lemmas for comparisons and
  `&&`/`||` assume operands whose code has no labels or jumps.
- **As written.** `AsWritten` models three places where the emitter as
  written departs from what it evidently intends. They are listed under
  Findings.

The frame class `CodeGen/Frame.java` is not part of this model's sources. Its
behaviour is taken from the way the emitter uses it. A pop below depth 0
(an internal error there) is a precondition of `Frames.Popped` and
`Frames.Frame.Pop`, and every use of those discharges it for checked trees.

## Model

| member | source | states |
|---|---|---|
| Select.JavaType | CodeGen/Emitter.java:1159-1168 | the type letter is one character, and it is `V` exactly when the type is not a scalar |
| Select.ArgsDescriptorRoundTrip | CodeGen/Emitter.java:720-732 | the parameter part of a method descriptor built from the parameter types parses back to exactly those types |
| Select.ArgsDescriptorSnoc | CodeGen/Emitter.java:435-446 | building the descriptor one parameter at a time appends that parameter's descriptor |
| Select.IconstPushesValue | CodeGen/Emitter.java:1128-1139 | the instruction chosen for an integer constant pushes that constant |
| Select.IconstIsNarrowest | CodeGen/Emitter.java:1128-1139 | no narrower instruction pushes the same constant |
| Select.LoadInstr | CodeGen/Emitter.java:1074-1093 | the short form `Xload_n` is chosen exactly for slots 0 to 3; kind and slot are kept |
| Select.StoreInstr | CodeGen/Emitter.java:1099-1122 | the short form `Xstore_n` is chosen exactly for slots 0 to 3; kind and slot are kept |
| Select.ArrayAccessAgrees | CodeGen/Emitter.java:1170-1193 | the element load and the element store chosen for a scalar type access elements of that type |
| Select.LastIndexOf | CodeGen/Emitter.java:34 | the position of the last occurrence of the character, or -1 when there is none |
| Select.ClassName | CodeGen/Emitter.java:33-38 | the class name is a prefix of the file name; when shorter, it stops at the file name's last dot |
| Select.ClassNameDropsExtension | CodeGen/Emitter.java:33-38 | `base.ext` with an undotted extension gives the class name `base` |
| Select.ClassNameKeepsUndotted | CodeGen/Emitter.java:33-38 | a file name without a dot after its first character is the class name unchanged |
| Frames.NewFrame | CodeGen/Emitter.java:89 | a new frame records whether it belongs to `main`, has depth and maximum 0, hands out slot 0 and label 0 first, and has empty scope and loop stacks |
| Frames.Pushed | CodeGen/Emitter.java:102 | the depth grows by n, the maximum becomes the larger of the old maximum and the new depth, nothing else changes, and validity is kept |
| Frames.Popped | CodeGen/Emitter.java:108 | the depth shrinks by n, nothing else changes, and validity is kept |
| Frames.WithNewLabel | CodeGen/Emitter.java:163-164 | the label counter moves on by one and nothing else changes |
| Frames.WithNewIndex | CodeGen/Emitter.java:775 | the slot counter moves on by one and nothing else changes |
| Frames.EnterScope | CodeGen/Emitter.java:165-166 | the scope labels are pushed and nothing else changes |
| Frames.LeaveScope | CodeGen/Emitter.java:190-191 | the scope labels are popped and nothing else changes |
| Frames.EnterLoop | CodeGen/Emitter.java:215-216 | the break and continue targets are pushed and nothing else changes |
| Frames.LeaveLoop | CodeGen/Emitter.java:224-225 | the break and continue targets are popped and nothing else changes |
| Frames.Frame.constructor | CodeGen/Emitter.java:693 | the new frame is `NewFrame` |
| Frames.Frame.Push | CodeGen/Emitter.java:176 | the frame becomes `Pushed` of its old state |
| Frames.Frame.Pop | CodeGen/Emitter.java:449 | the frame becomes `Popped` of its old state; popping needs that many entries |
| Frames.Frame.GetNewLabel | CodeGen/Emitter.java:163-164 | returns the next label, and the label counter moves past it |
| Frames.Frame.PushScope | CodeGen/Emitter.java:165-166 | the frame becomes `EnterScope` of its old state |
| Frames.Frame.PopScope | CodeGen/Emitter.java:190-191 | the frame becomes `LeaveScope` of its old state |
| Frames.Frame.PushLoop | CodeGen/Emitter.java:238-239 | the frame becomes `EnterLoop` of its old state |
| Frames.Frame.PopLoop | CodeGen/Emitter.java:274-275 | the frame becomes `LeaveLoop` of its old state |
| Frames.Frame.GetNewIndex | CodeGen/Emitter.java:775 | returns the next slot, and the slot counter moves past it |
| Translate.ExprGen | CodeGen/Emitter.java:457-669 | an expression leaves one value on the stack, or none when it is void; the frame is otherwise kept and labels only grow |
| Translate.UnaryGen | CodeGen/Emitter.java:481-517 | a unary expression leaves one value |
| Translate.BinaryGen | CodeGen/Emitter.java:519-594 | a binary expression leaves one value |
| Translate.LogicGen | CodeGen/Emitter.java:1195-1224 | `&&` and `\|\|` leave one value |
| Translate.ArgsGen | CodeGen/Emitter.java:861-870 | the arguments leave one value each |
| Translate.CallGen | CodeGen/Emitter.java:357-455 | a call pops its arguments and the receiver, and leaves one value unless the result is void |
| Translate.ArrayRefGen | CodeGen/Emitter.java:620-637 | the array reference and the index: two values |
| Translate.AssignGen | CodeGen/Emitter.java:644-669 | an assignment leaves the assigned value (the corrected behaviour, see Findings) |
| Translate.DiscardGen | CodeGen/Emitter.java:326-341 | an expression statement leaves the stack empty when it started empty |
| Translate.TestGen | CodeGen/Emitter.java:259-266 | the test of `for`, an absent one included, leaves one value |
| Translate.InitGen | CodeGen/Emitter.java:596-613 | an array initialiser leaves the stack as deep as it found it |
| Translate.ParamsGen | CodeGen/Emitter.java:834-853 | parameters emit no instructions, enter every parameter's id in the slot map and move the slot counter on by one per parameter (which slot each gets: `Slots.ParamSlots`) |
| Translate.LocalDeclGen | CodeGen/Emitter.java:772-830 | a local declaration takes the next slot and leaves the stack depth unchanged |
| Translate.DeclsGen | CodeGen/Emitter.java:677-681 | the declarations take one slot each and leave the stack depth unchanged |
| Translate.ScopeFrame | CodeGen/Emitter.java:163-166 | a compound statement takes two labels and pushes them as its scope |
| Translate.WhileFrame | CodeGen/Emitter.java:213-216 | `while` takes two labels and pushes the second as its break target and the first as its continue target |
| Translate.ForFrame | CodeGen/Emitter.java:235-239 | `for` takes three labels and pushes the third as its break target and the second as its continue target |
| Translate.StmtGen | CodeGen/Emitter.java:154-353 | a statement goes from an empty stack to an empty stack; it restores the scope and loop stacks, and slots, labels and the maximum only grow |
| Translate.StmtsGen | CodeGen/Emitter.java:154-158 | the same for a statement list |
| Translate.HeaderGen | CodeGen/Emitter.java:169-185 | a function body's prologue gives slots to the parameters and leaves the stack depth unchanged |
| Translate.CompoundGen | CodeGen/Emitter.java:160-193 | the same stack discipline as a statement, for a compound statement |
| Translate.IfGen | CodeGen/Emitter.java:195-209 | the same stack discipline as a statement, for `if` |
| Translate.WhileGen | CodeGen/Emitter.java:211-228 | the same stack discipline as a statement, for `while` |
| Translate.ForGen | CodeGen/Emitter.java:230-278 | the same stack discipline as a statement, for `for` |
| Translate.ReturnGen | CodeGen/Emitter.java:292-323 | a return statement keeps the stack discipline and the slots |
| Translate.EntryFrame | CodeGen/Emitter.java:691-712 | a method starts with an empty stack, labels from 0 and no loop; main reserves slots 0 and 1, any other function slot 0 |
| Translate.BodyGen | CodeGen/Emitter.java:739 | the body keeps the slots already given, ends with an empty stack in a valid frame of the same kind, and leaves the slot counter at or past the reserved slots |
| Translate.Closing | CodeGen/Emitter.java:746-755 | the instruction closing a method is neither a label nor a jump |
| Translate.FuncGen | CodeGen/Emitter.java:687-765 | a function keeps the slots already given |
| Translate.GlobalInitGen | CodeGen/Emitter.java:94-123 | the initialisation of a global leaves the stack as deep as it found it |
| Translate.ClinitGen | CodeGen/Emitter.java:91-126 | the initialisation of all globals leaves the stack as deep as it found it |
| Translate.FuncsGen | CodeGen/Emitter.java:149 | the functions keep the slots already given |
| Labels.CompareLabelled | CodeGen/Emitter.java:1014-1072 | a comparison defines its two new labels once each and jumps only to them |
| Labels.ExprLabels | CodeGen/Emitter.java:457-669 | an expression defines exactly the labels it takes from the frame, once each, and jumps only to them |
| Labels.LogicLabels | CodeGen/Emitter.java:1195-1224 | the same for `&&` and `\|\|` |
| Labels.StmtLabels | CodeGen/Emitter.java:154-353 | a statement defines exactly the labels it takes, once each, and jumps only to them or to the break and continue labels on top of the loop stacks (none outside a loop) |
| Labels.IfLabels | CodeGen/Emitter.java:195-209 | the same for `if` |
| Labels.WhileLabels | CodeGen/Emitter.java:211-228 | `while` defines exactly the labels it takes, once each, and jumps only to them: its `break` and `continue` reach its own two labels |
| Labels.ForLabels | CodeGen/Emitter.java:230-278 | `for` defines exactly the labels it takes, once each, and jumps only to them |
| Labels.CompoundLabels | CodeGen/Emitter.java:160-193 | the same for a compound statement |
| Labels.ReturnLabels | CodeGen/Emitter.java:292-323 | the same for a return statement |
| Labels.FuncLabels | CodeGen/Emitter.java:687-765 | in a generated method each label is defined at most once, and every jump lands on a label the method defines exactly once |
| Labels.MethodLabels | CodeGen/Emitter.java:739-762 | the header and the closing lines add no label and no jump to the body's |
| Properties.LiteralComputes | CodeGen/Emitter.java:913-932 | an integer or boolean literal pushes its value (1 or 0 for a boolean) |
| Properties.LocalLoadComputes | CodeGen/Emitter.java:962-977 | a local integer variable pushes the value of its slot |
| Properties.NegComputes | CodeGen/Emitter.java:498-500 | `-E` pushes the negation of E's value, wrapped to a Java `int` |
| Properties.NotComputes | CodeGen/Emitter.java:486-490 | `!E` pushes 1 when E is 0 and 0 otherwise |
| Properties.IntArith | CodeGen/Emitter.java:528-542 | the value of `+ - *` is congruent modulo 2^32 to the mathematical result |
| Properties.NegAddIsSub | CodeGen/Emitter.java:533-536 | `ineg` then `iadd` subtracts, wrap-around included |
| Properties.SubOps | CodeGen/Emitter.java:533-536 | `ineg` then `iadd` replace the two operands by their difference, wrapped to a Java `int` |
| Properties.ArithOps | CodeGen/Emitter.java:528-542 | the operator instructions of `+ - *` replace the two operands by their Java `int` result |
| Properties.ArithComputes | CodeGen/Emitter.java:525-542 | `E1 op E2` evaluates E1 then E2 and pushes their Java `int` sum, difference or product |
| Properties.CompareAfter | CodeGen/Emitter.java:1014-1041 | the comparison code after two operands runs to the end and leaves 1 exactly when the comparison holds |
| Properties.IntCompareComputes | CodeGen/Emitter.java:570-576 | an integer comparison leaves 1 exactly when it holds between the operands' values, and 0 otherwise |
| Properties.LogicValue | CodeGen/Emitter.java:1195-1224 | `&&` and `\|\|` give 1 exactly when both or either operands are non-zero, and 0 otherwise |
| Properties.LogicAfter | CodeGen/Emitter.java:1195-1224 | the short-circuit code runs to the end with the value of `&&`/`\|\|`; the second operand runs only when the first does not decide |
| Properties.ShortCircuitComputes | CodeGen/Emitter.java:1195-1224 | `E1 && E2` and `E1 \|\| E2` leave their logical value, with the second operand's effects only when it is evaluated |
| Properties.DupStore | CodeGen/Emitter.java:644-669 | `dup` then a store sets the slot and leaves the value |
| Properties.AssignComputes | CodeGen/Emitter.java:644-669 | assigning to a local integer sets its slot to the value and leaves the value (the corrected behaviour) |
| Properties.IntTermComputes | CodeGen/Emitter.java:457-542 | an expression of integer literals, local integer variables, negation and `+ - *` runs as straight-line code that pushes its Java `int` value and changes nothing else |
| Properties.StoreLoadAgree | CodeGen/Emitter.java:1074-1110 | a later load of a variable pushes the value its store put away |
| Slots.ParamSlots | CodeGen/Emitter.java:840-842 | the k-th parameter gets the k-th slot from the counter (the last of several with one id wins), other entries are kept, and no slot outside those is given |
| Slots.HeaderSlots | CodeGen/Emitter.java:169-185 | a function body's prologue gives slots only from the counter on, and gives a non-main function's parameters the next slots in order |
| Slots.DeclsSlots | CodeGen/Emitter.java:677-681 | local declarations are given slots only between the counter before and after them |
| Slots.StmtSlots | CodeGen/Emitter.java:154-353 | a statement gives slots only between the counter before and after it |
| Slots.CompoundSlots | CodeGen/Emitter.java:160-193 | the same for a compound statement |
| Slots.BodySlots | CodeGen/Emitter.java:739 | a function body gives slots only after the reserved ones and below the final counter |
| Slots.FuncSlots | CodeGen/Emitter.java:759 | the `.limit locals` value covers the reserved slots and every slot the function gives |
| Slots.ParamsAfterThis | CodeGen/Emitter.java:708-712 | with distinct parameters, a function other than main puts its k-th parameter in slot k + 1, after `this` |
| Slots.FuncsSlots | CodeGen/Emitter.java:149 | no function gives a declaration slot 0, which holds `this` or main's argument array |
| CodeGen.Emitter.constructor | CodeGen/Emitter.java:30-40 | the class name is the input file's name without its extension; code and slots start empty |
| CodeGen.Emitter.EmitIconst | CodeGen/Emitter.java:1128-1139 | appends the narrowest integer-constant instruction |
| CodeGen.Emitter.EmitLoad | CodeGen/Emitter.java:1074-1093 | appends the load of the slot, in its short form for slots 0 to 3 |
| CodeGen.Emitter.EmitStore | CodeGen/Emitter.java:1099-1122 | appends the store to the slot, in its short form for slots 0 to 3 |
| CodeGen.Emitter.EmitArrayLoad | CodeGen/Emitter.java:1182-1193 | appends the element load and pops one |
| CodeGen.Emitter.EmitArrayStore | CodeGen/Emitter.java:1170-1181 | appends the element store and pops three |
| CodeGen.Emitter.ArgsTypes | CodeGen/Emitter.java:434-446 | the loop computes the descriptor of the parameters and their number |
| CodeGen.Emitter.EmitIntCompare | CodeGen/Emitter.java:1014-1041 | appends `IntCompare`'s code and updates the frame as it does |
| CodeGen.Emitter.EmitFloatCompare | CodeGen/Emitter.java:1043-1072 | appends `FloatCompare`'s code and updates the frame as it does |
| CodeGen.Emitter.VisitSimpleVar | CodeGen/Emitter.java:947-983 | appends `getstatic` for a global or the slot's load, and pushes one |
| CodeGen.Emitter.VisitExpr | CodeGen/Emitter.java:457-669 | appends exactly `ExprGen` of the expression and leaves the frame in its state |
| CodeGen.Emitter.VisitUnary | CodeGen/Emitter.java:481-517 | appends exactly `UnaryGen`'s code, with its frame |
| CodeGen.Emitter.EmitArith | CodeGen/Emitter.java:527-568 | appends the operator's instructions and pops one |
| CodeGen.Emitter.VisitBinary | CodeGen/Emitter.java:519-594 | appends exactly `BinaryGen`'s code, with its frame |
| CodeGen.Emitter.EmitRelation | CodeGen/Emitter.java:1195-1224 | appends exactly `LogicGen`'s code, with its frame |
| CodeGen.Emitter.EmitRelationTail | CodeGen/Emitter.java:1212-1222 | appends the last test and the two-constant diamond; the depth is unchanged |
| CodeGen.Emitter.VisitArgs | CodeGen/Emitter.java:861-870 | appends exactly `ArgsGen`'s code, with its frame |
| CodeGen.Emitter.VisitCall | CodeGen/Emitter.java:357-455 | appends exactly `CallGen`'s code, with its frame |
| CodeGen.Emitter.VisitStdCall | CodeGen/Emitter.java:361-403 | for a library function: appends exactly `CallGen`'s arguments and `invokestatic`, with its frame |
| CodeGen.Emitter.VisitUserCall | CodeGen/Emitter.java:404-453 | for a program function: appends exactly `CallGen`'s receiver, arguments and `invokevirtual`, with its frame |
| CodeGen.Emitter.VisitArrayRef | CodeGen/Emitter.java:620-637 | appends exactly `ArrayRefGen`'s code, with its frame |
| CodeGen.Emitter.EmitStoreVar | CodeGen/Emitter.java:651-666 | appends the variable's store chosen by the value's type (`putstatic` for a global) |
| CodeGen.Emitter.EmitStoreVarAfterDup | CodeGen/Emitter.java:651-666 | appends `dup` and the store; the depth is unchanged |
| CodeGen.Emitter.EmitDupStore | CodeGen/Emitter.java:646-649 | appends the duplication and the store, and pops what the store consumes |
| CodeGen.Emitter.VisitAssign | CodeGen/Emitter.java:644-669 | appends exactly `AssignGen`'s code, with its frame |
| CodeGen.Emitter.VisitDiscarded | CodeGen/Emitter.java:326-341 | appends exactly `DiscardGen`'s code, with its frame |
| CodeGen.Emitter.EmitDupIndex | CodeGen/Emitter.java:603-606 | appends `dup` and the element's index, and pushes two |
| CodeGen.Emitter.VisitInitExpr | CodeGen/Emitter.java:596-613 | the loop appends exactly `InitGen`'s code, with its frame |
| CodeGen.Emitter.VisitStmt | CodeGen/Emitter.java:154-353 | appends exactly `StmtGen`'s code, with its frame and slots |
| CodeGen.Emitter.VisitStmts | CodeGen/Emitter.java:154-158 | the loop appends exactly `StmtsGen`'s code, with its frame and slots |
| CodeGen.Emitter.VisitHeader | CodeGen/Emitter.java:169-185 | appends exactly `HeaderGen`'s code, with its frame and slots |
| CodeGen.Emitter.EnterCompound | CodeGen/Emitter.java:163-168 | takes two labels, pushes them as the scope, and places the first |
| CodeGen.Emitter.LeaveCompound | CodeGen/Emitter.java:188-191 | places the end label and pops the scope |
| CodeGen.Emitter.VisitCompound | CodeGen/Emitter.java:160-193 | appends exactly `CompoundGen`'s code, with its frame and slots |
| CodeGen.Emitter.TwoLabels | CodeGen/Emitter.java:197-198 | takes the next two labels |
| CodeGen.Emitter.VisitIf | CodeGen/Emitter.java:195-209 | appends exactly `IfGen`'s code, with its frame and slots |
| CodeGen.Emitter.VisitCondJump | CodeGen/Emitter.java:200-202 | appends the condition and `ifeq` to the target, and pops the condition |
| CodeGen.Emitter.EnterWhile | CodeGen/Emitter.java:213-217 | takes the continue and break labels, pushes them, and places the continue label |
| CodeGen.Emitter.LeaveLoopBody | CodeGen/Emitter.java:222-225 | appends the jump back and the break label, and pops the loop targets |
| CodeGen.Emitter.VisitWhile | CodeGen/Emitter.java:211-228 | appends exactly `WhileGen`'s code, with its frame and slots |
| CodeGen.Emitter.VisitTest | CodeGen/Emitter.java:259-266 | appends exactly `TestGen`'s code, with its frame |
| CodeGen.Emitter.EnterFor | CodeGen/Emitter.java:235-239 | takes the start, continue and break labels and pushes the loop targets |
| CodeGen.Emitter.VisitForClauses | CodeGen/Emitter.java:241-258 | appends the initialiser, the jump to the start, the continue label, the step and the start label |
| CodeGen.Emitter.VisitTestJump | CodeGen/Emitter.java:259-269 | appends the test and `ifeq` to the break label, and pops the test |
| CodeGen.Emitter.VisitFor | CodeGen/Emitter.java:230-278 | appends exactly `ForGen`'s code, with its frame and slots |
| CodeGen.Emitter.VisitReturn | CodeGen/Emitter.java:292-323 | appends exactly `ReturnGen`'s code, with its frame (the corrected behaviour) |
| CodeGen.Emitter.VisitReturnValue | CodeGen/Emitter.java:307-322 | outside main: appends exactly `ReturnGen`'s value and return instruction, with its frame |
| CodeGen.Emitter.VisitParams | CodeGen/Emitter.java:834-853 | the loop gives each parameter the next slot and appends nothing |
| CodeGen.Emitter.EmitNewArray | CodeGen/Emitter.java:786-790 | appends the size and `newarray`, and pushes one |
| CodeGen.Emitter.VisitLocalDecl | CodeGen/Emitter.java:772-830 | appends exactly `LocalDeclGen`'s code, with its frame and slots |
| CodeGen.Emitter.VisitDecls | CodeGen/Emitter.java:677-681 | the loop appends exactly `DeclsGen`'s code, with its frame and slots |
| CodeGen.Emitter.EmitMethodEnd | CodeGen/Emitter.java:759-762 | appends the closing instruction, the locals limit (the next unused slot), the stack limit (the maximum depth) and the end of the method |
| CodeGen.Emitter.NewFuncFrame | CodeGen/Emitter.java:691-712 | a fresh frame in `EntryFrame`'s state |
| CodeGen.Emitter.FuncHeader | CodeGen/Emitter.java:698-734 | the method header: `main`'s fixed one, or the name and descriptor |
| CodeGen.Emitter.VisitBody | CodeGen/Emitter.java:739 | appends exactly `BodyGen`'s code, with its frame and slots |
| CodeGen.Emitter.VisitFuncDecl | CodeGen/Emitter.java:687-765 | appends exactly `FuncGen`'s code |
| CodeGen.Emitter.VisitFields | CodeGen/Emitter.java:65-77 | the loop appends a `.field` for each global, in order |
| CodeGen.Emitter.VisitGlobalInit | CodeGen/Emitter.java:94-123 | appends exactly `GlobalInitGen`'s code, with its frame |
| CodeGen.Emitter.VisitClinit | CodeGen/Emitter.java:83-134 | appends exactly the `<clinit>` method |
| CodeGen.Emitter.EmitInitMethod | CodeGen/Emitter.java:140-147 | appends the default constructor |
| CodeGen.Emitter.VisitFuncOf | CodeGen/Emitter.java:677-681 | a function declaration is translated, and any other declaration appends nothing |
| CodeGen.Emitter.VisitFuncs | CodeGen/Emitter.java:149 | the loop appends exactly `FuncsGen`'s code |
| CodeGen.Emitter.VisitProgram | CodeGen/Emitter.java:50-150 | appends exactly `ProgramGen`'s code |
| AsWritten.ReturnAsWritten | CodeGen/Emitter.java:302-323 | visitReturnStmt as written keeps the slots |
| AsWritten.BareReturnFallsThrough | CodeGen/Emitter.java:308-320 | as written, `return;` outside main emits nothing; corrected, it emits `return` |
| AsWritten.ReturnEndsMethod | CodeGen/Emitter.java:302-320 | the corrected return statement always ends in the return instruction for its type |
| AsWritten.GlobalStoreFails | CodeGen/Emitter.java:1099-1122 | as written, a store to a global fails; corrected, it is `putstatic`; on locals the two agree |
| AsWritten.GlobalStoreLoadSameField | CodeGen/Emitter.java:959 | the corrected store to a global writes the field and descriptor that its load reads |
| AsWritten.AssignAsWritten | CodeGen/Emitter.java:644-669 | as written, an assignment never leaves the stack deeper than it found it |
| AsWritten.RhsAsWritten | CodeGen/Emitter.java:653 | a right-hand side as written leaves at most its own value |
| AsWritten.AssignLeavesNoValue | CodeGen/Emitter.java:644-669 | as written, an assignment leaves the depth unchanged; corrected, it leaves one more value |
| AsWritten.AssignAsWrittenRuns | CodeGen/Emitter.java:651-666 | run on the machine, the assignment as written stores the value and leaves nothing |
| AsWritten.ChainedAssignUnderflows | CodeGen/Emitter.java:644-669 | as written, `x = y = 1` on an empty stack underflows the frame; corrected, it leaves 1 and sets both slots |

## Left out

- `.var` directives, comments and blank lines are not modelled. They carry no
  instructions.
- Label text (`L<n>`) is modelled as numbers.
- The text of standard-library calls is not modelled. `invokestatic` on
  `VC/lang/System` becomes one instruction per library function, so the
  separator in `System.getInt` and `System.putInt` (a dot where the others
  have a slash) is not modelled.
- Float constants are carried by their spelling, and `emitFCONST`'s choice
  among `fconst_0`, `fconst_1`, `fconst_2` and `ldc` is not modelled.
- Writing the output file (`JVM.dump`) and the diagnostic `println` calls on
  impossible operators are left out. Those operators cannot occur in checked
  trees.
- The machine semantics covers `int` values and integer slots only. Float
  instructions, `idiv`, arrays, calls and returns have no meaning there.
- `Machine.Run` and `Machine.Find` are bounded by fuel: a run that does not
  finish within the fuel gives none.
- Properties.IntCompareComputes: stated only for operands whose code has no
  labels or jumps, because the machine lemmas join runs of straight-line
  code.
- Properties.ShortCircuitComputes: stated only for operands whose code has
  no labels or jumps, for the same reason.
- Properties.ArithComputes: stated only for operands that run as
  straight-line code; integer division is not covered.
- Properties.AssignComputes: stated only for a local integer or boolean
  variable; stores to globals and array elements have no meaning in the
  machine.
- Translate.FuncGen: its own contract states only that earlier slots stay
  given. `Slots.FuncSlots` bounds the slots by `.limit locals`. The
  `.limit stack` value is the frame's maximum, which is not proved to bound
  the depth reached inside the body, because the machine semantics covers
  only the integer instructions.
- Translate.FuncsGen: its own contract states only that earlier slots stay
  given. `Slots.FuncsSlots` keeps slot 0 free, and each method's own
  guarantees are those of `FuncGen`. Slots of different functions are not
  related, because each method numbers its slots on its own.
- Frames.Popped: a pop below depth 0 is a precondition rather than the
  frame class's internal error, because every call site is proved to meet it.
- The empty compound statement (`visitEmptyCompStmt`) emits nothing, even
  as a function body, so its parameters get no slots. This is modelled as
  written.

## Findings

| source | as written | input that shows it | evidently intended | confidence | as-written member | corrected member |
|---|---|---|---|---|---|---|
| CodeGen/Emitter.java:308-320 | outside `main`, a return instruction is emitted only for an int, float or boolean value; `return;` gets none | `void f() { return; putIntLn(1); }` falls through into the call | `return;` emits `return` | not executed | AsWritten.BareReturnFallsThrough | AsWritten.ReturnEndsMethod |
| CodeGen/Emitter.java:1099-1122 | `emitISTORE`/`emitFSTORE` cast a non-parameter declaration to `LocalVarDecl`, so the cast throws for a global | `int g; void main() { g = 1; }` | a store to a global is `putstatic` of its field | not executed | AsWritten.GlobalStoreFails | AsWritten.GlobalStoreLoadSameField |
| CodeGen/Emitter.java:644-669 | the assigned value is stored with no `dup`, so an assignment leaves no value although it is an expression | `x = y = 1` leaves nothing for the outer store; `putInt(x = 1)` has no argument | `dup` (`dup_x2` for an array element) before the store | not executed | AsWritten.ChainedAssignUnderflows | Properties.AssignComputes |
