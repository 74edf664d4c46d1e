/** The per-function compilation frame: current and maximum operand-stack
    depth, the next free local-variable slot, the label counter and four
    label stacks (scope start, scope end, break targets, continue targets).
    `FrameState` is its value; class `Frame` is the mutable object the
    emitter threads through every visitor, and each of its methods is
    specified by the function on `FrameState` it performs. */
module Frames {

  datatype FrameState = FrameState(
    main: bool,
    cur: nat,
    max: nat,
    nextIndex: nat,
    nextLabel: nat,
    scopeStart: seq<nat>,
    scopeEnd: seq<nat>,
    brk: seq<nat>,
    con: seq<nat>)

  /** The frame invariant: the maximum depth covers the current depth. */
  predicate Valid(f: FrameState) {
    f.cur <= f.max
  }

  /** A new frame: empty stack, no slot and no label handed out yet. */
  function NewFrame(main: bool): (f: FrameState)
    ensures f == FrameState(main, 0, 0, 0, 0, [], [], [], [])
    ensures Valid(f)
  {
    FrameState(main, 0, 0, 0, 0, [], [], [], [])
  }

  /** push(n): the depth grows by n and the maximum follows it. */
  function Pushed(f: FrameState, n: nat): (r: FrameState)
    ensures r.cur == f.cur + n && r.cur <= r.max
    ensures r.max == if f.cur + n > f.max then f.cur + n else f.max
    ensures r == f.(cur := r.cur, max := r.max)
    ensures Valid(f) ==> Valid(r)
  {
    var c := f.cur + n;
    f.(cur := c, max := if c > f.max then c else f.max)
  }

  /** pop(n): the depth shrinks by n; popping more than the stack holds is
      the frame's fatal internal error, excluded here. */
  function Popped(f: FrameState, n: nat): (r: FrameState)
    requires n <= f.cur
    ensures r == f.(cur := f.cur - n)
    ensures Valid(f) ==> Valid(r)
  {
    f.(cur := f.cur - n)
  }

  /** getNewLabel: hands out `f.nextLabel` and advances the counter. */
  function WithNewLabel(f: FrameState): (r: FrameState)
    ensures r == f.(nextLabel := f.nextLabel + 1)
    ensures Valid(f) ==> Valid(r)
  {
    f.(nextLabel := f.nextLabel + 1)
  }

  /** getNewIndex: hands out `f.nextIndex` and advances it. */
  function WithNewIndex(f: FrameState): (r: FrameState)
    ensures r == f.(nextIndex := f.nextIndex + 1)
    ensures Valid(f) ==> Valid(r)
  {
    f.(nextIndex := f.nextIndex + 1)
  }

  /** Inside a loop: there is a break and a continue target. */
  predicate InLoop(f: FrameState) {
    f.brk != [] && f.con != []
  }

  /** Entering a scope: its two labels, already handed out, are pushed. */
  function EnterScope(f: FrameState, start: nat, end: nat): (r: FrameState)
    ensures r == f.(scopeStart := r.scopeStart, scopeEnd := r.scopeEnd)
    ensures r.scopeStart == f.scopeStart + [start] && r.scopeEnd == f.scopeEnd + [end]
    ensures Valid(f) ==> Valid(r)
  {
    f.(scopeStart := f.scopeStart + [start], scopeEnd := f.scopeEnd + [end])
  }

  /** Leaving a scope: its labels are popped. */
  function LeaveScope(f: FrameState): (r: FrameState)
    requires f.scopeStart != [] && f.scopeEnd != []
    ensures r == f.(scopeStart := r.scopeStart, scopeEnd := r.scopeEnd)
    ensures r.scopeStart == f.scopeStart[..|f.scopeStart| - 1]
    ensures r.scopeEnd == f.scopeEnd[..|f.scopeEnd| - 1]
    ensures Valid(f) ==> Valid(r)
  {
    f.(scopeStart := f.scopeStart[..|f.scopeStart| - 1], scopeEnd := f.scopeEnd[..|f.scopeEnd| - 1])
  }

  /** Entering a loop: its break and continue targets, already handed out,
      are pushed. */
  function EnterLoop(f: FrameState, brk: nat, cont: nat): (r: FrameState)
    ensures r == f.(brk := r.brk, con := r.con)
    ensures r.brk == f.brk + [brk] && r.con == f.con + [cont]
    ensures Valid(f) ==> Valid(r)
  {
    f.(brk := f.brk + [brk], con := f.con + [cont])
  }

  /** Leaving a loop: its break and continue targets are popped. */
  function LeaveLoop(f: FrameState): (r: FrameState)
    requires InLoop(f)
    ensures r == f.(brk := r.brk, con := r.con)
    ensures r.brk == f.brk[..|f.brk| - 1] && r.con == f.con[..|f.con| - 1]
    ensures Valid(f) ==> Valid(r)
  {
    f.(brk := f.brk[..|f.brk| - 1], con := f.con[..|f.con| - 1])
  }

  class Frame {
    const main: bool
    var cur: nat
    var max: nat
    var nextIndex: nat
    var nextLabel: nat
    var scopeStart: seq<nat>
    var scopeEnd: seq<nat>
    var brkStack: seq<nat>
    var conStack: seq<nat>

    function State(): FrameState
      reads this
    {
      FrameState(main, cur, max, nextIndex, nextLabel, scopeStart, scopeEnd, brkStack, conStack)
    }

    constructor (isMain: bool)
      ensures State() == NewFrame(isMain)
    {
      main := isMain;
      cur, max, nextIndex, nextLabel := 0, 0, 0, 0;
      scopeStart, scopeEnd, brkStack, conStack := [], [], [], [];
    }

    method Push(n: nat)
      modifies this
      ensures State() == Pushed(old(State()), n)
    {
      cur := cur + n;
      if cur > max {
        max := cur;
      }
    }

    method Pop(n: nat)
      requires n <= cur
      modifies this
      ensures State() == Popped(old(State()), n)
    {
      cur := cur - n;
    }

    method GetNewLabel() returns (l: nat)
      modifies this
      ensures l == old(nextLabel)
      ensures State() == WithNewLabel(old(State()))
    {
      l := nextLabel;
      nextLabel := nextLabel + 1;
    }

    /** Pushes a scope's start and end labels. */
    method PushScope(start: nat, end: nat)
      modifies this
      ensures State() == EnterScope(old(State()), start, end)
    {
      scopeStart := scopeStart + [start];
      scopeEnd := scopeEnd + [end];
    }

    method PopScope()
      requires scopeStart != [] && scopeEnd != []
      modifies this
      ensures State() == LeaveScope(old(State()))
    {
      scopeStart := scopeStart[..|scopeStart| - 1];
      scopeEnd := scopeEnd[..|scopeEnd| - 1];
    }

    /** Pushes a loop's break and continue labels. */
    method PushLoop(brk: nat, cont: nat)
      modifies this
      ensures State() == EnterLoop(old(State()), brk, cont)
    {
      brkStack := brkStack + [brk];
      conStack := conStack + [cont];
    }

    method PopLoop()
      requires brkStack != [] && conStack != []
      modifies this
      ensures State() == LeaveLoop(old(State()))
    {
      brkStack := brkStack[..|brkStack| - 1];
      conStack := conStack[..|conStack| - 1];
    }

    method GetNewIndex() returns (i: nat)
      modifies this
      ensures i == old(nextIndex)
      ensures State() == WithNewIndex(old(State()))
    {
      i := nextIndex;
      nextIndex := nextIndex + 1;
    }
  }
}
