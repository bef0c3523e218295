/**
 The calling convention of the VM, for any byte code whatever: while a call runs, through
 any nesting of further calls, the caller's registers below the argument window are not
 touched; the matching return changes one of its registers, to the callee's register 0.
 */
module VmFrames {
  import opened Values
  import opened Machine
  import B = Bytecode

  function FrameAt(st: State<nat>, j: nat): Frame<nat>
    requires st.Running? && j <= |st.callers|
  {
    if j < |st.callers| then st.callers[j] else st.top
  }

  /** The activation at the top of `a` is still open in `u`, and everything below its window
      is as it was in `a`. */
  ghost predicate Open(a: State<nat>, u: State<nat>)
    requires a.Running?
  {
    var d := |a.callers|;
    && u.Running? && d <= |u.callers| && u.callers[..d] == a.callers
    && |u.stack| == |a.stack| && (forall i | 0 <= i < |a.stack| && i < a.top.base :: u.stack[i] == a.stack[i])
    && FrameAt(u, d).base == a.top.base && FrameAt(u, d).out == a.top.out && FrameAt(u, d).fn == a.top.fn
    && (forall j | d <= j <= |u.callers| :: a.top.base <= FrameAt(u, j).base)
  }

  /** The return that closes the activation at the top of `a`, from `u` to `t`. */
  ghost predicate Closed(a: State<nat>, u: State<nat>, t: State<nat>)
    requires a.Running?
  {
    var d := |a.callers|;
    && d > 0 && u.Running? && t.Running? && t.callers == a.callers[..d - 1] && t.top == a.callers[d - 1]
    && |t.stack| == |a.stack| == |u.stack|
    && var slot := a.callers[d - 1].base + a.top.out;
    && a.top.base < |u.stack| && slot < |t.stack| && t.stack == u.stack[slot := u.stack[a.top.base]]
    && forall i | 0 <= i < |a.stack| && i < a.top.base && i != slot :: t.stack[i] == a.stack[i]
  }

  lemma OpenSelf(a: State<nat>)
    requires a.Running?
    ensures Open(a, a)
  {
  }

  lemma OpenWrite(a: State<nat>, u: State<nat>, t: State<nat>, r: nat, v: Value)
    requires a.Running? && Open(a, u) && t.Running? && u.top.base + r < |u.stack|
    requires t.stack == u.stack[u.top.base + r := v] && t.callers == u.callers && t.top == u.top.(pc := t.top.pc)
    ensures Open(a, t)
  {
    assert FrameAt(u, |u.callers|) == u.top;
    forall j | |a.callers| <= j <= |t.callers|
      ensures a.top.base <= FrameAt(t, j).base
    {
      assert a.top.base <= FrameAt(u, j).base;
    }
  }

  lemma OpenMove(a: State<nat>, u: State<nat>, t: State<nat>)
    requires a.Running? && Open(a, u) && t.Running?
    requires t.stack == u.stack && t.callers == u.callers && t.top == u.top.(pc := t.top.pc)
    ensures Open(a, t)
  {
    forall j | |a.callers| <= j <= |t.callers|
      ensures a.top.base <= FrameAt(t, j).base
    {
      assert a.top.base <= FrameAt(u, j).base;
    }
  }

  lemma OpenCall(a: State<nat>, u: State<nat>, t: State<nat>)
    requires a.Running? && Open(a, u) && t.Running? && t.stack == u.stack
    requires |t.callers| == |u.callers| + 1 && t.callers[..|u.callers|] == u.callers
    requires t.callers[|u.callers|] == u.top.(pc := t.callers[|u.callers|].pc) && u.top.base <= t.top.base
    ensures Open(a, t)
  {
    var d := |a.callers|;
    assert forall j | 0 <= j < |u.callers| :: t.callers[..|u.callers|][j] == t.callers[j];
    assert t.callers[..d] == u.callers[..d];
    assert a.top.base <= FrameAt(u, |u.callers|).base;
    forall j | d <= j <= |t.callers|
      ensures a.top.base <= FrameAt(t, j).base
    {
      if j <= |u.callers| { assert a.top.base <= FrameAt(u, j).base; }
    }
  }

  lemma OpenLeave(a: State<nat>, u: State<nat>)
    requires a.Running? && Open(a, u) && LeaveCall(u).Running?
    ensures var t := LeaveCall(u); if |t.callers| >= |a.callers| then Open(a, t) else Closed(a, u, t)
  {
    var d, n, t := |a.callers|, |u.callers| - 1, LeaveCall(u);
    if n >= d {
      assert t.callers[..d] == u.callers[..d];
      assert FrameAt(t, n) == FrameAt(u, n);
      assert a.top.base <= FrameAt(u, n).base;
      forall j | d <= j <= |t.callers|
        ensures a.top.base <= FrameAt(t, j).base
      {
        assert FrameAt(t, j) == FrameAt(u, j);
        assert a.top.base <= FrameAt(u, j).base;
      }
    } else {
      assert u.callers == a.callers;
      assert FrameAt(u, d) == u.top;
    }
  }

  /** One step inside a call either stays inside or is the return that closes it. */
  lemma StepInside(fs: seq<B.FuncObject>, a: State<nat>, v: B.Vm)
    requires a.Running? && Open(a, v.state) && B.Step(fs, v).state.Running?
    ensures var t := B.Step(fs, v).state; if |t.callers| >= |a.callers| then Open(a, t) else Closed(a, v.state, t)
  {
    hide Open, Closed, B.Fetch, B.Visible, OpValue, OpInFile, LeaveCall;
    var u, t := v.state, B.Step(fs, v).state;
    OpenDepth(a, u);
    match B.Fetch(fs[u.top.fn], u.top.pc) {
      case Ok(f) =>
        match f.instr
        case Window(op) =>
          WindowWrites(u, op, B.Visible(v.globals, v.moduleId), f.next);
          OpenWrite(a, u, t, op.dst, t.stack[u.top.base + op.dst]);
        case Call(_, _, _, _) => OpenCall(a, u, t);
        case Return => OpenLeave(a, u);
        case Forward(_) => OpenMove(a, u, t);
        case Backward(_) => OpenMove(a, u, t);
        case ForwardIf(_, _) => OpenMove(a, u, t);
        case DefineGlobal(_) => OpenMove(a, u, t);
    }
  }

  lemma OpenDepth(a: State<nat>, u: State<nat>)
    requires a.Running? && Open(a, u)
    ensures u.Running? && |a.callers| <= |u.callers|
  {
  }

  lemma WindowWrites(u: State<nat>, op: RegOp, globals: map<NameId, nat>, next: nat)
    requires u.Running? && Apply(op, u, globals, next).Running?
    ensures var t := Apply(op, u, globals, next);
            u.top.base + op.dst < |u.stack| &&
            t.stack == u.stack[u.top.base + op.dst := t.stack[u.top.base + op.dst]] &&
            t.callers == u.callers && t.top == u.top.(pc := next)
  {
    hide OpValue;
  }

  /** All of the first `n` steps from `v` stay at call depth `d` or deeper. */
  ghost predicate StaysAbove(fs: seq<B.FuncObject>, v: B.Vm, d: nat, n: nat)
    decreases n
  {
    v.state.Running? && |v.state.callers| >= d && (n > 0 ==> StaysAbove(fs, B.Step(fs, v), d, n - 1))
  }

  lemma {:induction false} RunInside(fs: seq<B.FuncObject>, a: State<nat>, v: B.Vm, n: nat)
    requires a.Running? && Open(a, v.state) && StaysAbove(fs, v, |a.callers|, n)
    ensures Open(a, B.Run(fs, v, n).state)
    decreases n
  {
    hide Open, Closed, B.Step;
    if n > 0 {
      assert StaysAbove(fs, B.Step(fs, v), |a.callers|, n - 1);
      StepInside(fs, a, v);
      RunInside(fs, a, B.Step(fs, v), n - 1);
    }
  }

  /** `v` is about to execute a call that opens its window at register `argStart`. */
  ghost predicate AtCall(fs: seq<B.FuncObject>, v: B.Vm, out: nat, argStart: nat) {
    && v.state.Running? && v.state.top.fn < |fs|
    && var f := B.Fetch(fs[v.state.top.fn], v.state.top.pc);
    && f.Ok? && f.value.instr.Call? && f.value.instr.out == out && f.value.instr.argStart == argStart
  }

  lemma CallEnters(fs: seq<B.FuncObject>, v: B.Vm, out: nat, argStart: nat)
    requires AtCall(fs, v, out, argStart) && B.Step(fs, v).state.Running?
    ensures v.state.Running?
    ensures var s, a := v.state, B.Step(fs, v).state;
            a.stack == s.stack && a.top.base == s.top.base + argStart && a.top.out == out &&
            |a.callers| == |s.callers| + 1 && a.callers[..|s.callers|] == s.callers &&
            a.callers[|s.callers|].(pc := s.top.pc) == s.top
  {
    hide B.Fetch;
  }

  /** From a call to its matching return: the caller goes on in its own frame; its
      registers below the window are unchanged except the destination, which holds what the
      callee left in its register 0.  From the window on the caller finds what the callee
      left: its own register 0 too, if the window starts there. */
  lemma CallFrame(fs: seq<B.FuncObject>, v: B.Vm, out: nat, argStart: nat, n: nat)
    requires AtCall(fs, v, out, argStart) && B.Step(fs, v).state.Running?
    requires StaysAbove(fs, B.Step(fs, v), |v.state.callers| + 1, n)
    requires var t := B.Run(fs, v, n + 2).state; t.Running? && |t.callers| <= |v.state.callers|
    ensures var s, u, t := v.state, B.Run(fs, v, n + 1).state, B.Run(fs, v, n + 2).state;
            && t.callers == s.callers && t.top.(pc := s.top.pc) == s.top && |t.stack| == |s.stack|
            && u.Running? && |u.stack| == |s.stack|
            && s.top.base + argStart < |u.stack| && s.top.base + out < |t.stack|
            && t.stack == u.stack[s.top.base + out := u.stack[s.top.base + argStart]]
            && forall i | 0 <= i < |s.stack| && i < s.top.base + argStart && i != s.top.base + out ::
                 t.stack[i] == s.stack[i]
  {
    hide B.Step, B.Run, Open, AtCall;
    var w := B.Step(fs, v);
    CallEnters(fs, v, out, argStart);
    OpenSelf(w.state);
    RunInside(fs, w.state, w, n);
    RunShift(fs, v, n);
    StepInside(fs, w.state, B.Run(fs, w, n));
    assert w.state.callers[..|v.state.callers|] == v.state.callers;
  }

  lemma RunShift(fs: seq<B.FuncObject>, v: B.Vm, n: nat)
    ensures B.Run(fs, v, n + 1) == B.Run(fs, B.Step(fs, v), n)
    ensures B.Run(fs, v, n + 2) == B.Step(fs, B.Run(fs, B.Step(fs, v), n))
  {
    hide B.Step;
    B.RunSplit(fs, B.Step(fs, v), n, 1);
    assert B.Run(fs, B.Step(fs, v), n + 1) == B.Step(fs, B.Run(fs, B.Step(fs, v), n)) by {
      B.RunOne(fs, B.Run(fs, B.Step(fs, v), n));
    }
  }
}
