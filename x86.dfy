/** The handful of 32-bit x86 instructions the relay and thunk generators
    emit, and an interpreter for them over the registers they touch and the
    stack.  Encodings, the executable buffer and every other register are
    outside the model.  A word is a `nat`; the stack is a sequence whose
    element 0 is the word at `[esp]`. */
module X86 {
  import opened Base

  datatype Instr =
    | PopEax           // pop eax
    | PopEdx           // pop edx
    | PushEax          // push eax
    | PushEdx          // push edx
    | PushEcx          // push ecx
    | PushImm(value: nat)  // push imm32
    | CallRelay        // call <relay function>
    | JmpRelay         // jmp <relay function>
    | AddEsp4          // add esp, 4
    | XchgEax(slot: nat)  // xchg eax, [esp + 4 * slot]
    | Ret              // ret

  datatype Machine = Machine(eax: nat, ecx: nat, edx: nat, stack: seq<nat>)

  /** Control leaves the generated code for `target` in state `state`. */
  datatype Exit = Exit(target: nat, state: Machine)

  /** A completed run: the machine the relay function was entered with, and
      how control finally left the generated code. */
  datatype Outcome = Outcome(view: Machine, exit: Exit)

  /** The instructions that neither call, jump nor return. */
  predicate IsData(i: Instr) {
    !i.CallRelay? && !i.JmpRelay? && !i.Ret?
  }

  predicate AllData(code: seq<Instr>) {
    forall k :: 0 <= k < |code| ==> IsData(code[k])
  }

  /** One data instruction; `None` when it pops an empty stack. */
  function Step(i: Instr, m: Machine): Option<Machine>
    requires IsData(i)
  {
    match i
    case PopEax => if m.stack == [] then None else Some(m.(eax := m.stack[0], stack := m.stack[1..]))
    case PopEdx => if m.stack == [] then None else Some(m.(edx := m.stack[0], stack := m.stack[1..]))
    case PushEax => Some(m.(stack := [m.eax] + m.stack))
    case PushEdx => Some(m.(stack := [m.edx] + m.stack))
    case PushEcx => Some(m.(stack := [m.ecx] + m.stack))
    case PushImm(v) => Some(m.(stack := [v] + m.stack))
    case AddEsp4 => if m.stack == [] then None else Some(m.(stack := m.stack[1..]))
    case XchgEax(k) =>
      if k < |m.stack| then Some(m.(eax := m.stack[k], stack := m.stack[k := m.eax])) else None
  }

  /** A straight run of data instructions. */
  function Exec(code: seq<Instr>, m: Machine): Option<Machine>
    requires AllData(code)
    decreases |code|
  {
    if code == [] then Some(m)
    else match Step(code[0], m)
      case None => None
      case Some(m') => Exec(code[1..], m')
  }

  /** Runs generated code entered in state `m`.  `relay` is what the relay
      function does when entered in a given state: the state it returns with
      (having popped its own return address), or `None` if it cannot run.  A
      `call` pushes `resume`, the address after the call, and execution goes
      on there once the relay function returns; a `jmp` leaves the return to
      the relay function, which goes back to whatever address is on top of
      the stack.  `view` records the state the relay function was entered
      with. */
  function Run(code: seq<Instr>, m: Machine, relay: Machine -> Option<Machine>,
               resume: nat, view: Option<Machine>): Option<Outcome>
    decreases |code|
  {
    if code == [] then None
    else
      match code[0]
      case CallRelay =>
        var entry := m.(stack := [resume] + m.stack);
        (match relay(entry)
         case None => None
         case Some(back) => Run(code[1..], back, relay, resume, Some(entry)))
      case JmpRelay =>
        if m.stack == [] then None
        else
          (match relay(m)
           case None => None
           case Some(back) => Some(Outcome(m, Exit(m.stack[0], back))))
      case Ret =>
        if m.stack == [] || view.None? then None
        else Some(Outcome(view.value, Exit(m.stack[0], m.(stack := m.stack[1..]))))
      case _ =>
        (match Step(code[0], m)
         case None => None
         case Some(m') => Run(code[1..], m', relay, resume, view))
  }

  /** A run of data instructions at the head of the code can be executed on
      its own first. */
  lemma {:induction false} RunAfterData(pre: seq<Instr>, post: seq<Instr>, m: Machine,
                                        relay: Machine -> Option<Machine>, resume: nat,
                                        view: Option<Machine>)
    requires AllData(pre)
    ensures Run(pre + post, m, relay, resume, view) ==
      match Exec(pre, m)
      case None => None
      case Some(m') => Run(post, m', relay, resume, view)
  {
    if pre != [] {
      assert (pre + post)[0] == pre[0];
      assert (pre + post)[1..] == pre[1..] + post;
      match Step(pre[0], m)
      case None =>
      case Some(m') =>
        RunAfterData(pre[1..], post, m', relay, resume, view);
    } else {
      assert pre + post == post;
    }
  }

  /** Executing two straight runs one after the other. */
  lemma {:induction false} ExecAppend(a: seq<Instr>, b: seq<Instr>, m: Machine)
    requires AllData(a) && AllData(b)
    ensures AllData(a + b)
    ensures Exec(a + b, m) ==
      match Exec(a, m)
      case None => None
      case Some(m') => Exec(b, m')
  {
    assert AllData(a + b) by {
      forall k | 0 <= k < |a + b| ensures IsData((a + b)[k]) {
        if k < |a| { assert (a + b)[k] == a[k]; } else { assert (a + b)[k] == b[k - |a|]; }
      }
    }
    if a != [] {
      assert (a + b)[0] == a[0];
      assert (a + b)[1..] == a[1..] + b;
      match Step(a[0], m)
      case None =>
      case Some(m') =>
        ExecAppend(a[1..], b, m');
    } else {
      assert a + b == b;
    }
  }

  /** Executing one data instruction ahead of a straight run. */
  lemma ExecCons(i: Instr, rest: seq<Instr>, m: Machine, m': Machine)
    requires IsData(i) && AllData(rest) && Step(i, m) == Some(m')
    ensures AllData([i] + rest)
    ensures Exec([i] + rest, m) == Exec(rest, m')
  {
    assert ([i] + rest)[0] == i;
    assert ([i] + rest)[1..] == rest;
  }

  /** A `call` enters the relay function with the resume address pushed and
      goes on with what it returns. */
  lemma RunCall(rest: seq<Instr>, m: Machine, relay: Machine -> Option<Machine>, resume: nat,
                view: Option<Machine>, back: Machine)
    requires relay(m.(stack := [resume] + m.stack)) == Some(back)
    ensures Run([CallRelay] + rest, m, relay, resume, view) ==
      Run(rest, back, relay, resume, Some(m.(stack := [resume] + m.stack)))
  {
    assert ([CallRelay] + rest)[1..] == rest;
  }

  /** A `jmp` leaves the return to the relay function. */
  lemma RunJmp(m: Machine, relay: Machine -> Option<Machine>, resume: nat,
               view: Option<Machine>, back: Machine)
    requires m.stack != [] && relay(m) == Some(back)
    ensures Run([JmpRelay], m, relay, resume, view) == Some(Outcome(m, Exit(m.stack[0], back)))
  {
  }

  /** A `ret` after a call goes to the address on top of the stack. */
  lemma RunRet(m: Machine, relay: Machine -> Option<Machine>, resume: nat, entry: Machine)
    requires m.stack != []
    ensures Run([Ret], m, relay, resume, Some(entry)) ==
      Some(Outcome(entry, Exit(m.stack[0], m.(stack := m.stack[1..]))))
  {
  }

  /** Three straight runs, each starting where the previous one stopped. */
  lemma ExecChain(p1: seq<Instr>, p2: seq<Instr>, p3: seq<Instr>, m0: Machine, m1: Machine,
                  m2: Machine, m3: Machine)
    requires AllData(p1) && AllData(p2) && AllData(p3)
    requires Exec(p1, m0) == Some(m1) && Exec(p2, m1) == Some(m2) && Exec(p3, m2) == Some(m3)
    ensures AllData(p1 + p2 + p3) && Exec(p1 + p2 + p3, m0) == Some(m3)
  {
    ExecAppend(p1, p2, m0);
    ExecAppend(p1 + p2, p3, m0);
  }
}
