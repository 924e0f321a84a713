/** The control-instruction handlers of the interpreter. Each handler pops
    its `u32` operand from the operand stack, if it has one, and then calls
    at most one collaborator: enter a block, branch to a label, enter a
    function or pop a frame. The collaborators execute code this model
    does not contain. Here each one appends an `Action` to `log`, records
    the operand stack it was handed, may change the operand stack in any
    way (unwinding to a label or frame, taking a call's arguments), and
    returns `calleeResult`, the result the real collaborator would produce,
    which the handler passes back unchanged. */
module Engine {
  import opened Types
  import opened Control

  /** The operand stack holds a `u32` on top. */
  predicate TopIsU32(stack: seq<Value>)
  {
    |stack| > 0 && stack[|stack| - 1].U32?
  }

  /** The `u32` on top of the operand stack. */
  function TopU32(stack: seq<Value>): u32
    requires TopIsU32(stack)
  {
    stack[|stack| - 1].bits
  }

  class Interpreter {
    /** The operand stack of the stack manager; its top is the last element. */
    var stack: seq<Value>
    /** Every collaborator invocation made so far, oldest first. */
    var log: seq<Action>
    /** The address of the current frame's module instance. */
    const moduleAddr: nat
    /** The operand stack as the most recently invoked collaborator found it. */
    ghost var stackAtCall: seq<Value>

    constructor (moduleAddr: nat, stack: seq<Value>)
      ensures this.moduleAddr == moduleAddr && this.stack == stack && log == []
    {
      this.moduleAddr := moduleAddr;
      this.stack := stack;
      log := [];
    }

    /** Pops the operand stack and reads the value as a `u32`. Validation
        guarantees that the value is a `u32`. */
    method PopU32() returns (v: u32)
      requires TopIsU32(stack)
      modifies this`stack
      ensures stack == old(stack)[..|old(stack)| - 1]
      ensures v == TopU32(old(stack))
    {
      v := stack[|stack| - 1].bits;
      stack := stack[..|stack| - 1];
    }

    // Collaborators: each one records that it was invoked, with its
    // arguments and the operand stack it was handed. What it then does to
    // the operand stack is left open.

    method EnterBlock(locals: nat, arity: nat, cont: Continuation, body: seq<Instr>, calleeResult: Expect)
      returns (r: Expect)
      modifies this`stack, this`log, this`stackAtCall
      ensures stackAtCall == old(stack)
      ensures log == old(log) + [Action.EnterBlock(locals, arity, cont, body)]
      ensures r == calleeResult
    {
      stackAtCall := stack;
      log := log + [Action.EnterBlock(locals, arity, cont, body)];
      r := calleeResult;
    }

    method BranchToLabel(depth: nat, calleeResult: Expect) returns (r: Expect)
      modifies this`stack, this`log, this`stackAtCall
      ensures stackAtCall == old(stack)
      ensures log == old(log) + [Action.BranchToLabel(depth)]
      ensures r == calleeResult
    {
      stackAtCall := stack;
      log := log + [Action.BranchToLabel(depth)];
      r := calleeResult;
    }

    method EnterFunction(funcAddr: nat, calleeResult: Expect) returns (r: Expect)
      modifies this`stack, this`log, this`stackAtCall
      ensures stackAtCall == old(stack)
      ensures log == old(log) + [Action.EnterFunction(funcAddr)]
      ensures r == calleeResult
    {
      stackAtCall := stack;
      log := log + [Action.EnterFunction(funcAddr)];
      r := calleeResult;
    }

    method PopFrame()
      modifies this`stack, this`log, this`stackAtCall
      ensures stackAtCall == old(stack)
      ensures log == old(log) + [Action.PopFrame]
    {
      stackAtCall := stack;
      log := log + [Action.PopFrame];
    }

    // Handlers. Each states the operand stack it leaves when it calls no
    // collaborator, and the operand stack it hands the collaborator it calls.

    /** `block`: computes the label's (locals, arity) from the block type and
        enters the body, popping nothing itself. */
    method RunBlockOp(store: Store, instr: Instr, calleeResult: Expect) returns (r: Expect)
      requires instr.Block? && BlockTypeResolves(store, moduleAddr, instr.blockType)
      modifies this`stack, this`log, this`stackAtCall
      ensures stackAtCall == old(stack)
      ensures log == old(log) + Logged(BlockNext(store, moduleAddr, instr.blockType, instr.body))
      ensures r == Outcome(BlockNext(store, moduleAddr, instr.blockType, instr.body), calleeResult)
    {
      var scope := BlockScope(store, moduleAddr, instr.blockType);
      r := EnterBlock(scope.locals, scope.arity, NoContinuation, instr.body, calleeResult);
    }

    /** `loop`: enters the body under a label whose locals and arity are both
        the parameter count and whose continuation is the loop itself. */
    method RunLoopOp(store: Store, instr: Instr, calleeResult: Expect) returns (r: Expect)
      requires instr.Loop? && BlockTypeResolves(store, moduleAddr, instr.blockType)
      modifies this`stack, this`log, this`stackAtCall
      ensures stackAtCall == old(stack)
      ensures log == old(log) + Logged(LoopNext(store, moduleAddr, instr))
      ensures r == Outcome(LoopNext(store, moduleAddr, instr), calleeResult)
    {
      var scope := LoopScope(store, moduleAddr, instr.blockType);
      r := EnterBlock(scope.locals, scope.arity, LoopInstr(instr), instr.body, calleeResult);
    }

    /** `if`/`else`: pops the condition and enters the selected body unless
        it holds nothing but its `End`. */
    method RunIfElseOp(store: Store, instr: Instr, calleeResult: Expect) returns (r: Expect)
      requires instr.IfElse? && BlockTypeResolves(store, moduleAddr, instr.blockType)
      requires TopIsU32(stack)
      modifies this`stack, this`log, this`stackAtCall
      ensures IfElseNext(store, moduleAddr, instr, TopU32(old(stack))).Invoke? ==>
                stackAtCall == old(stack)[..|old(stack)| - 1]
      ensures !IfElseNext(store, moduleAddr, instr, TopU32(old(stack))).Invoke? ==>
                stack == old(stack)[..|old(stack)| - 1]
      ensures log == old(log) + Logged(IfElseNext(store, moduleAddr, instr, TopU32(old(stack))))
      ensures r == Outcome(IfElseNext(store, moduleAddr, instr, TopU32(old(stack))), calleeResult)
    {
      var cond := PopU32();

      var scope := BlockScope(store, moduleAddr, instr.blockType);

      if cond != 0 {
        if |instr.thenBody| > 1 {
          r := EnterBlock(scope.locals, scope.arity, NoContinuation, instr.thenBody, calleeResult);
          return;
        }
      } else {
        if |instr.elseBody| > 1 {
          r := EnterBlock(scope.locals, scope.arity, NoContinuation, instr.elseBody, calleeResult);
          return;
        }
      }
      r := Ok;
    }

    /** `br l`: branches to label depth `l`, popping nothing itself. */
    method RunBrOp(store: Store, instr: Instr, calleeResult: Expect) returns (r: Expect)
      requires instr.Br? || instr.BrIf?
      modifies this`stack, this`log, this`stackAtCall
      ensures stackAtCall == old(stack)
      ensures log == old(log) + Logged(BrNext(instr.labelIndex))
      ensures r == Outcome(BrNext(instr.labelIndex), calleeResult)
    {
      r := BranchToLabel(instr.labelIndex, calleeResult);
    }

    /** `br_if l`: pops the condition and branches as `br l` when it is nonzero. */
    method RunBrIfOp(store: Store, instr: Instr, calleeResult: Expect) returns (r: Expect)
      requires instr.BrIf? && TopIsU32(stack)
      modifies this`stack, this`log, this`stackAtCall
      ensures TopU32(old(stack)) != 0 ==> stackAtCall == old(stack)[..|old(stack)| - 1]
      ensures TopU32(old(stack)) == 0 ==> stack == old(stack)[..|old(stack)| - 1]
      ensures log == old(log) + Logged(BrIfNext(instr.labelIndex, TopU32(old(stack))))
      ensures r == Outcome(BrIfNext(instr.labelIndex, TopU32(old(stack))), calleeResult)
    {
      var cond := PopU32();
      if cond != 0 {
        r := RunBrOp(store, instr, calleeResult);
        return;
      }
      r := Ok;
    }

    /** `br_table`: pops the index and branches to the listed label it
        selects, or to the default label. */
    method RunBrTableOp(store: Store, instr: Instr, calleeResult: Expect) returns (r: Expect)
      requires instr.BrTable? && TopIsU32(stack)
      modifies this`stack, this`log, this`stackAtCall
      ensures stackAtCall == old(stack)[..|old(stack)| - 1]
      ensures log == old(log) + Logged(BrTableNext(instr, TopU32(old(stack))))
      ensures r == Outcome(BrTableNext(instr, TopU32(old(stack))), calleeResult)
    {
      var value := PopU32();
      var labelTable := instr.labelList;
      if (value as int) < |labelTable| {
        r := BranchToLabel(labelTable[value], calleeResult);
        return;
      }
      r := BranchToLabel(instr.labelIndex, calleeResult);
    }

    /** `return`: pops exactly one frame and succeeds. */
    method RunReturnOp() returns (r: Expect)
      modifies this`stack, this`log, this`stackAtCall
      ensures stackAtCall == old(stack)
      ensures log == old(log) + Logged(ReturnNext())
      ensures r == Ok
    {
      PopFrame();
      r := Ok;
    }

    /** `call f`: enters the function at the address the current module gives
        `f`, popping nothing itself. */
    method RunCallOp(store: Store, instr: Instr, calleeResult: Expect) returns (r: Expect)
      requires instr.Call? && CallResolves(store, moduleAddr, instr.targetIndex)
      modifies this`stack, this`log, this`stackAtCall
      ensures stackAtCall == old(stack)
      ensures log == old(log) + Logged(CallNext(store, moduleAddr, instr.targetIndex))
      ensures r == Outcome(CallNext(store, moduleAddr, instr.targetIndex), calleeResult)
    {
      var modInst := store.modules[moduleAddr];
      var funcAddr := modInst.funcAddrs[instr.targetIndex];
      r := EnterFunction(funcAddr, calleeResult);
    }

    /** `call_indirect`: pops the table index, traps on an index past the
        table, a null slot or a signature that differs from the expected
        type, and otherwise enters the function in the slot. A trap enters
        nothing and leaves only the index popped. */
    method RunCallIndirectOp(store: Store, instr: Instr, calleeResult: Expect) returns (r: Expect)
      requires instr.CallIndirect? && TopIsU32(stack)
      requires CallIndirectResolves(store, moduleAddr, instr.tableIndex, instr.targetIndex)
      modifies this`stack, this`log, this`stackAtCall
      ensures CallIndirectNext(store, moduleAddr, instr.tableIndex, instr.targetIndex, TopU32(old(stack))).Invoke? ==>
                stackAtCall == old(stack)[..|old(stack)| - 1]
      ensures CallIndirectNext(store, moduleAddr, instr.tableIndex, instr.targetIndex, TopU32(old(stack))).Trap? ==>
                stack == old(stack)[..|old(stack)| - 1]
      ensures log == old(log) + Logged(CallIndirectNext(store, moduleAddr, instr.tableIndex, instr.targetIndex, TopU32(old(stack))))
      ensures r == Outcome(CallIndirectNext(store, moduleAddr, instr.tableIndex, instr.targetIndex, TopU32(old(stack))), calleeResult)
    {
      var modInst := store.modules[moduleAddr];
      var table := store.tables[modInst.tableAddrs[instr.tableIndex]];
      var targetFuncType := modInst.types[instr.targetIndex];

      var idx := PopU32();

      if |table.refs| <= idx as int {
        return Err(UndefinedElement);
      }

      var ref := table.refs[idx];
      if ref.NullRef? {
        return Err(UninitializedElement);
      }
      var funcAddr := ref.addr;

      var funcType := store.funcs[funcAddr].funcType;
      if !FuncTypesEqual(targetFuncType, funcType) {
        return Err(IndirectCallTypeMismatch);
      }
      r := EnterFunction(funcAddr, calleeResult);
    }
  }
}
