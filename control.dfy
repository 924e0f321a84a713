/** The decisions of the control-instruction handlers, as functions of
    their read-only inputs: the (locals, arity) of a label, which body is
    entered, which label a branch targets, and how an indirect call is
    classified. The handlers in module Engine are proved against these. */
module Control {
  import opened Types

  /** What a label is told to do when a branch targets it: nothing more
      (block, if) or restart the loop instruction it belongs to. */
  datatype Continuation = NoContinuation | LoopInstr(instr: Instr)

  /** An invocation of one of the collaborators the handlers call. */
  datatype Action =
    | EnterBlock(locals: nat, arity: nat, cont: Continuation, body: seq<Instr>)
    | BranchToLabel(depth: nat)
    | EnterFunction(funcAddr: nat)
    | PopFrame

  /** What a handler does next: return success at once, invoke one
      collaborator, or trap. */
  datatype Next = Fallthrough | Invoke(action: Action) | Trap(code: ErrCode)

  /** The number of values a label takes in (`locals`) and hands back (`arity`). */
  datatype Scope = Scope(locals: nat, arity: nat)

  /** The collaborator invocations that `n` makes. */
  function Logged(n: Next): seq<Action>
  {
    if n.Invoke? then [n.action] else []
  }

  /** The handler's result for decision `n`, where `calleeResult` is what the
      invoked collaborator returns. `popFrame` returns nothing, so a handler
      that pops a frame succeeds. */
  function Outcome(n: Next, calleeResult: Expect): Expect
  {
    match n
    case Fallthrough => Ok
    case Invoke(a) => if a.PopFrame? then Ok else calleeResult
    case Trap(e) => Err(e)
  }

  // ---------------------------------------------------------------------
  // Block types

  /** The store and current module can resolve block type `bt`. */
  predicate BlockTypeResolves(store: Store, modAddr: nat, bt: BlockType)
  {
    bt.TypeIdxBT? ==> modAddr < |store.modules| && bt.index < |store.modules[modAddr].types|
  }

  /** The function type a block type stands for, as the WebAssembly Core
      Specification expands block types: a value type `t` is `[] -> [t]`,
      the empty type is `[] -> []`, a type index is that module type. */
  function Expand(store: Store, modAddr: nat, bt: BlockType): FuncType
    requires BlockTypeResolves(store, modAddr, bt)
  {
    match bt
    case ValTypeBT(t) => if t == None then FuncType([], []) else FuncType([], [t])
    case TypeIdxBT(x) => store.modules[modAddr].types[x]
  }

  /** The scope of a `block` or `if`: its inputs are the parameters and its
      arity the results of the expanded block type. */
  function BlockScope(store: Store, modAddr: nat, bt: BlockType): (s: Scope)
    requires BlockTypeResolves(store, modAddr, bt)
    ensures s.locals == |Expand(store, modAddr, bt).params|
    ensures s.arity == |Expand(store, modAddr, bt).results|
  {
    match bt
    case ValTypeBT(t) => Scope(0, if t == None then 0 else 1)
    case TypeIdxBT(x) =>
      var funcType := store.modules[modAddr].types[x];
      Scope(|funcType.params|, |funcType.results|)
  }

  /** The scope of a `loop`: a branch to a loop re-enters it with its
      inputs, so both numbers are the parameter count, never the result count. */
  function LoopScope(store: Store, modAddr: nat, bt: BlockType): (s: Scope)
    requires BlockTypeResolves(store, modAddr, bt)
    ensures s.locals == s.arity == |Expand(store, modAddr, bt).params|
  {
    if bt.TypeIdxBT? then
      var params := |store.modules[modAddr].types[bt.index].params|;
      Scope(params, params)
    else
      Scope(0, 0)
  }

  // ---------------------------------------------------------------------
  // block, loop, if/else

  /** `block`: enter exactly one label over the body, with no continuation. */
  function BlockNext(store: Store, modAddr: nat, bt: BlockType, body: seq<Instr>): (n: Next)
    requires BlockTypeResolves(store, modAddr, bt)
    ensures n.Invoke? && n.action.EnterBlock?
    ensures n.action.locals == |Expand(store, modAddr, bt).params|
    ensures n.action.arity == |Expand(store, modAddr, bt).results|
    ensures n.action.cont == NoContinuation && n.action.body == body
  {
    var s := BlockScope(store, modAddr, bt);
    Invoke(EnterBlock(s.locals, s.arity, NoContinuation, body))
  }

  /** `loop`: enter exactly one label over the body that carries the loop
      itself as its continuation. */
  function LoopNext(store: Store, modAddr: nat, instr: Instr): (n: Next)
    requires instr.Loop? && BlockTypeResolves(store, modAddr, instr.blockType)
    ensures n.Invoke? && n.action.EnterBlock?
    ensures n.action.locals == n.action.arity == |Expand(store, modAddr, instr.blockType).params|
    ensures n.action.cont == LoopInstr(instr) && n.action.body == instr.body
  {
    var s := LoopScope(store, modAddr, instr.blockType);
    Invoke(EnterBlock(s.locals, s.arity, LoopInstr(instr), instr.body))
  }

  /** The body an `if` selects for condition `cond`. */
  function TakenBody(instr: Instr, cond: u32): seq<Instr>
    requires instr.IfElse?
  {
    if cond != 0 then instr.thenBody else instr.elseBody
  }

  /** `if`/`else`: a nonzero condition selects the then-body, zero the
      else-body; a label is entered only when the selected body holds more
      than its `End`, and then exactly as `block` would enter it. */
  function IfElseNext(store: Store, modAddr: nat, instr: Instr, cond: u32): (n: Next)
    requires instr.IfElse? && BlockTypeResolves(store, modAddr, instr.blockType)
    ensures n.Invoke? <==> |TakenBody(instr, cond)| > 1
    ensures n.Invoke? ==> n == BlockNext(store, modAddr, instr.blockType, TakenBody(instr, cond))
    ensures !n.Invoke? ==> n == Fallthrough
  {
    var s := BlockScope(store, modAddr, instr.blockType);
    if cond != 0 then
      if |instr.thenBody| > 1 then Invoke(EnterBlock(s.locals, s.arity, NoContinuation, instr.thenBody))
      else Fallthrough
    else
      if |instr.elseBody| > 1 then Invoke(EnterBlock(s.locals, s.arity, NoContinuation, instr.elseBody))
      else Fallthrough
  }

  // ---------------------------------------------------------------------
  // Branches

  /** `br l`: branch to relative label depth `l`. */
  function BrNext(labelIndex: nat): Next
  {
    Invoke(BranchToLabel(labelIndex))
  }

  /** `return`: pop exactly one frame. */
  function ReturnNext(): Next
  {
    Invoke(PopFrame)
  }

  /** `br_if l`: branch exactly when the condition is nonzero; otherwise
      succeed without doing anything. */
  function BrIfNext(labelIndex: nat, cond: u32): (n: Next)
    ensures n == BrNext(labelIndex) <==> cond != 0
    ensures n == Fallthrough <==> cond == 0
  {
    if cond != 0 then BrNext(labelIndex) else Fallthrough
  }

  function Min(a: int, b: int): int
  {
    if a < b then a else b
  }

  /** The label depth `br_table` branches to for index `v`: the entry at `v`
      when there is one, the default otherwise. Equivalently, the entry at
      `v`, clamped to the last position, of the label list with the default
      appended. */
  function BrTableTarget(labelList: seq<nat>, default: nat, v: u32): (t: nat)
    ensures v as int < |labelList| ==> t == labelList[v]
    ensures |labelList| <= v as int ==> t == default
    ensures t == (labelList + [default])[Min(v as int, |labelList|)]
  {
    if (v as int) < |labelList| then labelList[v] else default
  }

  /** `br_table`: always a branch, never a trap, to a listed label or the default. */
  function BrTableNext(instr: Instr, v: u32): (n: Next)
    requires instr.BrTable?
    ensures n.Invoke? && n.action.BranchToLabel?
    ensures n.action.depth in instr.labelList || n.action.depth == instr.labelIndex
    ensures n == BrNext(BrTableTarget(instr.labelList, instr.labelIndex, v))
  {
    var labelTable := instr.labelList;
    if (v as int) < |labelTable| then BrNext(labelTable[v]) else BrNext(instr.labelIndex)
  }

  // ---------------------------------------------------------------------
  // Calls

  /** The store and current module can resolve the direct call of function `funcIdx`. */
  predicate CallResolves(store: Store, modAddr: nat, funcIdx: nat)
  {
    && modAddr < |store.modules|
    && funcIdx < |store.modules[modAddr].funcAddrs|
    && store.modules[modAddr].funcAddrs[funcIdx] < |store.funcs|
  }

  /** `call f`: enter the function at the address the module gives `f`. */
  function CallNext(store: Store, modAddr: nat, funcIdx: nat): Next
    requires CallResolves(store, modAddr, funcIdx)
  {
    Invoke(EnterFunction(store.modules[modAddr].funcAddrs[funcIdx]))
  }

  /** Equality of two value-type lists, compared as vectors are: lengths
      first, then position by position in order. */
  function SameValTypes(a: seq<ValType>, b: seq<ValType>): (r: bool)
    ensures r <==> a == b
    decreases |a|
  {
    if |a| != |b| then false
    else if |a| == 0 then true
    else
      assert a == [a[0]] + a[1..] && b == [b[0]] + b[1..];
      a[0] == b[0] && SameValTypes(a[1..], b[1..])
  }

  /** Equality of function types: both parameter lists and both result lists. */
  function FuncTypesEqual(x: FuncType, y: FuncType): (r: bool)
    ensures r <==> x == y
  {
    SameValTypes(x.params, y.params) && SameValTypes(x.results, y.results)
  }

  /** Every non-null slot of table `t` holds an address of the store. */
  predicate RefsResolve(store: Store, t: TableInst)
  {
    forall i :: 0 <= i < |t.refs| && t.refs[i].FuncRefTo? ==> t.refs[i].addr < |store.funcs|
  }

  /** The store and current module can resolve table `tableIdx` and type `typeIdx`. */
  predicate CallIndirectResolves(store: Store, modAddr: nat, tableIdx: nat, typeIdx: nat)
  {
    && modAddr < |store.modules|
    && tableIdx < |store.modules[modAddr].tableAddrs|
    && store.modules[modAddr].tableAddrs[tableIdx] < |store.tables|
    && typeIdx < |store.modules[modAddr].types|
    && RefsResolve(store, store.tables[store.modules[modAddr].tableAddrs[tableIdx]])
  }

  /** The table instance of the current module's table `tableIdx`. */
  function TableOf(store: Store, modAddr: nat, tableIdx: nat): TableInst
    requires modAddr < |store.modules|
    requires tableIdx < |store.modules[modAddr].tableAddrs|
    requires store.modules[modAddr].tableAddrs[tableIdx] < |store.tables|
  {
    store.tables[store.modules[modAddr].tableAddrs[tableIdx]]
  }

  /** `call_indirect`: with table index `idx`, trap `UndefinedElement` when
      it is past the table, else `UninitializedElement` when the slot is
      null, else `IndirectCallTypeMismatch` when the callee's signature
      differs from the expected type; otherwise enter the callee in the slot. */
  function CallIndirectNext(store: Store, modAddr: nat, tableIdx: nat, typeIdx: nat, idx: u32): (n: Next)
    requires CallIndirectResolves(store, modAddr, tableIdx, typeIdx)
    ensures n.Trap? || (n.Invoke? && n.action.EnterFunction?)
    ensures n == Trap(UndefinedElement) <==> |TableOf(store, modAddr, tableIdx).refs| <= idx as int
    ensures n == Trap(UninitializedElement) <==>
              idx as int < |TableOf(store, modAddr, tableIdx).refs| &&
              TableOf(store, modAddr, tableIdx).refs[idx].NullRef?
    ensures n == Trap(IndirectCallTypeMismatch) <==>
              idx as int < |TableOf(store, modAddr, tableIdx).refs| &&
              TableOf(store, modAddr, tableIdx).refs[idx].FuncRefTo? &&
              store.funcs[TableOf(store, modAddr, tableIdx).refs[idx].addr].funcType
                != store.modules[modAddr].types[typeIdx]
    ensures n.Trap? ==> !n.code.CalleeTrap?
    ensures idx as int < |TableOf(store, modAddr, tableIdx).refs| &&
            TableOf(store, modAddr, tableIdx).refs[idx].FuncRefTo? &&
            store.funcs[TableOf(store, modAddr, tableIdx).refs[idx].addr].funcType
              == store.modules[modAddr].types[typeIdx]
            ==> n == Invoke(EnterFunction(TableOf(store, modAddr, tableIdx).refs[idx].addr))
    ensures n.Invoke? ==>
              idx as int < |TableOf(store, modAddr, tableIdx).refs| &&
              TableOf(store, modAddr, tableIdx).refs[idx] == FuncRefTo(n.action.funcAddr) &&
              store.funcs[n.action.funcAddr].funcType == store.modules[modAddr].types[typeIdx]
  {
    var table := TableOf(store, modAddr, tableIdx);
    var targetType := store.modules[modAddr].types[typeIdx];
    if |table.refs| <= idx as int then Trap(UndefinedElement)
    else if table.refs[idx].NullRef? then Trap(UninitializedElement)
    else if !FuncTypesEqual(targetType, store.funcs[table.refs[idx].addr].funcType) then
      Trap(IndirectCallTypeMismatch)
    else Invoke(EnterFunction(table.refs[idx].addr))
  }

  /** An indirect call whose slot holds the address the module gives
      function `funcIdx`, with the expected signature, does exactly what
      `call funcIdx` does. */
  lemma CallIndirectAgreesWithCall(store: Store, modAddr: nat, tableIdx: nat, typeIdx: nat, idx: u32, funcIdx: nat)
    requires CallIndirectResolves(store, modAddr, tableIdx, typeIdx)
    requires CallResolves(store, modAddr, funcIdx)
    requires idx as int < |TableOf(store, modAddr, tableIdx).refs|
    requires TableOf(store, modAddr, tableIdx).refs[idx] == FuncRefTo(store.modules[modAddr].funcAddrs[funcIdx])
    requires store.funcs[store.modules[modAddr].funcAddrs[funcIdx]].funcType == store.modules[modAddr].types[typeIdx]
    ensures CallIndirectNext(store, modAddr, tableIdx, typeIdx, idx) == CallNext(store, modAddr, funcIdx)
  {
  }
}
