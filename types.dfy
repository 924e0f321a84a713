/** Runtime and AST types the control handlers read: value types, block
    types, function types, the control instructions themselves, the store
    (modules, functions, tables), operand values and the typed error codes. */
module Types {

  /** An unsigned 32-bit integer, the width of the operands the control
      handlers pop (conditions and table indices). */
  newtype u32 = x: int | 0 <= x < 0x1_0000_0000

  /** Value types. `None` is the empty block result type. */
  datatype ValType = I32 | I64 | F32 | F64 | V128 | FuncRef | ExternRef | None

  /** A block type: either a single (possibly empty) value type or an index
      into the current module's function-type table. */
  datatype BlockType = ValTypeBT(valType: ValType) | TypeIdxBT(index: nat)

  /** A function signature: ordered parameter types and ordered result types (the source's `Returns`). */
  datatype FuncType = FuncType(params: seq<ValType>, results: seq<ValType>)

  /** Instructions. The control instructions carry the immediates their
      handlers read; every other instruction is `Plain`. A body ends with
      its `End` instruction, so an empty body has size 1. */
  datatype Instr =
    | Block(blockType: BlockType, body: seq<Instr>)
    | Loop(blockType: BlockType, body: seq<Instr>)
    | IfElse(blockType: BlockType, thenBody: seq<Instr>, elseBody: seq<Instr>)
    | Br(labelIndex: nat)
    | BrIf(labelIndex: nat)
    | BrTable(labelList: seq<nat>, labelIndex: nat)
    | Return
    | Call(targetIndex: nat)
    | CallIndirect(tableIndex: nat, targetIndex: nat)
    | End
    | Plain(opcode: nat)

  /** The content of a table slot: a null reference or a function address. */
  datatype Ref = NullRef | FuncRefTo(addr: nat)

  /** A module instance: its function types and the store addresses of its
      functions and tables, each indexed by the module's own indices. */
  datatype ModuleInst = ModuleInst(types: seq<FuncType>, funcAddrs: seq<nat>, tableAddrs: seq<nat>)

  datatype FunctionInst = FunctionInst(funcType: FuncType, body: seq<Instr>)

  /** A table instance; its size is the number of slots. */
  datatype TableInst = TableInst(refs: seq<Ref>)

  /** The store: module, function and table instances by address. */
  datatype Store = Store(modules: seq<ModuleInst>, funcs: seq<FunctionInst>, tables: seq<TableInst>)

  /** An operand value. Only 32-bit integers have a meaning here; a value of
      any other type is opaque. */
  datatype Value = U32(bits: u32) | NonU32(payload: int)

  /** Trap codes: the three the control handlers raise on their own account,
      and any other trap raised by code the collaborators execute (a nested
      body or a called function), which the handlers pass on unchanged. */
  datatype ErrCode =
    | UndefinedElement
    | UninitializedElement
    | IndirectCallTypeMismatch
    | CalleeTrap(code: nat)

  /** The result of a handler: success, or a typed trap. */
  datatype Expect = Ok | Err(code: ErrCode)
}
