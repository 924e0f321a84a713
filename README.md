# Control-instruction dispatcher of the SSVM WebAssembly interpreter

This project models the handlers for WebAssembly's structured control instructions:
`block`, `loop`, `if`/`else`, `br`, `br_if`, `br_table`, `return`, `call` and
`call_indirect`. Section 4.4.8 (Control Instructions) and section 4.4.10
(Function Calls) of the WebAssembly Core Specification 2.0 describe their
semantics. Each handler does three things:

- it works out the `(locals, arity)` of the label it would push, from the block
  type;
- it pops its `u32` operand (a condition or a table index);
- it then either returns success at once, calls exactly one collaborator, or
  returns one of three typed traps.

The collaborators are enter a block, branch to a relative label depth, enter a
function, and pop a frame.

The model has three files:

- `types.dfy` (module `Types`) holds the data model. It defines value types,
  block types (a value type or a type index), function types, the control
  instructions with their immediates, and the store. The store holds module
  instances (function types, function addresses, table addresses), function
  instances and table instances, whose slots are a null reference or a function
  address. It also defines operand values, where only `u32` has a meaning, the
  error codes, and the `Expect` result.
- `control.dfy` (module `Control`) holds the handlers' decisions as functions of
  their read-only inputs. Each returns a `Next`: `Fallthrough`, `Invoke(action)`
  or `Trap(code)`. These functions carry the properties:
  - labels agree with the block-type expansion of the WebAssembly Core
    Specification (`Expand`);
  - a loop label's arity is its parameter count;
  - `if` enters its taken body exactly as `block` would;
  - `br_if` branches if and only if its condition is nonzero;
  - `br_table` picks the listed label or the default, and never traps;
  - `call_indirect` classifies traps in order, is type safe when it succeeds,
    and agrees with `call`.
- `interpreter.dfy` (module `Engine`) holds the class `Interpreter`. Its fields
  are the operand stack (`stack`), an action log (`log`) and the current frame's
  module address. It has one method per handler, written as the source writes
  it: pop, compute the scope, then branch. Each method is proved against its
  decision function. Its `ensures` give the operand stack it hands to the
  collaborator it calls (the stack it received, or that stack with exactly its
  operand popped). When it calls no collaborator, they give the stack it
  leaves. They also give the new log (the old log plus the collaborator call,
  if any) and the result.

The collaborators are methods of the class that append an `Action` (their
arguments) to `log`. Each also records the operand stack it was handed in the
ghost field `stackAtCall`. What a collaborator then does to the operand stack
is left open. The source returns the collaborator's own `Expect` as the
handler's result. That result comes from code outside the model, so each handler
takes it as the parameter `calleeResult` and passes it back unchanged. It can be
success, one of the three `call_indirect` traps, or any other trap raised by the
executed code (`CalleeTrap`). `popFrame` returns nothing, so `return` always
succeeds.

## Model

| member | source | states |
|---|---|---|
| Control.BlockScope | lib/interpreter/engine/control.cpp:14-24 | The label of a `block` or `if` takes in the expanded block type's parameter count and hands back its result count. An empty value type gives (0, 0), any other value type gives (0, 1), and a type index gives (&#124;Params&#124;, &#124;Returns&#124;). |
| Control.LoopScope | lib/interpreter/engine/control.cpp:33-40 | A `loop` label's locals and arity are both the parameter count of the expanded block type. That is 0 for a value type, and never the result count. |
| Control.BlockNext | lib/interpreter/engine/control.cpp:14-27 | `block` enters exactly one label over its body, with no continuation. The label's locals and arity are the parameter and result counts of the expanded block type. |
| Control.LoopNext | lib/interpreter/engine/control.cpp:33-43 | `loop` enters exactly one label over its body. The loop instruction itself is the continuation, and locals and arity both equal the parameter count. |
| Control.IfElseNext | lib/interpreter/engine/control.cpp:53-79 | A nonzero condition selects the then-body and zero selects the else-body. A label is entered if and only if the selected body holds more than its `End`. That label is exactly what `block` would enter for the same block type and body. Otherwise the handler falls through with success. |
| Control.BrIfNext | lib/interpreter/engine/control.cpp:87-93 | `br_if` makes the same branch as `br` to its label if and only if the condition is nonzero. It falls through if and only if the condition is zero. |
| Control.BrTableTarget | lib/interpreter/engine/control.cpp:102-106 | An index below the list length selects that entry. Any index at or past the length selects the default. This equals the entry at the clamped index of the label list with the default appended. |
| Control.BrTableNext | lib/interpreter/engine/control.cpp:99-106 | `br_table` always branches and never traps. The target is a listed label or the default label. |
| Control.SameValTypes | lib/interpreter/engine/control.cpp:160 | Comparing two value-type lists by length and then element by element is true if and only if the lists are equal. |
| Control.FuncTypesEqual | lib/interpreter/engine/control.cpp:160 | The signature comparison is true if and only if both the parameter lists and the result lists are equal. |
| Control.CallIndirectNext | lib/interpreter/engine/control.cpp:127-170 | `call_indirect` traps `UndefinedElement` if and only if the index is at or past the table size. It traps `UninitializedElement` if and only if the index is inside the table and the slot is null. It traps `IndirectCallTypeMismatch` if and only if the slot holds a function whose signature differs from the expected type. It raises no other trap. When the index is inside the table, the slot is not null and the signatures match, it enters exactly the function in the slot. Whenever it enters a function, that function's signature equals the expected type. No function is entered on a trap. |
| Control.CallIndirectAgreesWithCall | lib/interpreter/engine/control.cpp:155-170 | Take a slot holding the address the module resolves for function index `f`, where that function has the expected signature. `call_indirect` through that slot makes the same decision as `call f`. |
| Engine.Interpreter.PopU32 | lib/interpreter/engine/control.cpp:50 | Popping an operand removes exactly the top value and returns it as a `u32`. |
| Engine.Interpreter.RunBlockOp | lib/interpreter/engine/control.cpp:10-28 | Pops nothing itself: the block is entered on the stack the handler received. Appends the `BlockNext` label entry to the log and returns the entered block's result. |
| Engine.Interpreter.RunLoopOp | lib/interpreter/engine/control.cpp:30-44 | Pops nothing itself: the loop is entered on the stack the handler received. Appends the `LoopNext` label entry to the log and returns the entered block's result. |
| Engine.Interpreter.RunIfElseOp | lib/interpreter/engine/control.cpp:46-80 | Pops exactly the condition and logs the `IfElseNext` decision. When a label is entered, the block gets the stack without the condition, and the handler returns the block's result. Otherwise the handler returns success, and the only change to the stack is the popped condition. |
| Engine.Interpreter.RunBrOp | lib/interpreter/engine/control.cpp:82-85 | Pops nothing itself. Logs the `BrNext` branch to the instruction's label index, made on the stack the handler received, and returns the branch's result. |
| Engine.Interpreter.RunBrIfOp | lib/interpreter/engine/control.cpp:87-93 | Pops exactly the condition and logs the `BrIfNext` decision. On a nonzero condition it branches on the stack without the condition and returns the branch's result. On zero it returns success without any call, and the only change to the stack is the popped condition. |
| Engine.Interpreter.RunBrTableOp | lib/interpreter/engine/control.cpp:95-107 | Pops exactly the index, then makes the one branch to `BrTableTarget` on the remaining stack. Logs that branch and returns its result. |
| Engine.Interpreter.RunReturnOp | lib/interpreter/engine/control.cpp:109-112 | Pops nothing itself. Performs exactly one frame pop (`ReturnNext`) on the stack it received, and always succeeds. |
| Engine.Interpreter.RunCallOp | lib/interpreter/engine/control.cpp:114-121 | Pops nothing itself. Enters exactly the function at the address the current module gives the target index, on the stack it received, and returns the call's result. |
| Engine.Interpreter.RunCallIndirectOp | lib/interpreter/engine/control.cpp:123-171 | Pops exactly the index and logs the `CallIndirectNext` decision. On a trap it logs nothing, the only change to the stack is the popped index, and it returns the trap's error code. Otherwise it enters the function on the stack without the index, logs that entry, and returns the call's result. |

## Left out

- Diagnostic logging (`LOG(ERROR)`, the instruction and mismatch details) is left out. It is output only; the model keeps only the returned error code.
- The collaborators `enterBlock`, `branchToLabel`, `enterFunction` and `popFrame`, and the driver that executes nested bodies and function bodies, are not part of this model. They are recorded by their arguments and the operand stack they are handed, and what they return enters as `calleeResult`. So the model does not capture their effect on the label and frame stack.
- The model leaves open what these collaborators do to the operand stack. `popFrame` and `branchToLabel` unwind operands to the frame or label, keeping only its result values. `enterFunction` takes the call's arguments off the stack, and a nested body pushes and pops values. So on a path that calls a collaborator, a handler states only the operand stack it hands over, not the stack after the call.
- Traps raised inside a nested body or a called function are one opaque variant (`CalleeTrap(code)`). The model does not distinguish their kinds.
- Store, module and table lookups (`getModule`, `getFuncType`, `getFuncAddr`, `getFunction`, `getTabInstByIdx`, `getRefAddr`) are total lookups in read-only sequences. The source dereferences their results without checking, because validation has already run. So the handlers require that every index they resolve is in range, and that every function reference in the table `call_indirect` reads is a store address, as it is in an instantiated store (`BlockTypeResolves`, `CallResolves`, `CallIndirectResolves`).
- The representation of values (`ValVariant`, `retrieveValue`, `retrieveFuncIdx`, float, vector and reference payloads) is left out. Only the popped `u32` has a meaning. Validation guarantees a `u32` on top of the stack, so the handlers that pop require one. A table slot is a null reference or a function address.
- `FuncType`'s equality operator is defined outside the handler file. `SameValTypes` models it as a comparison of the two type lists by length and then element by element.
- A function or table instance that the store hands over by pointer is identified here by its address (`EnterFunction(funcAddr)`).
- Concurrency and host-function binding do not occur in these handlers.
