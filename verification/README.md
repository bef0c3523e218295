# NIKI: a verified model of the compiler's back half, its parser and its type checker

NIKI compiles a small statically checked language to byte code for a register machine
whose calls slide a window over one register file. This project models that toolchain in
Dafny and proves it correct from source trees to running byte code. `dafny verify
dfyconfig.toml` verifies all of it.

## The main results

1. **The compiler is correct, in both directions** (`Compiler`). For every scoped program,
   every argument vector and every length of run, the byte code ends with the value or the
   fault of a reference interpreter of the source trees; conversely a run that stops has
   stopped for the reason the interpreter gives. The one exception is a machine limit (256
   frames, 8192 registers), which no source semantics knows; a run meets one only where that
   many are in use (`Headroom`), and none where 31 calls inside one another are enough for
   the interpreter (`Compiler.WithinLimits`). Functions call each other recursively. A call without arguments overwrites registers of its caller; such calls are
   covered where no variable set before them is read after them, loops included
   (`Overwriting`). The same holds for programs that hide names, as long as no hidden name
   is mentioned after the block that hid it (`HidingCompiler`). Which programs that is, and
   which of them compile, is read off their text (`Plain`, `Capacity`); `Sum` takes one
   through all stages. What the operators, conditions and calls mean is stated in numbers,
   for the interpreter (`Arithmetic`) and for every opcode byte (`Opcodes`).
2. **Compiled code is safe** (`Compiler`, `LowerRun`). No run of it meets truncated code, a
   jump out of range, an unknown opcode, a bad constant or a register outside the file.
3. **Every stage is a class or method that changes its tables in place**, proved against a
   function on values: the builder with lazily placed spans and back-patched breaks
   (`IrBuilder`), the structural verifier (`Verify`), the byte code writer with its patch
   pass (`Lowering`), the fetch-decode-execute loop (`VmMachine`), the expression parser
   over an index arena (`Parser`), the type checker over one flat symbol vector (`Checker`),
   the linker's tables (`Linker`) and the map object (`MapObject`).
4. **Back-patching is one-pass encoding** (`Lower.Backpatched`): emitting empty offsets and
   patching them afterwards gives the bytes that final offsets give at once.
5. **Calls respect their frame, for arbitrary byte code** (`VmFrames`).
6. **Printing and parsing expressions are inverse** (`PrattPrint`), with the fewest
   parentheses possible; the parser reads exactly an unambiguous, stratified grammar
   (`PrattGrammar`, `PrattSound`), which `Stratified` writes out with one nonterminal a level
   and its operators. Whatever the errors, parsing an expression ends
   (`Parser`), and so does parsing a file, unless one of the two loops over `match` and
   `kits` members comes to stand still; where they do is characterised exactly, and files
   that make them do so are given (`UnitParser`).
7. **Type soundness** (`TypeSound`, `Accepted`): the byte code of an accepted module ends
   with values of the declared types or stops for a zero divisor, an overflow or a machine
   limit, calls and recursion included, under four restrictions: equality is of integers,
   compound assignment is of integers, functions that fall off their end hand back what
   they declare, and no value of unknown type stands where something relies on its type (an
   operand of an arithmetic instruction, a callee, and a value for a parameter, name or
   result with a declared type). Parameter and result types are optional; functions without
   them are covered as long as their values are only passed on, stored, returned or
   dropped. Each restriction is needed: a program shows it, and what it excludes is
   characterised exactly (`TypeLimits`).
   The checker rejects nothing else: it accepts a function exactly if the function is well
   typed by rules that do not call the checker, moves of heap values included (`WellTyped`).
   What the checker accepts is built exactly if every assignment goes to a local declared
   earlier in the text, and the arguments of a callee of unknown type, at which the checker
   does not look, name only functions and such locals.
8. **Linking and launching** (`Linker`, `InitChunk`, `Launcher`): when linking succeeds,
   what the init chunks leave in the global table, when the entry is found, and that a
   launch answers what the interpreter answers.

## How the stages fit

Source trees and their interpreter are in `Source`, shared values and arithmetic in
`Values`, the window machine in `Machine`. `Build` gives the control-flow graph of a
function on values; `BuildShape`, `BuildScope`, `BuildRegs` and `BuildSim` prove its
structure, its names, its register numbers and its meaning. `Ir` has the graph and its
small-step machine; `Tables` has the flat tables the program stores it in, and `BuilderRep`
relates the two. `Lower` gives the byte code of a graph; `LowerLayout`, `LowerFetch`,
`LowerSim` and `LowerRun` prove that the machine of `Bytecode` executes it in lockstep with
the graph. `Compiler` puts the stages together; `Overwriting` proves that variables which
nobody mentions do not matter. An interpretation spends fuel: turns of loops, and calls
inside one another. `Hiding` renames the declarations of a program apart;
`HidingBuild`, `HidingRun` and `HidingCompiler` prove that this changes neither byte code
nor meaning where no hidden name is mentioned, and carry the theorems over. `Resolution`
shows that all these programs resolve their names, as `TypeSound` asks.

Some facts of the code that the model follows, though a reader might expect otherwise:

- `&&` and `||` evaluate both operands, and treat function values as false where a
  conditional jump treats them as true.
- Arithmetic, `==` and `!=` are always the integer instructions.
- The register table of names is flat: leaving a scope does not restore it, so a parameter
  that a local has hidden reads as that local ever after (`Limits.HiddenMentionLeaks`). The
  compiler theorems are therefore about programs that mention no hidden name after the block
  that hid it.
- A call without arguments opens its window at the caller's register 0 and overwrites it
  (`Limits.ZeroArgumentCallClobbers`). The compiler theorems are about programs that mention
  nothing it may have overwritten (`Source.ScopedStmt`).
- `return;` and falling off the end yield register 0, the first parameter; the interpreter
  says so too, and promises nothing for functions without parameters. The checker does not
  compare this with the declared result (`TypeLimits.FallingOffUnsound`).
- The checker accepts assignments to function names, which the builder rejects
  (`Accepted.AcceptedNotBuilt`).
- A parameter or result without a declared type has an unknown one, which the checker lets
  pass for any other (`TypeLimits.UndeclaredResultUnsound`,
  `TypeLimits.UndeclaredParamUnsound`). It does not look at the arguments of a callee of
  unknown type at all (`Accepted.LooseNotBuilt`).
- Recovery inside a `match` body stops at keywords and behind semicolons without taking
  anything, and a `kits` member takes nothing at a token that fits none of its parts: both
  loops then repeat for ever (`UnitParser.MatchOnIf`, `UnitParser.KitsOnIf`).
- `enum` and `taggroup` are stubs that refer to node 0 without having emitted a node
  (`Parser.StubReference`); a file of nothing else makes the program look at node 0 of an
  empty table, which the model takes for no module.
- An init chunk cuts constant indexes to 16 bits, so functions beyond the first 65536 are
  never defined, and earlier ones are defined again (`InitChunk.DefinedIff`).
- A map literal tests for `]` where it means the end of the literal.
- Without `else`, an `if` node refers to node 0 as its else part.

## Model

| member | source | states |
|---|---|---|
| Compiler.InterpreterToVm | src/l0_core/vm/vm.cpp:313-1470 | Whatever value or fault the reference interpreter computes for a function of a scoped program, for any arguments and any amount of looping or recursion, the compiled byte code computes too; if the interpreter needs at most 31 calls inside one another, the byte code meets no limit of the machine, and if it needs more, a limit of the machine is the only other way to stop |
| Compiler.VmToInterpreter | src/l0_core/vm/vm.cpp:313-1470 | The converse: a byte code run that stops anywhere but at a machine limit has stopped with the interpreter's value or fault |
| Compiler.WithinLimits | src/l0_core/vm/vm.cpp:1289-1349 | If 31 calls inside one another are enough for the interpreter to finish, the byte code stops, and every run that stops has the interpreter's result; none stops at a limit of the machine |
| BuildSim.EnterSim | src/l0_core/vm/vm.cpp:1289-1349 | A call instruction of built code opens the callee's window on the arguments, or stops for a wrong callee or argument count; it meets a limit of the machine only where 32 windows are in use |
| Headroom.StackOverflowAt | src/l0_core/vm/vm.cpp:1306-1313 | Whatever the byte code: a run that starts in one frame stops with a stack overflow only on a call made with 256 frames in use |
| Headroom.WindowOverflowAt | src/l0_core/vm/vm.cpp:1314-1330 | Such a run stops with a window overflow only on a call whose arguments or whose window would end beyond slot 8192 |
| Headroom.LimitMet | src/l0_core/vm/vm.cpp:1289-1349 | The step on which a run meets a limit, and that it is such a call |
| Headroom.RoomForWindows | src/l0_core/vm/vm.cpp:1289-1349 | Whatever the byte code: if no function asks for more than 256 registers, no run meets a limit before 32 windows are open |
| Sum.SumEnds | src/l0_core/vm/vm.cpp:313-1470 | A recursive function for the sum of the first n numbers, from text to result: it compiles, and for every n up to 30 its byte code stops, with n (n + 1) / 2 |
| Plain.ScopedIff | src/l0_core/semantic/type_checker_stmt.cpp:11-60 | Where every call passes an argument, the compiler theorems are about exactly the programs whose mentions are of names in scope or functions and whose declarations reuse no name in scope and no function's name |
| Capacity.FuncCost | src/l0_core/ir/builder_expression.cpp:165-334 | The registers and instructions of a built function, exactly, counted on its text |
| Capacity.RefusedIff | src/l0_core/ir/lower_to_chunk.cpp:153-159 | A built function is not lowered exactly if an instruction names a register above 255, it has more than 255 parameters, or a jump is farther than 65535 bytes |
| Capacity.SmallFits | src/l0_core/ir/lower_to_chunk.cpp:271-784 | Every built function with at most 255 parameters, 256 registers and 9362 instructions is lowered |
| Capacity.CompilesIff | src/l0_core/ir/lower_to_chunk.cpp:810-825 | Which programs of functions with at most 9362 instructions compile, read off the text: known names, at most 255 parameters and 256 registers, nothing else |
| Compiler.CompiledCodeIsSound | src/l0_core/vm/vm.cpp:185-258 | No run of compiled code meets truncated code, a bad jump, an unknown opcode, a bad constant index or a register outside the register file, and it never has more than 256 frames |
| Compiler.CompiledParts | src/l0_core/ir/lower_to_chunk.cpp:810-825 | Successful compilation is building and lowering each function; each result is well built with at most 256 registers |
| Compiler.LowerEach | src/l0_core/ir/lower_to_chunk.cpp:810-825 | Lowering a unit succeeds exactly if each of its functions can be lowered, and then is lowering each of them |
| Accepted.AcceptedIsBuilt | src/l0_core/ir/builder_declaration.cpp:254-291 | A function that the type checker accepts, calls included, is completed by the builder exactly if every assignment goes to a parameter or to a name declared earlier in the text, and every identifier in the arguments of a callee of unknown type is a function or such a name |
| Accepted.TargetIff | src/l0_core/ir/builder_statement.cpp:135-166 | An accepted assignment or compound assignment is built exactly if the builder has a register for its target, and knows the identifiers in the arguments of its callees of unknown type |
| Accepted.AcceptedNotBuilt | src/l0_core/ir/builder_statement.cpp:135-166 | `func f() { f = f; }` is accepted and not built |
| Accepted.LooseNotBuilt | src/l0_core/semantic/type_checker_expr.cpp:340-343 | `func f(a) { a(z); }` is accepted, as the checker does not look at the arguments of a callee of unknown type, and not built |
| BuildText.FuncBuildsIff | src/l0_core/ir/builder_statement.cpp:71-307 | Whether a function can be built, accepted or not, is read off the text: names and targets are known where they occur, `break` and `continue` are inside loops, compound assignments have one of their five operators, and code behind a closing statement does not matter |
| BuildText.StmtText | src/l0_core/ir/builder_statement.cpp:71-307 | Which names the builder has after a statement, and whether it has closed the block, can be read off the text: names declared behind a `return`, `break` or `continue` are never entered, names of inner blocks stay |
| Accepted.AcceptedRunsSafely | src/l0_core/vm/vm.cpp:266-274 | Compiled code of a module that passes the checker under the four restrictions stops with a value of the declared result type, if one is declared, or with a fault for a zero divisor, integer overflow or a machine limit; calls and recursion included, types declared or not |
| Limits.ZeroArgumentCallClobbers | src/l0_core/ir/lower_to_chunk.cpp:625-648 | A program with a call without arguments whose byte code ends with 5 where the interpreter hands back the argument, because the two windows share register 0 |
| Limits.HiddenMentionLeaks | src/l0_core/ir/builder_statement.cpp:111-133 | `main(a) { { var x = 5; } return a; }`: the interpreter hands back the argument whatever the local is called; the byte code does too unless it is called `a`, and then ends with 5 |
| HidingCompiler.InterpreterToVm | src/l0_core/ir/builder_statement.cpp:111-133 | The compiler theorem for programs that hide parameters, locals and functions but mention no hidden name after its block: the compiled code computes what the interpreter computes, without a limit of the machine if 31 calls inside one another are enough |
| HidingCompiler.VmToInterpreter | src/l0_core/ir/builder_statement.cpp:111-133 | The converse for such programs |
| HidingCompiler.CompiledCodeIsSound | src/l0_core/vm/vm.cpp:185-258 | No run of their compiled code meets a control fault |
| HidingCompiler.SameCode | src/l0_core/ir/builder_statement.cpp:111-166 | Renaming every declaration apart leaves the byte code of such a program as it is |
| HidingBuild.FuncSame | src/l0_core/ir/builder_statement.cpp:71-307 | So for every function: the builder's flat table gives the renamed text the same registers |
| HidingRun.RenamedRuns | src/l0_core/semantic/type_checker_stmt.cpp:136-145 | Nor does it change what any function of the program means: a hidden name has its outer value again after the block that hid it |
| Hiding.RenamedScoped | src/l0_core/semantic/type_checker.cpp:177-194 | In the renamed program nothing is hidden, and nothing is mentioned that a call has overwritten |
| Hiding.ScopedIncluded | src/l0_core/semantic/type_checker.cpp:177-194 | Programs that hide nothing are among those that mention nothing hidden |
| Values.TruncDivLaw | src/l0_core/vm/vm.cpp:398-427 | Division truncates toward zero: the remainder is smaller than the divisor and never has the sign opposite to the dividend |
| Arithmetic.IntegersGive | src/l0_core/vm/vm.cpp:363-427 | The interpreter on two integers: sum, difference and product, quotient and remainder with x = q y + r, the remainder smaller than the divisor and with the sign of the dividend, the six comparisons; overflow exactly outside 64 bits, a fault for a zero divisor exactly at zero |
| Arithmetic.QuotientUnique | src/l0_core/vm/vm.cpp:398-427 | Only one quotient and remainder meet these rules |
| Arithmetic.OperandsGive | src/l0_core/vm/vm.cpp:789-840 | The interpreter on any two values: the logical operators take all, integers by being zero or not, everything else takes integers only |
| Arithmetic.OperandGives | src/l0_core/vm/vm.cpp:540-573 | Negation of integers, with the one overflow, and `!` of every value |
| Arithmetic.CompoundGives | src/l0_core/ir/builder_statement.cpp:135-166 | A compound assignment stores what the operator gives for the name's value |
| Arithmetic.ConditionTakes | src/l0_core/vm/vm.cpp:1046-1071 | Which values an `if` takes for true: truth values, integers other than zero, and functions |
| Arithmetic.GuardTakes | src/l0_core/vm/vm.cpp:1046-1071 | A loop ends on exactly the other values |
| Opcodes.ArithmeticStep | src/l0_core/vm/vm.cpp:363-397 | The bytes 4, 5 and 6 write x + y, x - y and x * y of two integer registers, or stop exactly if the result needs more than 64 bits |
| Opcodes.DivisionStep | src/l0_core/vm/vm.cpp:398-427 | The bytes 7 and 8 write the quotient and the remainder, whose rules are spelled out, or stop exactly for a zero divisor or a quotient beyond 64 bits |
| Opcodes.ComparisonStep | src/l0_core/vm/vm.cpp:840-911 | The bytes 21 to 26 write the truth of =, !=, <, >, <= and >= of two integers |
| Opcodes.OperandGuard | src/l0_core/vm/vm.cpp:363-427 | These bytes stop exactly if an operand is not an integer |
| Opcodes.LogicStep | src/l0_core/vm/vm.cpp:789-840 | The bytes 46 and 47 write the conjunction and disjunction of the operands' truth |
| Opcodes.UnaryStep | src/l0_core/vm/vm.cpp:540-573 | The bytes 58, 60 and 107 write the negated truth, the negative and a copy |
| Opcodes.ConstantStep | src/l0_core/vm/vm.cpp:333-352 | The bytes 105 and 106 write the constant that one or two bytes number, or stop exactly beyond the pool |
| Opcodes.GlobalStep | src/l0_core/vm/vm.cpp:1116-1165 | The bytes 81 and 82 write the function that the running module's table has under the constant's id, or stop |
| Opcodes.DefineStep | src/l0_core/vm/vm.cpp:1072-1115 | The bytes 79 and 80 enter a function under the running module's id and the function's name, or stop |
| Opcodes.JumpStep | src/l0_core/vm/vm.cpp:1014-1025 | The bytes 66 and 67 go that many bytes on or back from behind the instruction, or stop exactly outside the code |
| Opcodes.BranchStep | src/l0_core/vm/vm.cpp:1046-1071 | The byte 68 jumps on the values that count as true and goes on with the rest |
| Opcodes.CallStep | src/l0_core/vm/vm.cpp:1289-1349 | The byte 72: no function, a wrong argument count, 256 frames in use, a window or arguments beyond slot 8192, in this order, or the callee's window opened on the argument slots |
| Opcodes.ReturnStep | src/l0_core/vm/vm.cpp:978-1013 | The byte 74 writes register 0 to the caller's register, or ends the run with it |
| Source.GlobalsOf | src/l0_core/vm/vm.cpp:1074-1096 | The table of functions by name: every declared name is in it, each entry is a function of that name |
| Source.ExecKeepsNames | src/l0_core/semantic/type_checker_stmt.cpp:136-145 | Running a statement leaves exactly the names in scope that its scoping says (the values of hidden names: `HidingRun.RenamedRuns`) |
| BuildShape.FuncShape | src/l0_core/ir/builder_declaration.cpp:254-291 | Every completed function has blocks that end in one terminator and have none elsewhere, operands and targets in range, branch targets beyond the branching block, call windows above the callee, and no more constants than registers |
| BuildShape.ExprKeepsShape | src/l0_core/ir/builder_expression.cpp:165-334 | Building an expression extends the current block only, keeps names and loops, and returns an allocated register |
| BuildShape.StmtKeepsShape | src/l0_core/ir/builder_statement.cpp:71-307 | Building a statement keeps the invariant and closes every block it opened and left |
| BuildShape.BranchesKeepShape | src/l0_core/ir/builder_statement.cpp:168-206 | An `if` leaves its arms closed and goes on in the empty join block |
| BuildShape.LoopKeepsShape | src/l0_core/ir/builder_statement.cpp:208-252 | A loop leaves condition and body closed and goes on in the empty exit block, the loop stack as before |
| BuildShape.CallShape | src/l0_core/ir/builder_expression.cpp:292-334 | A call's argument window is fresh, consecutive and above its callee |
| BuildScope.StmtNames | src/l0_core/ir/builder_statement.cpp:111-166 | In scoped programs the flat name table keeps distinct registers for the names in scope and binds a declared name afresh |
| BuildRegs.FuncCovers | src/l0_core/ir/builder.cpp:143-146 | Every register beyond the parameters is named by some instruction of the built function |
| BuildRegs.FewRegisters | src/l0_core/ir/lower_to_chunk.cpp:153-159 | A built function that lowering accepts has at most 256 registers, so no 8-bit operand and no 16-bit count is cut |
| BuildSim.ExprSim | src/l0_core/ir/builder_expression.cpp:165-334 | The code built for an expression computes the interpreter's value in the returned register and changes no live register, or stops with the interpreter's fault |
| BuildSim.CallExprSim | src/l0_core/ir/builder_expression.cpp:292-334 | The same for a call with at least one argument, recursion included: what the callee does above the window touches nothing live |
| BuildSim.BareCallSim | src/l0_core/ir/lower_to_chunk.cpp:625-648 | A call without arguments calls the same function and comes back to the caller's frame with its value, or its fault, recursion included, though the callee had the caller's registers for a window |
| BuildSim.UseSim | src/l0_core/ir/builder_expression.cpp:292-334 | After any expression of a statement its value is in its register, and all variables still mentioned are in theirs |
| Overwriting.ExecAlike | src/l0_core/ir/lower_to_chunk.cpp:625-648 | Two runs of a statement from environments that differ only in variables it does not mention end alike, in the same way, with the same value or fault, and again differ only in such variables |
| BuildSim.StmtSim | src/l0_core/ir/builder_statement.cpp:71-307 | The code built for a statement ends as the interpreter ends: falling through with the same environment, at a loop's exit or condition block after break or continue, or having returned the same value; variables that a call without arguments has overwritten have other values, and nothing mentions them |
| BuildSim.LoopSim | src/l0_core/ir/builder_statement.cpp:208-252 | For every number of iterations, running a loop from its condition block agrees with the interpreter |
| BuildSim.BranchesSim | src/l0_core/ir/builder_statement.cpp:168-206 | The arm that the condition selects runs, and control meets at the join block |
| BuildSim.IterationSim | src/l0_core/ir/builder_statement.cpp:208-277 | One turn of a loop: falling through and `continue` come back to the condition, `break` goes to the exit |
| BuildSim.FuncSim | src/l0_core/ir/builder_declaration.cpp:254-291 | Running a built function on its arguments gives the interpreter's result; if the interpreter needs more fuel, the run is longer than that fuel; a limit of the machine is met only if the frames in use and the calls that the interpreter may open are 32 or more |
| IrBuilder.Builder.BuildUnit | src/l0_core/ir/builder_declaration.cpp:30-69 | Succeeds exactly if every function can be built; afterwards every record spells out its function's control-flow graph |
| IrBuilder.Builder.BuildFuncDecl | src/l0_core/ir/builder_declaration.cpp:254-291 | Adds one record whose block spans are non-empty, disjoint and together exactly the rows emitted for it; earlier records and rows stay |
| IrBuilder.Builder.BeginFunc | src/l0_core/ir/builder.cpp:80-96 | A new record with one empty block |
| IrBuilder.Builder.BeginBlock | src/l0_core/ir/builder.cpp:98-114 | A new block whose span is not placed yet |
| IrBuilder.Builder.EmitRowOf | src/l0_core/ir/builder.cpp:170-185 | Appends a row to the current block, placing an unplaced span at the end of the table |
| IrBuilder.Builder.IsTerminated | src/l0_core/ir/builder.cpp:339-350 | Whether the last row of the current block is a terminator |
| IrBuilder.Builder.Close | src/l0_core/ir/builder.cpp:353-363 | Adds the terminator only to a block that has none |
| IrBuilder.Builder.AllocVReg | src/l0_core/ir/builder.cpp:143-146 | A register no earlier one equals |
| IrBuilder.Builder.BuildExpr | src/l0_core/ir/builder_expression.cpp:165-334 | The rows and the register that the expression's specification says, or failure in the same cases |
| IrBuilder.Builder.BuildCall | src/l0_core/ir/builder_expression.cpp:292-334 | Argument values moved to consecutive fresh slots, then the call |
| IrBuilder.Builder.BuildStmt | src/l0_core/ir/builder_statement.cpp:71-307 | The blocks that the statement's specification says, or failure in the same cases |
| IrBuilder.Builder.BuildVarDecl | src/l0_core/ir/builder_statement.cpp:111-133 | Register first, name bound, initialiser, then the move |
| IrBuilder.Builder.BuildBlock | src/l0_core/ir/builder_statement.cpp:86-105 | Statements up to the first that closes the block |
| IrBuilder.Builder.BuildIf | src/l0_core/ir/builder_statement.cpp:168-206 | Block ids of then, join and else, in this order |
| IrBuilder.Builder.BuildLoop | src/l0_core/ir/builder_statement.cpp:208-252 | Condition, body and exit blocks; break rows of the loop patched at its end |
| IrBuilder.Builder.EmitBreakJump | src/l0_core/ir/builder_statement.cpp:254-267 | A jump with a placeholder target that its innermost loop remembers |
| IrBuilder.Builder.PopLoop | src/l0_core/ir/builder_statement.cpp:240-252 | Every placeholder of the innermost loop gets the exit block, no other row changes |
| IrBuilder.Builder.BindParams | src/l0_core/ir/builder_declaration.cpp:267-281 | Parameters take the first registers in order |
| BuilderRep.EmitRep | src/l0_core/ir/builder.cpp:170-185 | Appending a row keeps the tables a representation of the build context |
| BuilderRep.PopLoopRep | src/l0_core/ir/builder_statement.cpp:240-252 | So does patching the break rows of a loop |
| BuilderRep.RepSpread | src/l0_core/ir/builder.cpp:98-114 | Of a complete function the block spans partition its rows |
| BuilderRep.LoopsDone | src/l0_core/ir/builder_statement.cpp:240-252 | No placeholder survives once all loops are closed |
| Tables.RowRoundTrip | src/l0_core/ir/lower_to_chunk.cpp:307-360 | Reading back the row of an instruction gives the instruction |
| Tables.FuncExtends | src/l0_core/ir/module_ir.cpp:82-108 | Appending rows and blocks does not change the function of an earlier record |
| Verify.VerifyModule | src/l0_core/ir/verify.cpp:40-155 | The issue list is empty exactly for well-formed tables |
| Verify.BuiltVerifies | src/l0_core/ir/verify.cpp:40-155 | Everything the builder completes is well formed, so the verifier has no complaint about it |
| Verify.Report.CheckFunc | src/l0_core/ir/verify.cpp:57-152 | Adds an issue exactly if the function is not well formed |
| Verify.Report.CheckBlock | src/l0_core/ir/verify.cpp:73-151 | Adds an issue exactly if the block is empty, out of range, or has a bad row or a misplaced terminator |
| Verify.Report.CheckOperands | src/l0_core/ir/verify.cpp:110-143 | Adds an issue exactly if an operand is out of range |
| Lower.Backpatched | src/l0_core/ir/lower_to_chunk.cpp:752-779 | Emitting with empty offsets and patching afterwards, JMP turned to LOOP where needed, gives the same bytes as encoding every instruction with its final offset at once |
| Lower.LowerFunc | src/l0_core/ir/lower_to_chunk.cpp:271-784 | Lowering fails exactly for operands beyond 8 bits, too many parameters or jump distances beyond 16 bits (with the numbers: `Capacity.RefusedIff`) |
| Lower.U16 | src/l0_core/ir/lower_to_chunk.cpp:58-67 | Two big-endian bytes that read back as the number, if it fits |
| Lower.OpcodeDecodes | src/l0_core/ir/lower_to_chunk.cpp:165-198 | Every operator's opcode decodes to that operator |
| LowerLayout.EntryAt | src/l0_core/ir/lower_to_chunk.cpp:295-302 | Each block's entry is where the code of the blocks before it ends |
| LowerLayout.CodeAt | src/l0_core/ir/lower_to_chunk.cpp:295-302 | At the address of a program point the object code holds exactly that instruction's bytes |
| LowerLayout.BlockAddress | src/l0_core/ir/lower_to_chunk.cpp:295-302 | The address of a block's first instruction is the recorded block entry |
| LowerFetch.FetchPlain | src/l0_core/vm/vm.cpp:333-430 | The VM fetches back the instruction that was encoded: moves, arithmetic, unary operations, calls, constants |
| LowerFetch.FetchJump | src/l0_core/vm/vm.cpp:1014-1030 | A patched jump, forward or backward, leads to its target address |
| LowerFetch.FetchBranch | src/l0_core/vm/vm.cpp:1046-1070 | A conditional jump to a later address leads there |
| LowerSim.StepSafe | src/l0_core/vm/vm.cpp:1309-1335 | Every step keeps all windows of at most 256 frames inside the 8192-slot register file and every frame at an instruction |
| LowerSim.RunSafe | src/l0_core/vm/vm.cpp:1309-1335 | So does every run |
| LowerSim.StepSim | src/l0_core/ir/lower_to_chunk.cpp:295-779 | Every IR step is matched by one or two VM steps, from the code address of its program point to that of the next |
| LowerSim.BranchStep | src/l0_core/ir/lower_to_chunk.cpp:670-710 | A branch as JNZ and JMP: taken in one step, not taken in two |
| LowerSim.ReturnStep | src/l0_core/ir/lower_to_chunk.cpp:723-743 | A return as MOVE to register 0 and RETURN |
| LowerRun.RunSim | src/l0_core/ir/lower_to_chunk.cpp:271-784 | Runs of any length correspond |
| LowerRun.NoControlFault | src/l0_core/vm/vm.cpp:185-258 | After any number of VM steps of lowered code no control fault has occurred |
| LowerRun.HaltedTogether | src/l0_core/vm/vm.cpp:978-1012 | A VM run that stops has stopped as the IR run did |
| Lowering.LowerOneFunction | src/l0_core/ir/lower_to_chunk.cpp:271-784 | The same object code, or an error in the same cases, as lowering the control-flow graph the record cuts out of the tables |
| Lowering.LowerRow | src/l0_core/ir/lower_to_chunk.cpp:333-743 | One row's bytes, constants and pending patches |
| Lowering.EmitBlocks | src/l0_core/ir/lower_to_chunk.cpp:295-750 | The block pass: all rows in table order, with each block's entry recorded |
| Lowering.ApplyPatches | src/l0_core/ir/lower_to_chunk.cpp:752-779 | The patch pass in place, rejecting distances beyond 16 bits |
| Lowering.BytecodeWriter.WriteU16 | src/l0_core/ir/lower_to_chunk.cpp:58-62 | Appends two bytes, high one first |
| Lowering.BytecodeWriter.PatchU16 | src/l0_core/ir/lower_to_chunk.cpp:63-67 | Overwrites exactly two bytes |
| Lowering.BytecodeWriter.AddConstant | src/l0_core/ir/lower_to_chunk.cpp:68-73 | Appends a constant; the index is cut to 16 bits |
| Lowering.BytecodeWriter.EmitLoad | src/l0_core/ir/lower_to_chunk.cpp:337-352 | The narrow form for constant indexes up to 255, else the wide form |
| Bytecode.DecodeConstant | src/l0_core/vm/vm.cpp:333-352 | Narrow and wide constant loads name the same constant |
| Bytecode.DecodeGlobal | src/l0_core/vm/vm.cpp:1116-1170 | Narrow and wide global loads name the same constant |
| Bytecode.DecodeDefine | src/l0_core/vm/vm.cpp:1074-1114 | Narrow and wide definitions name the same constant |
| Bytecode.DecodeJump | src/l0_core/vm/vm.cpp:1014-1070 | Jumps decode to their 16-bit offsets |
| Bytecode.Visible | src/l0_core/vm/vm.cpp:1116-1135 | The part of the global table with the executing module's id |
| Bytecode.RunSplit | src/l0_core/vm/vm.cpp:313-332 | A run of a plus b steps is a run of a, then of b |
| VmFrames.CallFrame | src/l0_core/vm/vm.cpp:978-1349 | For arbitrary byte code: from a call to its matching return, through any nesting, the caller's registers below the window are unchanged; the destination gets the callee's register 0, and from the window on, the caller's own register 0 included if the window starts there, the registers are what the callee left |
| VmFrames.StepInside | src/l0_core/vm/vm.cpp:978-1349 | One step inside a call stays inside or is the return that closes it |
| VmMachine.Vm.Step | src/l0_core/vm/vm.cpp:313-1470 | One turn of the loop changes registers, frames, instruction pointer and globals exactly as the step function says, or stops with its result or fault; what the step function says of each byte is in `Opcodes` |
| VmMachine.Vm.Run | src/l0_core/vm/vm.cpp:313-332 | The loop computes the run function and leaves the registers of the last running state |
| VmMachine.Vm.TryReadByte | src/l0_core/vm/vm.cpp:185-197 | Reads the next byte, refused exactly at the end of the code |
| VmMachine.Vm.TryReadShort | src/l0_core/vm/vm.cpp:204-219 | Reads two bytes, high one first, refused exactly if fewer are left |
| VmMachine.Vm.TryJumpForward | src/l0_core/vm/vm.cpp:226-239 | Moves on unless the target is beyond the end of the code |
| VmMachine.Vm.TryJumpBackward | src/l0_core/vm/vm.cpp:246-258 | Moves back unless the target is before the first byte |
| VmMachine.Vm.ReadConstantByIndex | src/l0_core/vm/vm.cpp:172-178 | The constant, or a fault exactly if the index is beyond the pool |
| VmMachine.Vm.Call | src/l0_core/vm/vm.cpp:1289-1349 | After all guards, opens the callee's window on the argument slots (with the numbers: `Opcodes.CallStep`) |
| VmMachine.Vm.Return | src/l0_core/vm/vm.cpp:978-1012 | Hands register 0 to the caller's destination register, or ends the run with it |
| VmMachine.Vm.Jump | src/l0_core/vm/vm.cpp:1014-1030 | JMP and LOOP |
| VmMachine.Vm.JumpIfTrue | src/l0_core/vm/vm.cpp:1046-1070 | JNZ by the truth rule of jumps |
| VmMachine.Vm.DefineGlobal | src/l0_core/vm/vm.cpp:1074-1114 | Enters a function under its name and the executing module's id |
| VmMachine.Vm.GetGlobal | src/l0_core/vm/vm.cpp:1116-1170 | Loads the function of that name and module, or faults |
| VmMachine.Vm.ExecuteFunction | src/l0_core/vm/vm.cpp:74-93 | One frame at slot 0 on the registers as they are, empty code giving nil at once; the registers of the last running state stay |
| VmMachine.Vm.ExecuteChunk | src/l0_core/vm/vm.cpp:32-66 | The chunk as a function object that exists only while it runs |
| VmMachine.Vm.LookupGlobalFunctionById | src/l0_core/vm/vm.cpp:101-104 | The entry for module and name, none exactly if there is none |
| InitChunk.MakeInitChunk | src/meta/orchestrator/compile_pipeline.cpp:110-143 | One definition per function, narrow up to constant 255 and wide beyond, then a return |
| InitChunk.RunInit | src/l0_core/vm/vm.cpp:1074-1114 | The chunk runs for exactly one step per function and one more and cannot fail |
| InitChunk.InitStack | src/l0_core/vm/vm.cpp:1074-1114 | Neither its steps nor its end touch a register |
| InitChunk.DefinedKeys | src/l0_core/vm/vm.cpp:1074-1114 | The table gains exactly the keys of the functions whose constant index fits in 16 bits, each with a function of that name; all other entries stay |
| InitChunk.DefinedIff | src/meta/orchestrator/compile_pipeline.cpp:122-136 | With distinct names a function can be looked up afterwards exactly if it is among the first 65536 |
| Linker.Link | src/l0_core/linker/linker_facade.cpp:57-129 | Succeeds exactly if there is a module, all symbol names are pairwise distinct and the entry name is among them; the errors reported say which of these fails |
| Linker.CollectMergedStringPool | src/l0_core/linker/linker_facade.cpp:20-32 | Every string of every module once, in order of first occurrence |
| Linker.FirstOccurrences | src/l0_core/linker/linker_facade.cpp:20-32 | The same elements without repetition |
| Linker.PoolHolds | src/l0_core/linker/linker_facade.cpp:20-32 | The merged pool holds the strings of the modules and nothing else |
| Linker.LaterModules | src/l0_core/linker/linker_facade.cpp:20-32 | The strings of earlier modules keep their places, whatever modules follow |
| Linker.CollectDefinedSymbols | src/l0_core/linker/linker_facade.cpp:34-55 | Exported functions, then other exported symbols, with their names |
| Linker.SymbolsIff | src/l0_core/linker/linker_facade.cpp:34-55 | The symbols seen are exactly the exports and other exported symbols of the modules, under their text in the module's pool or a made-up one |
| Linker.CollectExports | src/meta/orchestrator/compile_pipeline.cpp:150-159 | One entry per function name |
| Linker.CountNames | src/l0_core/linker/linker_facade.cpp:108-122 | The entry counter is positive exactly if the name occurs, and at most one if names are distinct |
| Linker.Tables.Add | src/l0_core/linker/linker_facade.cpp:92-113 | One more symbol keeps the tables and error list in step with the symbols seen |
| Launcher.LaunchProgram | src/l0_core/runtime/launcher.cpp:9-38 | The answer is determined by the units, the program, the global table and the registers of the machine: initialisation cannot fail and leaves the registers alone; the lookup fails exactly if no unit provides the entry; otherwise the answer is how the entry function ends, run on those registers |
| Launcher.InitialisedKeys | src/l0_core/runtime/launcher.cpp:12-21 | After all init chunks a key is in the table exactly if a unit provides it, with a function of that name from a unit of that module |
| Launcher.EntryFound | src/l0_core/runtime/launcher.cpp:21-26 | The entry is found exactly if it is a function of its module among those the chunk can name |
| Launcher.LinkedEntryFound | src/l0_core/runtime/launcher.cpp:21-26 | A linked program whose entry name is no other exported symbol, with at most 65536 functions per unit, has its entry found |
| Launcher.TableOfProgram | src/l0_core/vm/vm.cpp:1074-1114 | The table after initialisation is the function table the interpreter uses |
| Launcher.LaunchExplained | src/l0_core/runtime/launcher.cpp:9-38 | For a compiled source program, names hidden or not, every answer of a launch is the interpreter's result or fault of the entry function on the arguments in the machine's first registers, or a machine limit |
| PrattPrint.RoundTrip | src/l0_core/syntax/parser_expression.cpp:131-426 | Printing any tree with minimal parentheses and parsing gives back the tree and leaves exactly what follows |
| PrattPrint.FewestParens | src/l0_core/syntax/parser_expression.cpp:374-425 | No grammatical text of a tree has fewer parentheses than the printed one |
| PrattGrammar.ReadsAll | src/l0_core/syntax/parser_expression.cpp:131-361 | Every text of the stratified, left-associative grammar is read as its tree, trailing commas included, where nothing after it binds more tightly |
| PrattGrammar.Reads | src/l0_core/syntax/parser_expression.cpp:131-139 | After the text the parser goes on climbing from its tree |
| PrattSound.SoundExpr | src/l0_core/syntax/parser_expression.cpp:131-361 | An error-free parse has consumed a text of the grammar for levels above its argument, whose tree it returns, and stops only before a token that binds no more tightly |
| Stratified.SameExpression | src/l0_core/syntax/parser_expression.cpp:369-425 | The grammar with one nonterminal a level and its operators written out, from the logical or to the dice, then prefix and postfix forms: its texts are the grammatical ones |
| Stratified.ParserReads | src/l0_core/syntax/parser_expression.cpp:131-139 | Every text of that grammar is read to its end without an error, as the tree that the grammar gives it |
| Stratified.ParserReadsOnly | src/l0_core/syntax/parser_expression.cpp:131-139 | Whatever is read without an error is a text of that grammar followed by the rest, with that tree |
| PrattSound.Unambiguous | src/l0_core/syntax/parser_expression.cpp:374-425 | Two readings of the same text have the same tree |
| Pratt.ParseExpr | src/l0_core/syntax/parser_expression.cpp:131-139 | At least one token is consumed unless there is none |
| Parser.Parser.ParseExpression | src/l0_core/syntax/parser_expression.cpp:131-139 | For every token list, with whatever errors, terminates with a node of the arena whose tree, rest and error flag are those of the specification, which reads the grammar of `Stratified` |
| Parser.Parser.ParsePrefixNode | src/l0_core/syntax/parser_expression.cpp:146-284 | The same for prefix constructs |
| Parser.Parser.ParseInfixNode | src/l0_core/syntax/parser_expression.cpp:292-367 | The same for infix and postfix constructs |
| Parser.Parser.ParseCall | src/l0_core/syntax/parser_expression.cpp:334-348 | The same for argument lists |
| Parser.Parser.ParseMap | src/l0_core/syntax/parser_expression.cpp:261-279 | The same for map literals, with the bracket test the code makes |
| Parser.Parser.ParseArray | src/l0_core/syntax/parser_expression.cpp:245-260 | The same for array literals |
| Parser.Parser.EmitNode | src/l0_core/syntax/parse.cpp:172-201 | Nodes, locations and types stay aligned; children have smaller indexes than their parent, but for the references to node 0 that stubs leave |
| Parser.Parser.Advance | src/l0_core/syntax/parse.cpp:104-130 | Comments and lexical errors are skipped, the latter reported; the end of the file stays where it is |
| Parser.Parser.Consume | src/l0_core/syntax/parse.cpp:137-143 | Takes exactly the expected token or reports an error and takes nothing |
| Parser.Parser.Match | src/l0_core/syntax/parse.cpp:154-159 | Takes the token exactly if it is next |
| Parser.Parser.ErrorAtCurrent | src/l0_core/syntax/parse.cpp:208-216 | Enters the panic; further errors are not counted |
| Parser.Parser.Synchronize | src/l0_core/syntax/parse.cpp:220-245 | Leaves the panic and skips to a keyword that begins a unit or behind a semicolon |
| Parser.TreeKept | src/l0_core/syntax/parse.cpp:172-201 | Emitting nodes does not change the trees already in the arena |
| Parser.StubReference | src/l0_core/syntax/parser_declaration.cpp:199 | A stub's reference to node 0 breaks the order of the arena exactly if node 0 itself makes one |
| UnitParser.ParseUnit | src/l0_core/syntax/parse.cpp:51-96 | For every token list, with the turns of the two loops over `match` and `kits` members bounded: every token is read and the root is a module node. A loop reaches a bound beyond the number of tokens only where it stands still, and never in a file without `match` and `kits`; files that begin with certain `flow` or `kits` declarations reach every bound. The arena is in order exactly if node 0 has no parts, always without `enum` and `taggroup`, and never in a file that is one of those keywords |
| UnitParser.MatchOnIf | src/l0_core/syntax/parser_statement.cpp:252-260 | Files that begin `flow f { match ( x ) { if` are among those: parsing them does not end |
| UnitParser.KitsOnIf | src/l0_core/syntax/parser_declaration.cpp:513-535 | So are files that begin `kits K { if` |
| UnitParser.ParseTopLevelDeclaration | src/l0_core/syntax/parser_declaration.cpp:14-52 | Takes at least one token unless at the end of the file; a stub takes its keyword, emits nothing and refers to node 0 |
| UnitParser.ParseDeclaration | src/l0_core/syntax/parser_declaration.cpp:58-96 | Takes at least one token unless at the end of the file |
| UnitParser.ParseStatement | src/l0_core/syntax/parser_statement.cpp:15-40 | Takes at least one token unless at the end of the file |
| UnitParser.ParseExpressionStmt | src/l0_core/syntax/parser_statement.cpp:46-88 | Takes at least one token unless at the end of the file |
| UnitParser.ParseBlockStmt | src/l0_core/syntax/parser_statement.cpp:145-157 | Ends; takes a token unless it begins at a closing brace or the end |
| UnitParser.ParseIfStmt | src/l0_core/syntax/parser_statement.cpp:163-185 | Ends, with `else if` chains of any length |
| UnitParser.ParseLoopStmt | src/l0_core/syntax/parser_statement.cpp:186-210 | Ends |
| UnitParser.ParseFunctionDecl | src/l0_core/syntax/parser_declaration.cpp:103-148 | Ends; takes a token unless it begins at a closing brace or the end, which is what the member loop of `impl` relies on |
| UnitParser.ParseStructDecl | src/l0_core/syntax/parser_declaration.cpp:153-197 | Every turn of the field loop takes a token |
| UnitParser.ParseImplDecl | src/l0_core/syntax/parser_declaration.cpp:234-258 | Every turn of the member loop takes a token |
| UnitParser.ParseModuleDecl | src/l0_core/syntax/parser_declaration.cpp:389-419 | Every turn of the body loop takes a token |
| UnitParser.ParseImportDecl | src/l0_core/syntax/parser_declaration.cpp:264-308 | The item loop ends |
| UnitParser.ParseExportDecl | src/l0_core/syntax/parser_declaration.cpp:314-383 | The item loop ends; a wrapped declaration ends |
| UnitParser.RecoverCase | src/l0_core/syntax/parser_statement.cpp:252-260 | A turn of the case loop that finds no case goes exactly to the synchronisation point |
| UnitParser.RecoveryStands | src/l0_core/syntax/parse.cpp:220-245 | That turn takes nothing exactly if the cursor is at a keyword that recovery stops at or behind a semicolon |
| UnitParser.ParseCases | src/l0_core/syntax/parser_statement.cpp:251-260 | With more turns than tokens the loop over the cases ends exactly if it does not stand still, at a token that begins no case and behind a semicolon or at such a keyword; where it stands, no number of turns moves it |
| UnitParser.ParseMatchStmt | src/l0_core/syntax/parser_statement.cpp:241-264 | A `match` whose body begins with a keyword that recovery stops at reaches every bound |
| UnitParser.ParseMatchCaseStmt | src/l0_core/syntax/parser_statement.cpp:216-235 | Ends, with any number of patterns |
| UnitParser.ParseMembers | src/l0_core/syntax/parser_declaration.cpp:513-535 | With more turns than tokens the loop over the members ends exactly if it does not stand still, at a token that is none of `&`, a name, `as`, `;` and `}`; where it stands, no number of turns moves it |
| UnitParser.ParseKitsMember | src/l0_core/syntax/parser_declaration.cpp:514-534 | A turn takes nothing exactly if the current token is none of `&`, a name, `as` and `;` |
| UnitParser.ParseKitsDecl | src/l0_core/syntax/parser_declaration.cpp:499-542 | A `kits` whose body begins there reaches every bound |
| Checker.FindIsLookup | src/l0_core/semantic/type_checker.cpp:201-230 | Searching the flat vector from its end is innermost-first lookup in the stack of scopes |
| Checker.TypeChecker.ResolveSymbol | src/l0_core/semantic/type_checker.cpp:201-230 | The type of the innermost live symbol, then of the module's names, otherwise one error |
| Checker.TypeChecker.DeclareSymbol | src/l0_core/semantic/type_checker.cpp:177-194 | Adds to the innermost scope, or reports a name already declared there |
| Checker.TypeChecker.TryMarkMoved | src/l0_core/semantic/type_checker.cpp:112-126 | Marks an owned heap name of the innermost scope as moved, and nothing else |
| Checker.TypeChecker.PopScope | src/l0_core/semantic/type_checker.cpp:128-157 | Leaves exactly the outer symbols; the recorded exit list is exactly the scope's owned, unmoved heap names, each once, the latest declared first |
| Checker.TypeChecker.CheckExpression | src/l0_core/semantic/type_checker_expr.cpp:17-75 | The type and the number of errors of the specification |
| Checker.TypeChecker.CheckOperator | src/l0_core/semantic/type_checker_expr.cpp:112-204 | The binary rules, error recovery types included; which operands they accept is in `WellTyped.ExprIff` |
| Checker.TypeChecker.CheckPrefix | src/l0_core/semantic/type_checker_expr.cpp:302-333 | The unary rules |
| Checker.TypeChecker.CheckCall | src/l0_core/semantic/type_checker_expr.cpp:335-403 | Callee, argument count and argument types |
| Checker.TypeChecker.CheckStatement | src/l0_core/semantic/type_checker_stmt.cpp:11-64 | The scopes and errors of the specification; outer scopes, depth and loop depth as before |
| Checker.TypeChecker.CheckBlock | src/l0_core/semantic/type_checker_stmt.cpp:136-145 | The whole vector, moved flags included, is restored |
| Checker.TypeChecker.CheckVarDecl | src/l0_core/semantic/type_checker_stmt.cpp:98-133 | Moves the initialiser's name, then declares |
| Checker.TypeChecker.CheckAssignment | src/l0_core/semantic/type_checker_stmt.cpp:72-96 | Compares types and moves the assigned name |
| Checker.TypeChecker.CheckIf | src/l0_core/semantic/type_checker_stmt.cpp:148-159 | Condition and both arms in order |
| Checker.TypeChecker.CheckLoop | src/l0_core/semantic/type_checker_stmt.cpp:163-175 | Condition, then the body one loop deeper |
| Checker.TypeChecker.CheckReturn | src/l0_core/semantic/type_checker_stmt.cpp:196-219 | Compares with the declared result type where both are known |
| Checker.TypeChecker.CheckFunction | src/l0_core/semantic/type_checker_decl.cpp:154-202 | The errors of the specification; afterwards no symbol is left |
| WellTyped.AcceptedIff | src/l0_core/semantic/type_checker_decl.cpp:154-202 | Against typing rules that do not call the checker: a function is accepted exactly if its parameters differ and its body is well typed, whichever checks are switched on |
| WellTyped.ExprIff | src/l0_core/semantic/type_checker_expr.cpp:112-403 | An expression has a type by the rules exactly if the checker reports nothing, and then that one: two integers or two floats under + - * / and the orders, integers under %, equal types under = and !=, truth values under the logical operators, calls with matching arguments |
| WellTyped.StmtIff | src/l0_core/semantic/type_checker_stmt.cpp:11-219 | A statement is well typed exactly if the checker reports nothing, with the same names afterwards: conditions are truth values, `break` and `continue` stand in loops, results have the declared type |
| WellTyped.GivingLoses | src/l0_core/semantic/type_checker.cpp:112-125 | Declaring or assigning a name from an owned heap name takes the value away from it |
| WellTyped.LostForGood | src/l0_core/semantic/type_checker_stmt.cpp:65-135 | No well-typed statement gives it back |
| WellTyped.LostIsUnusable | src/l0_core/semantic/type_checker.cpp:201-212 | No mention of a name that has lost its value is well typed |
| TypeSound.ExprSound | src/l0_core/semantic/type_checker_expr.cpp:17-333 | In a module that passes the restricted check, an accepted expression has a type of values without heap storage, or an unknown one; its value, if any, has that type, and it fails only for a zero divisor or overflow |
| TypeSound.CallSound | src/l0_core/semantic/type_checker_expr.cpp:335-403 | So does an accepted call, to any depth of recursion: the callee is a function of the module with that many parameters, and its result has the declared type, if one is declared |
| TypeSound.StmtSound | src/l0_core/semantic/type_checker_stmt.cpp:11-219 | An accepted statement keeps the environment typed, names that it hides included, returns only values of the declared type and fails only for an arithmetic reason |
| TypeSound.FuncSound | src/l0_core/semantic/type_checker_decl.cpp:154-202 | A call of a function of such a module on arguments of its parameter types gives a value of its result type or fails for a zero divisor or overflow; a parameter without a declared type takes any argument |
| TypeLimits.GuardTripsIff | src/l0_core/semantic/type_checker_expr.cpp:159-165 | Values of the operand types of an accepted operation can trip the VM's operand guard exactly if not both types are known to be integers; where both are known, they do exactly for an equality of operands that are no integers |
| TypeLimits.CompoundTripsIff | src/l0_core/semantic/type_checker_stmt.cpp:72-96 | Values of the types of an accepted compound assignment can trip it exactly if not both types are known to be integers; where both are known, they do exactly if the target is none |
| TypeLimits.NegationTripsIff | src/l0_core/semantic/type_checker_expr.cpp:302-329 | An accepted negation can trip it exactly if its operand has no known type |
| TypeLimits.MismatchIff | src/l0_core/semantic/type_checker_expr.cpp:390-402 | An accepted argument, assigned value or result can have another type than the declared one exactly if its own type is unknown |
| TypeLimits.CompoundUnsound | src/l0_core/semantic/type_checker_stmt.cpp:72-96 | `var b = true; b += true;` is accepted and its run stops with an operand-type fault |
| TypeLimits.FallsOffIff | src/l0_core/vm/vm.cpp:978-1012 | Where an accepted function falls off its end it hands back its first parameter, of which every value has the declared result type exactly if nothing is declared or the parameter is declared with just that type; with any other declared parameter type no run hands back the right one |
| TypeLimits.FallingOffUnsound | src/l0_core/semantic/type_checker_decl.cpp:154-202 | A function declared to give an integer, with an empty body, is accepted and hands back a truth value |
| TypeLimits.EqualityUnsound | src/l0_core/semantic/type_checker_expr.cpp:159-165 | A program the checker accepts whose run stops with an operand-type fault |
| TypeLimits.UndeclaredResultUnsound | src/l0_core/semantic/type_checker_decl.cpp:174-178 | `func g(a: int) { return true; }` and `func f(a: int) -> int { return g(a) + 1; }` are accepted, and a call of `f` stops with an operand-type fault |
| TypeLimits.UndeclaredParamUnsound | src/l0_core/syntax/parser_declaration.cpp:115-133 | `func f(a) -> int { return a + 1; }` is accepted, and stops with an operand-type fault when called with a truth value |
| TypeLimits.UndeclaredReturnUnsound | src/l0_core/semantic/type_checker_stmt.cpp:196-219 | `func f(a) -> int { return a; }` is accepted and hands back a truth value |
| TypeLimits.UndeclaredCalleeUnsound | src/l0_core/semantic/type_checker_expr.cpp:340-343 | `func f(a) -> int { return a(1); }` is accepted, and stops with a call of a truth value |
| TypeSound.StrictStmt | src/l0_core/semantic/type_checker_stmt.cpp:11-219 | Whatever passes under the restrictions passes without them, with the same scopes |
| TypeSound.StmtOuter | src/l0_core/semantic/type_checker_stmt.cpp:136-145 | Checking a statement changes at most the innermost scope, checking a block changes none |
| MapObject.MapTable.Set | include/niki/l0_core/vm/object.hpp:253-275 | The finite map with the key set to the value; a full table is doubled first, even for an overwrite; an insert always finds a slot |
| MapObject.MapTable.Get | include/niki/l0_core/vm/object.hpp:278-289 | The last value set for the key, found exactly if one was |
| MapObject.MapTable.Expand | include/niki/l0_core/vm/object.hpp:223-250 | Growth keeps contents and order; a smaller capacity changes nothing |
| MapObject.MapTable.Insert | include/niki/l0_core/vm/object.hpp:265-274 | Occupies the first free slot, which is slot number `count`; no other slot changes |
| MapObject.MapTable.Overwrite | include/niki/l0_core/vm/object.hpp:258-264 | Replaces the value of one slot in place; no other slot changes |
| MapObject.MapTable.IndexOf | include/niki/l0_core/vm/object.hpp:258-264 | The slot of the key, found exactly if the map has it |
| MapObject.KeyEqualsIff | include/niki/l0_core/vm/object.hpp:190-220 | Key equality is an equivalence: strings by content, other objects by address |
| MapObject.SameKeyIff | include/niki/l0_core/vm/object.hpp:190-220 | Keys are the same exactly for equal integers, equal truth values, texts with the same characters, one and the same object, or nil; never across kinds |
| MapObject.ValueAt | include/niki/l0_core/vm/object.hpp:278-289 | With distinct keys every occupied slot holds the map's value for its key |
| MapObject.Overwritten | include/niki/l0_core/vm/object.hpp:258-264 | Changing a slot's value is a map update |

## Left out

- IrBuilder.Builder.BuildStmt: stops at the first statement that cannot be built, where the program goes on to collect more diagnostics; success and the tables on success are the same.
- Verify.VerifyModule: has one row per instruction instead of parallel columns, so the column alignment test has nothing to do; span sums do not wrap around at 32 bits; no domain hook is registered.
- Lowering.LowerOneFunction: rows for arrays, maps, members, strings, floats, dice, global stores and frees are rejected; the record's blocks must be numbered by position, which is proved of everything the builder completes; lines and columns are not recorded.
- VmMachine.Vm.Step: opcodes that lowering never emits for this fragment (heap objects, floats, dice, bit operations, OP_JZ, global stores, printing) stop as unknown opcodes; a register index beyond the file, undefined in the program, is a fault, and so is signed overflow.
- VmMachine.Vm.Run: is bounded by a number of turns, as are the methods built on it; the theorems hold for every bound.
- Checker.TypeChecker.CheckStatement: declarations without initialiser, type annotations, struct constructor calls, `match` and component statements are not modelled; errors are counted, their texts and places are not.
- Checker.TypeChecker.PopScope: exit lists are recorded in order instead of being keyed by syntax node.
- TypeSound.FuncSound: for values without heap storage; declared types are int, bool and function types.
- Compiler.InterpreterToVm: a call without arguments is a whole expression of a statement and calls a function by its name; if its value is used, the function returns a value on every way through, and a function with parameters that makes such a call does so too. These conditions are sufficient, not necessary: a callee with few registers leaves more of its caller's.
- UnitParser.ParseUnit: says nothing about which files are parsed without an error; for expressions `Stratified` says it. It records of a node only its kind and the nodes it refers to; side tables and names are not modelled. The two loops that can stand still have a bound on their turns; what the model does after a loop has reached it means nothing.
- Launcher.LaunchProgram: takes programs whose init chunks are the ones the back end makes, which is the only way the repository makes them.
- Launcher.LaunchExplained: for one compiled unit; a call into another module runs with the caller's module id, which is not modelled.
- MapObject.MapTable.Set: keys are never floats, and capacities do not wrap around at 32 bits.
- Linker.CollectExports: lists an export table in order of first occurrence; the program's hash table fixes no order.
- Hiding.RenamedScoped: needs as many unused name ids above the functions' as a function has parameters and declarations.
- Source.EvalExpr: integer literals are unbounded; the program converts them with a function that throws beyond 64 bits, so such a file has no parse result there.
- Heap ownership at run time: frees on leaving a scope, strings, arrays and struct instances.
- The scanner, diagnostics texts, the disassembler, file handling, the command line, import and export contexts, type interning and module id allocation: input, output or simple tables.
