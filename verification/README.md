# Nany bootstrap: a verified model of its code generation, VM and analyser

Nany's bootstrap compiler turns a syntax tree into a flat sequence of instructions, analyses it, and runs the result on
a register VM. This project models the parts where these steps depend on each other, and proves what they owe to each
other, over every program, every heap and every tree.

The loops and the objects of the original which are updated in place are methods and classes here, each proved against a
function; the laws are then proved about these functions.

**Control flow.** `Source` gives structured programs (expressions with `and` / `or`, if-expressions and calls;
statements with branches, loops, returns, raised errors and `on scope fail` blocks) a meaning. `Emitter` is the code
they are turned into, and `Producer` the class which appends it and patches the labels. `Machine` is the VM one step at
a time, and `Executor` the class which visits instructions and calls itself for each call. `Preservation` connects both
ends, on top of `Layout` (where labels lie), `Running` and `Branching` (jumps), `Expressions`, `Simple` and `Statements`.
`Arithmetic` says what each operation of the VM computes. `Untidy` is what the code does, said as a program. `Execution`
states it all for the executor. `Strictness` and `Refinement` compare minimal evaluation with strict evaluation, and
`ShortCircuit` is the rewriting from one to the other. `Scopes` is about the scopes of the emitted code, and `Renumber`
about making room for new registers in it.

**Errors.** `Effects` is what the analyser predicts, `HandlerStack` the class which keeps the handlers and records the
leaks. `Sites` says where the predicted errors come from. `Containment` and `Unwinding` prove that no other error
unwinds in any run, of any length; `Soundness` proves it on meanings; `Agreement` and `Dispatching` prove that an error
finds the same handler whether it is raised directly or comes out of a call; `Transparency` is about callers, for any
code.

**Reference counting.** `Heap` and `Cascade` are about `unref`; `Assigning`, `Assignment` and `Ownership` about
assignments and clones; `Walks` about the graph of objects which a clone goes through, with no memory being written, and
`Dangling` proves that a deep copy does what this graph says; `Members` about the default destructor and the default
clone; `Release` about what is emitted at the end of scopes, at returns and at errors.

**Syntax tree.** `Normalize` is the reordering of operators and their rewriting into calls, on any tree; `Chains` is what
both do to operator chains.

**Analyser.** `EditDistance`, `Overloads`, `Binding`, `Alias` and `Overlay` are self-contained.

## What the code does not do

The following are properties one would expect and which the code does not have. The model keeps the code as it is; the
named lemmas say exactly when the property holds.

- The label which ends a block with a handler is drawn once the counter was handed back to the enclosing scope, which
  draws the same id again (`scope.hxx:20-29`, `scope.cpp:72-86`). When a first branch, a loop body or a handler ends with
  such a block, the `else`, the end of the `while` or the protected code is never reached. `Untidy` says which program the
  code runs instead, `Preservation.CodeDoes` that it does, `SharedLabels` when a label is reached, and `Counterexamples`
  has a program for each construct.
- A function which calls itself under a handler has its calls checked against the errors found so far:
  `Effects.SteadyIsSettled`, `Counterexamples.SelfCallLosesError`.
- The code of a deep copy into a member, which is for registers whose qualifier is not `ref`, releases the old value
  before the source is cloned, and may read it then:
  `Dangling.MemberCopyIsExact`, `Dangling.SharedMemberDies`, `Dangling.CopyIntoItself`. For a member which is cloned with
  its object, the copy would never end anyway: `Dangling.OwnMemberNeverEnds`.
- The code after a call which may raise releases the result of the call, which was not acquired
  (`Release.RaisingRuns`). The variables of the block of a handler are released where an error is raised for it, and
  again at the end of the block (`Release.CaughtExact`, `Release.RaisedTwice`). A return which is not taken leaves its
  register to be released (`Release.ReturnPassed`, `Release.BorrowedReturn`).
- A typed handler is refused under a handler of any error because the search for a handler of its type finds that one
  (`HandlerStack.Analyzer.RegisterHandler`).
- The index of the rewriting loop wraps around at zero, so that one run leaves an assignment to a chain of operators, such
  as `a + b = c`, as it was; the next run, by the passes of an expression around it, rewrites it:
  `Normalize.LevelIsComplete`, `Chains.AssignmentIsRewritten`, `Chains.AssignmentSettles`, `Chains.SumAssigned`.
- Merged substitutes lose hard links: `Overlay.MergeIsExact`, `Overlay.LinkIsLost`.
- A named argument silently replaces another one of the same name: `Binding.SameNameReplaces`.
- Renumbering forgets the source of a `store`, and separates a label from its error register when the limit falls in
  between: `Renumber.CopyKept`, `Renumber.HandlerSlotKept`.
- The note which decides whether a name is suggested counts the length of the name: `EditDistance.LongNamesAreAlone`.
- Minimal `or` differs from the bitwise `or` on values which are no booleans: `Strictness.OperatorAgrees`.
- A comment in `assignment.cpp:77-79` says that both sides may be the same register; the code refuses it, and so does
  `Assigning.Analyzer.InstanciateAssignment`.

## Model

| member | source | states |
|---|---|---|
| Jumps.FindForward | bootstrap/libnanyc/details/ir/sequence.cpp:168-182 | the first label of that id from a position on, or none when there is none left |
| Jumps.FindBackward | bootstrap/libnanyc/details/ir/sequence.cpp:184-198 | the last label of that id before a position, or none when there is none |
| Jumps.JumpToLabelForward | bootstrap/libnanyc/details/ir/sequence.cpp:170-182 | the loop over the cursor finds the same label, and leaves the cursor alone when it fails |
| Jumps.JumpToLabelBackward | bootstrap/libnanyc/details/ir/sequence.cpp:186-198 | the same, going backward from the instruction before the cursor |
| Jumps.GotoIsExact | bootstrap/libnanyc/details/vm/thread.cpp:131-139 | with positive and strictly increasing labels, deciding the direction from `upperLabelID` alone finds the one label of that id wherever it stands, and fails only when it does not exist |
| Jumps.GotoIsNearest | bootstrap/libnanyc/details/vm/thread.cpp:132-139 | with labels which are only ordered, a jump succeeds exactly when the label exists, and `upperLabelID` is then the greatest label up to where it lands |
| Isa.BitwiseOrFits | bootstrap/libnanyc/details/vm/thread.cpp:376-380 | `or` of two registers fits in a register |
| Isa.UpToOrdered | bootstrap/libnanyc/details/vm/thread.cpp:463-466 | after the visit of a label of an ordered sequence, the greatest label met is that label |
| Machine.JumpKeepsInvariant | bootstrap/libnanyc/details/vm/thread.cpp:468-484 | any jump keeps "`upperLabelID` is the greatest label before the cursor", and raises `InvalidLabel` if and only if the label is absent |
| Machine.StepKeepsInvariant | bootstrap/libnanyc/details/vm/thread.cpp:141-688 | every instruction keeps this invariant, for the current function and for all its suspended callers |
| Machine.RunKeepsInvariant | bootstrap/libnanyc/details/vm/thread.cpp:719-767 | so does any number of steps, through calls, returns and unwinding |
| Executor.Executor.GotoLabel | bootstrap/libnanyc/details/vm/thread.cpp:133-139 | the visited label becomes the upper label, and the machine goes on right after it |
| Executor.Executor.VisitPlain | bootstrap/libnanyc/details/vm/thread.cpp:242-267 | instructions which go on with the next one change the registers, parameters and events as one step of the machine |
| Arithmetic.BinaryComputes | bootstrap/libnanyc/details/vm/thread.cpp:242-380 | an arithmetic instruction, wherever it stands, writes into its register what it computes of its two operands, and changes nothing else; a division by zero is a fault |
| Arithmetic.SumIs | bootstrap/libnanyc/details/vm/thread.cpp:242-246 | `add`: the sum of both operands, less 2^64 when it does not fit |
| Arithmetic.DifferenceIs | bootstrap/libnanyc/details/vm/thread.cpp:248-252 | `sub`: what gives the left operand back when the right one is added |
| Arithmetic.ProductDistributes | bootstrap/libnanyc/details/vm/thread.cpp:254-258 | `mul`: distributes over the sum of the VM, from 0 and 1 on |
| Arithmetic.QuotientIs | bootstrap/libnanyc/details/vm/thread.cpp:260-267 | `div`: the greatest integer whose product with the divisor is at most the dividend |
| Arithmetic.ComparisonsAre | bootstrap/libnanyc/details/vm/thread.cpp:286-308 | comparisons are 1 exactly when the unsigned integers are so related, else 0 |
| Arithmetic.BitsAre | bootstrap/libnanyc/details/vm/thread.cpp:370-380 | `and` / `or`: each bit comes from the same bit of both operands |
| Arithmetic.MeaningComputes | bootstrap/libnanyc/details/vm/thread.cpp:242-380 | the value of an operator in the meaning of a program is what the VM computes |
| Executor.Executor.VisitJump | bootstrap/libnanyc/details/vm/thread.cpp:472-484 | labels and jumps are one step of the machine |
| Executor.Executor.VisitRaise | bootstrap/libnanyc/details/vm/thread.cpp:671-683 | `raise` jumps to its handler with the error stored after the label, or leaves the function with the unwind flag set |
| Executor.Executor.VisitJmperrhandler | bootstrap/libnanyc/details/vm/thread.cpp:651-668 | a handler of that type, or of any error, stops the unwinding; another one is passed |
| Executor.Executor.VisitControl | bootstrap/libnanyc/details/vm/thread.cpp:645-683 | any instruction which drives the control flow, but `call`, is one step of the machine |
| Executor.Executor.Call | bootstrap/libnanyc/details/vm/thread.cpp:720-767 | the recursive call is a number of steps of the machine, after which the frame of the caller is back with its cursor, its label counter and its registers but the one of the result |
| Executor.Executor.Each | bootstrap/libnanyc/details/vm/thread.cpp:741-753 | the loop over the instructions of a function is a number of steps of the machine; it ends with what a return leaves |
| Transparency.InsideOrResumed | bootstrap/libnanyc/details/vm/thread.cpp:722-767 | for any number of steps from within a callee: its caller, below everything that was called since, was not touched, or it was resumed with its own sequence, cursor, label counter, callers and registers but one |
| Transparency.CallIsTransparent | bootstrap/libnanyc/details/vm/thread.cpp:442-446 | the same from the `call` instruction, at any depth, whether the callee returns or unwinds |
| Producer.Scope.NextVar | bootstrap/libnanyc/details/pass/c-ast2ir/scope.hxx:62-64 | ids are drawn one after the other |
| Producer.Scope.VisitExpr | bootstrap/libnanyc/details/pass/c-ast2ir/scope-call.cpp:189-206 | what is appended for any expression, with its back-patched labels, is the emitted code of its specification |
| Producer.Scope.EmitFuncCall | bootstrap/libnanyc/details/pass/c-ast2ir/scope-call.cpp:18-45 | a call: parameters in order, then the instruction, the end of its scope, and the dispatch of its errors |
| Producer.Scope.VisitCallParameters | bootstrap/libnanyc/details/pass/c-ast2ir/scope-call.cpp:87-187 | parameters are evaluated from left to right, and their registers kept in that order |
| Producer.Scope.EmitShortCircuitFuncCall | bootstrap/libnanyc/details/pass/c-ast2ir/scope-call.cpp:47-83 | `and` / `or`: room is made before the second operand, and the label of the operator is put after it |
| Producer.Scope.GenerateIfExpr | bootstrap/libnanyc/details/pass/c-ast2ir/scope-if.cpp:82-148 | both jumps of an if-expression get the ids of the labels drawn after them |
| Producer.Scope.GenerateIfStmt | bootstrap/libnanyc/details/pass/c-ast2ir/scope-if.cpp:9-80 | so do those of an if-statement, with or without `else` |
| Producer.Scope.VisitWhile | bootstrap/libnanyc/details/pass/c-ast2ir/scope-while.cpp:9-55 | a while loop, with its jump backward and its jump out |
| Producer.Scope.VisitDoWhile | bootstrap/libnanyc/details/pass/c-ast2ir/scope-while.cpp:58-97 | a do-while loop |
| Producer.Scope.VisitOnScopeFail | bootstrap/libnanyc/details/pass/c-ast2ir/scope-on-scope-fail.cpp:89-133 | a block with a handler: the handler is jumped over, and jumps to the exit of the block |
| Producer.Scope.CloseBlock | bootstrap/libnanyc/details/pass/c-ast2ir/scope.cpp:72-86 | the counter goes back to the parent before the label of the exit is drawn and patched into the jump of the handler |
| Producer.Scope.VisitStmt | bootstrap/libnanyc/details/pass/c-ast2ir/scope-scope.cpp:9-26 | what is appended for any statement is the emitted code of its specification |
| Producer.ProduceFunction | bootstrap/libnanyc/details/pass/c-ast2ir/scope-return-raise.cpp:9-57 | a whole function, with its number of registers known at the end |
| Layout.ExprFits | bootstrap/libnanyc/details/pass/c-ast2ir/scope-call.cpp:20-83 | the code of any expression has positive and ordered labels between the counter before it and the counter after it, and registers below the greatest one of the function |
| Layout.StmtFits | bootstrap/libnanyc/details/pass/c-ast2ir/scope-if.cpp:14-78 | so has any statement, but for the label of a handler at its end, which is one above the counter |
| Tails.StmtLands | bootstrap/libnanyc/details/pass/c-ast2ir/scope.cpp:73-86 | a label with the id which is drawn next is met inside a statement if and only if the statement ends with a handler; what follows such a label does nothing |
| Preservation.ProgramOrdered | bootstrap/libnanyc/details/pass/c-ast2ir/scope-if.cpp:24-79 | every emitted function has positive and ordered labels, so that the jump invariant holds for whole programs |
| Expressions.SimExpr | bootstrap/libnanyc/details/pass/c-ast2ir/scope-if.cpp:83-148 | wherever the code of an expression stands, the machine reaches its end with the value of the expression, or the handler, exit or fault its meaning says, with the same events; it runs on for as long as the evaluation is given time, and when an error of a call is lost it is at a label with the flag set |
| Expressions.SimShort | bootstrap/libnanyc/details/pass/c-ast2ir/scope-call.cpp:48-83 | so does the code of `and` / `or`, rewritten with jumps or not |
| Statements.SimStmt | bootstrap/libnanyc/details/pass/c-ast2ir/scope-if.cpp:10-80 | wherever the code of a statement stands, the machine does what this code does: it ends right after it in the state of the structured evaluation, or where it was cut short |
| Preservation.SimFunc | bootstrap/libnanyc/details/vm/thread.cpp:719-761 | a function which was just entered answers what its code does |
| Untidy.TidyDoes | bootstrap/libnanyc/details/pass/c-ast2ir/scope.hxx:20-29 | the code of a statement does what is written if and only if no first branch, loop body or handler in it ends with a block which has a handler |
| Untidy.TidyProgramDoes | bootstrap/libnanyc/details/pass/c-ast2ir/scope.cpp:72-86 | the same for whole programs |
| Preservation.CodeDoes | bootstrap/libnanyc/details/vm/thread.cpp:710-717 | for every well-formed program: the machine produces the events of what the code does in the same order and ends the same way (value, unwinding error, fault), is still running when the evaluation takes more time than given, and reaches a label with the flag set when an error of a call is lost |
| Preservation.MeaningPreserved | bootstrap/libnanyc/details/vm/thread.cpp:710-717 | a program which is tidy in this sense does what is written: same events, same order, same end |
| Preservation.MeaningIsExact | bootstrap/libnanyc/details/vm/thread.cpp:719-753 | when the machine has stopped after some steps, the evaluation with twice this time has ended, and any evaluation which ends agrees with the run |
| Preservation.NeverStops | bootstrap/libnanyc/details/vm/thread.cpp:741-753 | the machine runs for ever if and only if no time is enough for the evaluation |
| Execution.Execute | bootstrap/libnanyc/details/vm/thread.cpp:785-834 | when the executor, run on the emitted code, ends, every evaluation which is given enough time ends too, with the same value, error or fault and the same events |
| SharedLabels.ElseIsReached | bootstrap/libnanyc/details/pass/c-ast2ir/scope.hxx:20-26 | if-else: the jump over the first branch reaches the `else` label if and only if the first branch does not end with a handler |
| SharedLabels.EndOfLoopIsReached | bootstrap/libnanyc/details/pass/c-ast2ir/scope-while.cpp:10-55 | while: the jump out of the loop reaches its end if and only if the body does not end with a handler |
| SharedLabels.ProtectedIsReached | bootstrap/libnanyc/details/pass/c-ast2ir/scope-on-scope-fail.cpp:90-133 | a block with a handler: the jump over the handler reaches the protected code if and only if the handler does not itself end with a handler |
| Statements.ElseIsSkipped | bootstrap/libnanyc/details/pass/c-ast2ir/scope-if.cpp:57-79 | otherwise, when the condition does not hold, neither branch of the if-else runs, wherever it stands |
| Statements.LoopNeverLeaves | bootstrap/libnanyc/details/pass/c-ast2ir/scope-while.cpp:24-54 | otherwise, when the condition does not hold, the loop starts again |
| Statements.ProtectedIsSkipped | bootstrap/libnanyc/details/pass/c-ast2ir/scope-on-scope-fail.cpp:96-132 | otherwise, the protected code never runs |
| Counterexamples.ElseIsLost | bootstrap/libnanyc/details/pass/c-ast2ir/scope-if.cpp:57-79 | `if false { on scope fail {} } else { observe 1 }` means one event; run by the machine, it ends without any |
| Counterexamples.EndIsLost | bootstrap/libnanyc/details/pass/c-ast2ir/scope-while.cpp:24-54 | `while false { on scope fail {} }` means nothing; the machine never stops |
| Counterexamples.ProtectedIsLost | bootstrap/libnanyc/details/pass/c-ast2ir/scope-on-scope-fail.cpp:96-132 | a block whose handler ends with a handler means one event; run by the machine, it ends without any |
| Handlers.Choose | bootstrap/libnanyc/details/semantic/semantic-analysis.h:79-95 | the first handler of that very type, else the handler of any error; none exactly when neither exists |
| Handlers.DispatchShape | bootstrap/libnanyc/details/semantic/opcode-jzraise.cpp:8-25 | after a call: one test for each typed handler in order, `any` last, or a return when there is no handler |
| Dispatching.DispatchError | bootstrap/libnanyc/details/semantic/opcode-jzraise.cpp:7-25 | an error which comes out of a call reaches the handler the static search chooses, or leaves the function, or the label after the call when handlers are in scope and none is for it |
| Dispatching.DispatchNothing | bootstrap/libnanyc/details/vm/thread.cpp:645-649 | without error, the dispatch is skipped and no register changes |
| Agreement.StaticChoice | bootstrap/libnanyc/details/semantic/opcode-raise.cpp:26-35 | a direct `raise` enters the chosen handler, with the error in its register |
| Agreement.HandlersAgree | bootstrap/libnanyc/details/vm/thread.cpp:651-683 | the same error, raised directly or out of a call, at any two places with the same handlers in scope, enters the same handler: the first of that type, or `any` when no other fits |
| HandlerStack.OnScopeFailHandlers.Find | bootstrap/libnanyc/details/semantic/semantic-analysis.h:88-95 | the search over the vector of handlers finds what the specification selects |
| HandlerStack.OnScopeFailHandlers.MarkAsUsed | bootstrap/libnanyc/details/semantic/semantic-analysis.h:97-104 | exactly the selected handler gets marked |
| HandlerStack.OnScopeFailHandlers.Add | bootstrap/libnanyc/details/semantic/semantic-analysis.h:110-118 | a typed handler is pushed after the others |
| HandlerStack.OnScopeFailHandlers.PopBack | bootstrap/libnanyc/details/semantic/semantic-analysis.h:120-122 | the last typed handler is removed |
| HandlerStack.OnScopeFailHandlers.OutermostScope | bootstrap/libnanyc/details/semantic/semantic-analysis.h:129-133 | `any` if there is one, else the first typed handler |
| HandlerStack.Analyzer.RaisedErrorsFromFuncCall | bootstrap/libnanyc/details/semantic/opcode-call.cpp:13-40 | the errors of a callee are all let out when no handler is in scope; otherwise it succeeds exactly when each has a handler, and marks exactly those |
| HandlerStack.Analyzer.VisitRaise | bootstrap/libnanyc/details/semantic/opcode-raise.cpp:8-41 | a direct `raise` is recorded as a leak, or gets the label of its handler, or is refused |
| HandlerStack.Analyzer.VisitJzraise | bootstrap/libnanyc/details/semantic/opcode-jzraise.cpp:11-24 | the loop over the handlers emits the dispatch of its specification |
| HandlerStack.Analyzer.RegisterHandler | bootstrap/libnanyc/details/semantic/opcode-onscopefail.cpp:25-49 | a handler is accepted exactly when its errors are not handled yet, and then extends the handlers in scope; a typed one is pushed anyway |
| HandlerStack.Analyzer.UnregisterHandler | bootstrap/libnanyc/details/semantic/opcode-onscopefail.cpp:50-65 | the handler of the closed block is removed, which must be the last one |
| HandlerStack.Analyzer.VisitStmt | bootstrap/libnanyc/details/semantic/opcode-onscopefail.cpp:8-66 | the visit of a statement with these methods succeeds exactly when the analysis accepts it, records the errors of the analysis, and leaves the handlers as they were |
| HandlerStack.Analyzer.VisitFunction | bootstrap/libnanyc/details/semantic/opcode-raise.cpp:8-41 | visiting a function records the errors which have a site in it, and no other |
| HandlerStack.RegistersIs | bootstrap/libnanyc/details/semantic/opcode-onscopefail.cpp:25-47 | a typed handler is refused exactly when a handler of its type, or of any error, is in scope; a handler of any error exactly when there is one already |
| HandlerStack.CoversIs | bootstrap/libnanyc/details/semantic/opcode-call.cpp:24-40 | a set of errors is accepted exactly when there is no handler or each error selects one |
| Effects.RaisesOf | bootstrap/libnanyc/details/semantic/opcode-call.cpp:20-22 | the errors of a function are those recorded along the visit of its body, given the ones of the functions before it, a call of itself having those recorded so far |
| Sites.RaisesAreSites | bootstrap/libnanyc/details/semantic/opcode-raise.cpp:20-25 | the errors predicted for a function are exactly those which have a site in it: a `raise`, or a call of a function which lets the error out, outside of the code protected by any handler |
| Sites.RaisesAreLeast | bootstrap/libnanyc/details/semantic/opcode-call.cpp:17-22 | the predicted sets are the least ones which have every error with a site |
| Effects.SteadyIsSettled | bootstrap/libnanyc/details/semantic/atom-factory.cpp:235-247 | an accepted program, analysed again with the errors of every function, is accepted again without a new error, if and only if each function calls itself either without handler in scope or with handlers for all its errors, those found later included |
| Counterexamples.SelfCallLosesError | bootstrap/libnanyc/details/semantic/opcode-call.cpp:13-40 | a function which calls itself under a handler before it raises another error is accepted; run by the machine, it reaches a label with an error on its way |
| Soundness.FuncSound | bootstrap/libnanyc/details/semantic/opcode-raise.cpp:20-40 | whatever the evaluation of a function of such a program, only its predicted errors come out, and no error is lost without handler |
| Soundness.AcceptedPrograms | bootstrap/libnanyc/details/semantic/opcode-call.cpp:24-39 | the machine does what such a program means; it never ends with an error caught nowhere |
| Soundness.AcceptedEnd | bootstrap/libnanyc/details/vm/thread.cpp:741-753 | it stops if and only if what such a program means ends |
| Unwinding.RunContained | bootstrap/libnanyc/details/semantic/opcode-jzraise.cpp:7-24 | in every run of such a program, of whatever length, the errors in flight are predicted ones, at each depth |
| Unwinding.NeverAtLabel | bootstrap/libnanyc/details/vm/thread.cpp:645-668 | while the unwind flag is set, the next instruction is the end of a scope, a test of the flag or of a handler, or a return: never a label |
| Unwinding.OnlyPredictedErrors | bootstrap/libnanyc/details/vm/thread.cpp:671-683 | in every run of an accepted program which calls itself as said, the flag is clear at every label, and the program does not end with an error which was not predicted |
| Unwinding.FunctionsLetOutPredicted | bootstrap/libnanyc/details/vm/thread.cpp:126-129 | whenever a function is left with an error, at any depth, this error was predicted for this very function |
| Unwinding.EntryIsSafe | bootstrap/libnanyc/details/semantic/opcode-call.cpp:35-38 | an entry point without predicted error never ends unwinding, even when the run of the program never ends otherwise |
| ShortCircuit.Analyzer.GenerateShortCircuit | bootstrap/libnanyc/details/semantic/opcode-call.cpp:216-271 | the reserved instructions get an optional read of the field and a `jz` / `jnz`, the pending label is reset, and nothing else is written |
| ShortCircuit.RoomIsPatched | bootstrap/libnanyc/details/pass/c-ast2ir/scope-call.cpp:130-145 | patching the strict code yields the code with jumps, exactly |
| ShortCircuit.OffsetsKept | bootstrap/libnanyc/details/semantic/opcode-call.cpp:228-264 | in a whole nest of operators, the rewriting moves no instruction and renames no label and no register: only `nop`s become jumps |
| ShortCircuit.DecidedSkips | bootstrap/libnanyc/details/vm/thread.cpp:472-484 | when the first operand decides, the machine is after the label of the operator two or three steps later, with the result: the second operand is never visited |
| ShortCircuit.UndecidedGoesOn | bootstrap/libnanyc/details/semantic/opcode-call.cpp:240-262 | otherwise the second operand is entered as in the strict program, with the same registers but the reserved one |
| ShortCircuit.StrictResult | bootstrap/libnanyc/details/vm/thread.cpp:370-380 | what the strict operator leaves in the register of the result |
| Strictness.OperatorAgrees | bootstrap/libnanyc/details/semantic/opcode-call.cpp:246-258 | when the first operand decides, the strict operator gives the same result if and only if the second one ends with a value and no event, and for `or` the first is one and the second at most one |
| Strictness.ExprAgrees | bootstrap/libnanyc/details/pass/c-ast2ir/scope-call.cpp:47-83 | an expression with all its operators, and the functions it calls, evaluated strictly or not: the same value, events and exit, as long as the skipped operands are such |
| Strictness.FuncAgrees | bootstrap/libnanyc/details/pass/c-ast2ir/scope-call.cpp:60-81 | the same for whole functions: loops, handlers and calls included |
| Refinement.ExprRefined | bootstrap/libnanyc/details/semantic/opcode-call.cpp:216-271 | the code of an expression before and after the rewriting, run by the machine: both arrive right after it with the same value in the same register and the same events |
| Refinement.ProgramRefined | bootstrap/libnanyc/details/semantic/opcode-call.cpp:228-264 | the strict program and the rewritten one end the same way, with the same events |
| Cascade.UnrefReleases | bootstrap/libnanyc/details/vm/thread.cpp:494-501 | dropping a reference succeeds and keeps "count = owners", also in the middle of the destruction or the construction of other objects |
| Cascade.CascadeIsExact | bootstrap/libnanyc/details/vm/thread.cpp:697-708 | in any balanced memory, cycles included, one `unref` ends without ever reading or freeing a dead object, and leaves the memory balanced; the freed objects are the least set of objects which lose their last owner |
| Members.Generator.ProduceMemberVarDefaultDispose | bootstrap/libnanyc/details/semantic/member-variable-default-dispose.cpp:59-91 | the loop emits one release for each member which is an object, on registers used one after the other |
| Members.DisposeRuns | bootstrap/libnanyc/details/semantic/member-variable-default-dispose.cpp:62-80 | running the emitted destructor releases the members in order, and stops at the first failure |
| Members.Generator.ProduceMemberVarDefaultClone | bootstrap/libnanyc/details/semantic/member-variable-default-clone.cpp:41-84 | the loop emits, member by member, a copy, a shared reference or a deep copy |
| Members.CloneRuns | bootstrap/libnanyc/details/semantic/member-variable-default-clone.cpp:50-82 | running the emitted clone gives what the clone of an object means: values, shared objects, and clones of the others |
| Members.Executor.VisitRef | bootstrap/libnanyc/details/vm/thread.cpp:486-492 | a reference is counted, on a live object only |
| Members.Executor.VisitUnref | bootstrap/libnanyc/details/vm/thread.cpp:495-501 | the recursive release does what the cascade of its specification does |
| Members.Executor.Destroy | bootstrap/libnanyc/details/vm/thread.cpp:697-707 | the members first, then the memory of the object |
| Assigning.Analyzer.InstanciateAssignment | bootstrap/libnanyc/details/semantic/assignment.cpp:74-234 | refuses null or identical registers, appends the code of the strategy and updates the flags of the target; once this code has run, the target holds the very object of the value exactly when no deep copy is forced and either the register is a `ref` or the value comes from an allocation or a call, and otherwise an object at an address not used before |
| Assigning.DeepAssigns | bootstrap/libnanyc/details/semantic/assignment.cpp:190-231 | after the code of a deep copy, which ended, the register and the member hold an address which was not used before |
| Assigning.RefAssigns | bootstrap/libnanyc/details/semantic/assignment.cpp:167-189 | after the code of an assignment by reference, the register and the member hold the address of the value |
| Assignment.RefIsExact | bootstrap/libnanyc/details/vm/thread.cpp:486-496 | a reference counts one more on its object and changes nothing else; it is refused on a dead object, and when the count would overflow |
| Ownership.RefKeepsOwnership | bootstrap/libnanyc/details/semantic/assignment.cpp:167-190 | the code of a reference assignment keeps "count = owners": plain and member targets, `a = a`, with the old value released, or left with one owner less than its count when it must not be |
| Ownership.DeepKeepsOwnership | bootstrap/libnanyc/details/semantic/assignment.cpp:191-232 | so does the code of a deep copy; the target gets a fresh object whose members are those of the source or clones of them |
| Ownership.RawCopies | bootstrap/libnanyc/details/semantic/assignment.cpp:159-165 | values which are no objects are copied, and no count changes |
| Walks.WalkEnds | bootstrap/libnanyc/details/semantic/member-variable-default-clone.cpp:44-72 | the clone of an object, member by member, goes through a finite depth if and only if it meets no cycle of members which are cloned; the number of addresses is a depth which is always enough |
| Walks.ContainsItself | bootstrap/libnanyc/details/semantic/member-variable-default-clone.cpp:44-72 | no clone ends of an object whose class contains itself through members which are cloned |
| Dangling.PlainCopyWalks | bootstrap/libnanyc/details/semantic/assignment.cpp:199-227 | what a deep copy into a variable does, for every depth: it ends, or fails for its depth, as the graph of its source says; a count at its maximum is the only other failure |
| Dangling.PlainCopyIsExact | bootstrap/libnanyc/details/semantic/assignment.cpp:199-227 | a deep copy into a variable only stops at the limits of depth and of counts, so that no dead object is read; it ends if and only if the clone of its source meets no cycle |
| Dangling.MemberCopyWalks | bootstrap/libnanyc/details/semantic/assignment.cpp:202-231 | what a deep copy into a member does, for every depth: it ends, fails for its depth, or reads a dead object, as the graph of its source says; a count at its maximum is the only other failure |
| Assignment.DeepBalanced | bootstrap/libnanyc/details/semantic/member-variable-default-clone.cpp:44-66 | a clone of any depth keeps "count = owners", takes the reference it was given on its source, and writes no object which existed before |
| Dangling.MemberCopyIsExact | bootstrap/libnanyc/details/semantic/assignment.cpp:202-231 | beyond its limits, a deep copy into a member only fails by reading a dead object, which happens only when the old value of the member is released for the last time and the clone of the source goes through the object of this member; when the source meets no cycle, it always fails then, and ends otherwise |
| Dangling.OwnMemberNeverEnds | bootstrap/libnanyc/details/semantic/assignment.cpp:202-231 | when the member is cloned with its object, such a copy never ends, even if nothing is released: the release is to blame for members which are shared only |
| Dangling.CopyIntoItself | bootstrap/libnanyc/details/semantic/assignment.cpp:202-231 | `x.k = x`, the old value having no other owner: a balanced memory where the copy reads this value, at every depth; without the release, it would never end |
| Dangling.SharedMemberDies | bootstrap/libnanyc/details/semantic/assignment.cpp:202-231 | `s.k = x`, where `x` has `s` for member and `k` is shared: a balanced memory where the same code reads a dead object with the release, and makes the copy without it |
| Release.Analyzer.ReleaseScopedVariables | bootstrap/libnanyc/details/semantic/semantic-analysis.cpp:53-90 | the descending loop emits one `unref` for each owned register from the scope on, and forgets them when asked to |
| Release.ReleasesDescend | bootstrap/libnanyc/details/semantic/semantic-analysis.cpp:53-90 | the last declared register is released first |
| Release.Analyzer.VisitEnd | bootstrap/libnanyc/details/semantic/opcode-scope-end.cpp:16-42 | the end of a scope releases and forgets its registers |
| Release.Analyzer.VisitScope | bootstrap/libnanyc/details/semantic/opcode-scope-end.cpp:8-13 | what is owned from there on belongs to one scope more |
| Release.Analyzer.AcquireObject | bootstrap/libnanyc/details/semantic/ref-unref.h:30-36 | one reference more, to be released with the scope |
| Release.Analyzer.VisitRet | bootstrap/libnanyc/details/semantic/opcode-return.cpp:119-147 | the returned object is acquired, then every owned register is released, without being forgotten |
| Release.ReturnRuns | bootstrap/libnanyc/details/semantic/opcode-return.cpp:123-146 | a return releases everything; the returned register keeps exactly one reference, for the caller, if and only if it was owned |
| Release.ReturnPassed | bootstrap/libnanyc/details/semantic/opcode-return.cpp:130-146 | after a return which was not taken, the ends of the scopes release the register of its value: this succeeds if and only if it was owned |
| Release.BorrowedReturn | bootstrap/libnanyc/details/semantic/opcode-return.cpp:130-146 | a body which returns, in one branch, a register it does not own: through the return, the caller gets no reference; around it, a register is released which holds nothing, and the run fails |
| Release.PathsBalanced | bootstrap/libnanyc/details/semantic/semantic-analysis.cpp:54-90 | on every path through any nest of scopes, branches, loops and blocks with handlers, where the errors caught are harmless: no register is released unless it holds a reference, and at the end a register holds one exactly when it will be released |
| Release.FunctionBalanced | bootstrap/libnanyc/details/semantic/opcode-scope-end.cpp:9-42 | on every such path from the start of a function to its end, a return or an unwinding error, each register is released once per acquisition; a returned object or a raised error leaves with exactly one reference more |
| Release.Analyzer.VisitRaise | bootstrap/libnanyc/details/semantic/opcode-raise.cpp:18-40 | a direct `raise` acquires the error, but for a handler of any error, then releases the variables of the scope of its handler, or all of them |
| Release.ThrowRuns | bootstrap/libnanyc/details/semantic/opcode-raise.cpp:20-25 | an error raised without handler leaves the function with exactly one reference, whether its register was owned or not, and nothing else is held |
| Release.RaiseRuns | bootstrap/libnanyc/details/semantic/opcode-raise.cpp:26-36 | an error raised for a handler keeps what is out of the scope of this handler, and one reference for it, unless it is for any error |
| Release.RaisingRuns | bootstrap/libnanyc/details/semantic/opcode-jzraise.cpp:12-15 | an error out of a call: the release of everything, from the scope of the handlers on if there are any, succeeds if and only if the result of the call is no object, since that one was registered but not acquired |
| Release.Analyzer.VisitJzraise | bootstrap/libnanyc/details/semantic/opcode-jzraise.cpp:8-23 | before the errors of a call are dispatched: what the block of the handler of any error owns is released, else what the block of the first handler registered owns, else everything |
| Release.CallErrorReleases | bootstrap/libnanyc/details/semantic/opcode-jzraise.cpp:11-17 | on the way of an error from a call to any handler: with typed handlers only, what the block of each of them owns is released once, and nothing that is owned outside of the block of the first one; with a handler of any error, exactly what its block owns |
| Release.CallErrorLeaves | bootstrap/libnanyc/details/semantic/opcode-jzraise.cpp:19-22 | without handler, everything which is owned is released once, and the function is left |
| Release.RaiseReleases | bootstrap/libnanyc/details/semantic/opcode-raise.cpp:26-36 | a direct `raise` releases exactly what the block of its own handler owns |
| Release.RaisingObject | bootstrap/libnanyc/details/semantic/opcode-jzraise.cpp:18-21 | a call which returns an object and raises an error: the emitted operations release a null register |
| Release.CaughtExact | bootstrap/libnanyc/details/semantic/opcode-jzraise.cpp:11-17 | an error which meets the handler of a block, raised there or out of a call: the path is balanced if and only if nothing was owned between where the release began and the block, and the block owns nothing at its end, should the handler get there; when the release began further inside, what was owned between the block and this point is exactly what the block owns at its end |
| Release.RaisedTwice | bootstrap/libnanyc/details/semantic/opcode-raise.cpp:26-36 | a block with a handler owns an object and raises an error: the object is released by the `raise` and by the end of the block |
| Normalize.TakeLeftOperands | bootstrap/libnanyc/details/pass/b-ast-normalize/normalize.cpp:285-326 | the in-place loop gives each operator its left operand, once, as the fold over the siblings does |
| Normalize.AbsorbContinuations | bootstrap/libnanyc/details/pass/b-ast-normalize/normalize.cpp:328-362 | the in-place loop gives each identifier the call, member or index which follows it |
| Normalize.ReorderOperators | bootstrap/libnanyc/details/pass/b-ast-normalize/normalize.cpp:275-369 | the recursive reordering of any tree |
| Normalize.TreeConserved | bootstrap/libnanyc/details/pass/b-ast-normalize/normalize.cpp:276-369 | for every tree, no node is lost or duplicated, and identifiers, operators and leaves keep their order from left to right |
| Normalize.TakesAtMostOne | bootstrap/libnanyc/details/pass/b-ast-normalize/normalize.cpp:296-303 | an operator takes one previous sibling at most, itself an operator which took one at most, and so on |
| Normalize.TwoSiblings | bootstrap/libnanyc/details/pass/b-ast-normalize/normalize.cpp:285-361 | of two siblings: an operator takes what comes before it unless this is a symbol, an identifier takes what continues it, and nothing else moves |
| Normalize.TransformLevel | bootstrap/libnanyc/details/pass/b-ast-normalize/normalize.cpp:232-269 | the loop with its index going back, and wrapping around at zero |
| Normalize.LevelIsComplete | bootstrap/libnanyc/details/pass/b-ast-normalize/normalize.cpp:233-262 | no operator is left on a level, if and only if the level does not start with an operator followed by another one |
| Normalize.TransformOperators | bootstrap/libnanyc/details/pass/b-ast-normalize/normalize.cpp:231-273 | the recursive rewriting of any tree ends, though it rewrites what it has made |
| Chains.ReorderChain | bootstrap/libnanyc/details/pass/b-ast-normalize/normalize.cpp:275-326 | any nest of operator chains becomes one left-nested tree |
| Chains.TransformNest | bootstrap/libnanyc/details/pass/b-ast-normalize/normalize.cpp:118-196 | such a tree becomes one tree of calls |
| Chains.CalledMeans | bootstrap/libnanyc/details/pass/b-ast-normalize/normalize.cpp:147-196 | the nested calls mean the chain as it is written: each operation is the call of the function named by a caret and the text of its operator without trailing blanks, on the same operands, from left to right |
| Chains.NamesDiffer | bootstrap/libnanyc/details/utils/check-for-valid-identifier-name.cpp:109-125 | two operators give the same call if and only if their texts are the same, trailing blanks apart |
| Chains.MemberName | bootstrap/libnanyc/details/utils/check-for-valid-identifier-name.cpp:109-125 | an assignment with an operator becomes the member named by a caret and this operator; a plain assignment keeps its name |
| Chains.CalledSettled | bootstrap/libnanyc/details/pass/b-ast-normalize/normalize.cpp:371-376 | running both passes on the result changes nothing |
| Chains.ChainNormalized | bootstrap/libnanyc/details/pass/b-ast-normalize/normalize.cpp:371-375 | for every chain, `not` included: one tree of calls, with the value of the chain, which is settled, and so is a proper operand of any other chain |
| Chains.GroupSettled | bootstrap/libnanyc/details/pass/b-ast-normalize/normalize.cpp:366-374 | a group in parentheses made of such a tree is settled too |
| Chains.WordsAreProper | bootstrap/libnanyc/details/pass/b-ast-normalize/normalize.cpp:371-375 | a chain of identifiers and literals is made of proper operands |
| Chains.AssignmentIsRewritten | bootstrap/libnanyc/details/pass/b-ast-normalize/normalize.cpp:233-263 | one run of both passes rewrites an assignment as the call of a member if and only if its target is one operand: after a chain of operators, or a negation, it is left as it was |
| Chains.AssignmentSettles | bootstrap/libnanyc/details/pass/b-ast-normalize/normalize.cpp:371-376 | a second run, by the passes of an expression which contains this one, changes nothing but the assignment, which it rewrites |
| Chains.SumAssigned | bootstrap/libnanyc/details/pass/b-ast-normalize/normalize.cpp:245-257 | `a + b = c`, from the siblings which the parser makes: the first run leaves the assignment, the second one rewrites it |
| EditDistance.LevenshteinDistance | bootstrap/libnanyc/details/semantic/error-not-declared.cpp:14-50 | the nested loops fill the matrix of the recursive distance |
| EditDistance.DistanceIsOptimal | bootstrap/libnanyc/details/semantic/error-not-declared.cpp:24-49 | the distance is the least cost of all the scripts of insertions, deletions, replacements and swaps (past the second character only) which turn one name into the other, and a script has that cost |
| EditDistance.DistanceIsSymmetric | bootstrap/libnanyc/details/semantic/error-not-declared.cpp:30-47 | it is symmetric |
| EditDistance.DistanceIsBounded | bootstrap/libnanyc/details/semantic/error-not-declared.cpp:15-23 | it lies between the difference of the lengths and the greater one |
| EditDistance.DistanceIsZero | bootstrap/libnanyc/details/semantic/error-not-declared.cpp:31-48 | it is zero exactly for equal names |
| EditDistance.StringsAreCloseEnough | bootstrap/libnanyc/details/semantic/error-not-declared.cpp:52-56 | the note and its limit |
| EditDistance.LongNamesAreAlone | bootstrap/libnanyc/details/semantic/error-not-declared.cpp:53-55 | since the note counts the length of the name, only names of eight characters at most get suggestions, and eight characters only get themselves |
| Overloads.Resolver.FindSuitable | bootstrap/libnanyc/details/semantic/overloaded-func-call-resolution.cpp:15-70 | suitable candidates, their scores, their number and the number of strict matches |
| Overloads.Resolver.FindBest | bootstrap/libnanyc/details/semantic/overloaded-func-call-resolution.cpp:89-112 | the one candidate with the greatest score, if this score is positive |
| Overloads.Resolver.Instanciate | bootstrap/libnanyc/details/semantic/overloaded-func-call-resolution.cpp:125-168 | the number of candidates which can be instanciated, the last one being kept |
| Overloads.Resolver.Resolve | bootstrap/libnanyc/details/semantic/overloaded-func-call-resolution.cpp:7-172 | succeeds exactly when a candidate is chosen: the only suitable one, else the only strict match, else (without strict match) the unique best positive score, else the only instanciable one |
| Overloads.ChoosesOne | bootstrap/libnanyc/details/semantic/overloaded-func-call-resolution.cpp:82-119 | at most one candidate is chosen |
| Overloads.OrderIndependent | bootstrap/libnanyc/details/semantic/overloaded-func-call-resolution.cpp:39-171 | the same candidate is chosen for every order of the candidates, or none |
| Binding.FindParameter | bootstrap/libnanyc/details/atom/atom.cpp:620-630 | the first parameter of that name from an offset |
| Binding.FuncOverloadMatch.Validate | bootstrap/libnanyc/details/semantic/func-overload-match.cpp:129-309 | accepts exactly the calls whose arguments fit; the parameters are those bound by the arguments, the match is strict exactly when every argument matches strictly, and the score counts the strict ones |
| Binding.AcceptsMeans | bootstrap/libnanyc/details/semantic/func-overload-match.cpp:100-318 | a call is accepted exactly when, for the type checker, each argument suits the parameter which it binds, each other parameter has a value by its name, and the result is one which is wanted |
| Binding.FitsMean | bootstrap/libnanyc/details/semantic/func-overload-match.cpp:165-222 | the matches which make the score are those of each argument with the parameter which it binds |
| Binding.FuncOverloadMatch.PushTemplates | bootstrap/libnanyc/details/semantic/func-overload-match.cpp:168-184 | indexed type parameters fill the first generic parameters, and each must match |
| Binding.FuncOverloadMatch.PushIndexed | bootstrap/libnanyc/details/semantic/func-overload-match.cpp:185-197 | indexed arguments fill the first parameters in order |
| Binding.FuncOverloadMatch.PushNamed | bootstrap/libnanyc/details/semantic/func-overload-match.cpp:199-222 | named arguments are placed at the first parameter of that name after the indexed ones |
| Binding.BindingIsTotal | bootstrap/libnanyc/details/semantic/func-overload-match.cpp:130-252 | for an accepted call with distinct names, every parameter is bound exactly once: the first ones in order by the indexed arguments, each other one by the one named argument of its name |
| Binding.EveryArgumentBinds | bootstrap/libnanyc/details/semantic/func-overload-match.cpp:199-210 | each named argument is bound to a parameter |
| Binding.SameNameReplaces | bootstrap/libnanyc/details/semantic/func-overload-match.cpp:106-112 | two arguments of the same name are accepted, and the last one replaces the other |
| Alias.ResolveTypeAlias | bootstrap/libnanyc/details/semantic/opcode-identify.cpp:167-211 | ends on every graph of aliases; finds a type if and only if the chain reaches one before an unresolved type, a sibling declared later or a repeated alias, and says which of these was met |
| Alias.CycleFollows | bootstrap/libnanyc/details/semantic/opcode-identify.cpp:172-196 | a repeated alias is followed for ever: no type lies beyond |
| Alias.OneEnd | bootstrap/libnanyc/details/semantic/opcode-identify.cpp:185-210 | the chain has one end at most |
| Overlay.ClassdefTable.FindClassdef | bootstrap/libnanyc/details/atom/classdef-table.cpp:44-65 | a lookup gives the base table overridden by the substitutes, through hard links |
| Overlay.ClassdefTable.HasSubstitute | bootstrap/libnanyc/details/atom/classdef-table.cpp:221-229 | whether the current layer overrides an id |
| Overlay.ClassdefTable.Substitute | bootstrap/libnanyc/details/atom/classdef-table.cpp:267-281 | the substitute of a register, made at the first request with the qualifiers of the table |
| Overlay.ClassdefTable.Write | bootstrap/libnanyc/details/atom/classdef-table.cpp:267-281 | what is written through the substitute of a register replaces its type, and no other substitute |
| Overlay.ClassdefTable.AddSubstitute | bootstrap/libnanyc/details/atom/classdef-table.cpp:284-302 | one more register, substituted |
| Overlay.ClassdefTable.SubstituteResize | bootstrap/libnanyc/details/atom/classdef-table.cpp:232-251 | more registers, which change no substitute and no former entry |
| Overlay.ClassdefTable.MergeSubstitutes | bootstrap/libnanyc/details/atom/classdef-table.cpp:254-264 | the substitutes replace their entries, and the layer is over |
| Overlay.ClassdefTable.MakeHardlink | bootstrap/libnanyc/details/atom/classdef-table.cpp:18-41 | two ids share one entry |
| Overlay.OverriddenIsUnion | bootstrap/libnanyc/details/atom/classdef-table.cpp:45-64 | the overlay is the table plus the substitutes if and only if no hard link leads to a substitute which differs from the entry |
| Overlay.MergeIsExact | bootstrap/libnanyc/details/atom/classdef-table.cpp:255-263 | once merged, an id gives the same type as before if and only if it was not hard-linked to a substituted id |
| Overlay.LinkIsLost | bootstrap/libnanyc/details/atom/classdef-table.cpp:254-264 | two ids linked together and a substitute for the first one: the second one sees it before the merge, not after |
| Overlay.MergeAddsNoLink | bootstrap/libnanyc/details/atom/classdef-table.cpp:256-262 | merging links no id which was not linked |
| Renumber.Sequence.IncreaseAllLVID | bootstrap/libnanyc/details/ir/sequence.cpp:85-158 | the walk renumbers the operands from an offset to the end of its block, and nothing else |
| Renumber.BlockEndMatches | bootstrap/libnanyc/details/ir/sequence.cpp:109-116 | the walk stops at the first end of a scope which has no beginning after its offset |
| Scopes.ExprNested | bootstrap/libnanyc/details/ir/emit.h:869-877 | every scope which the code of an expression begins ends in it, after the scopes within it, and no other one does |
| Scopes.StmtNested | bootstrap/libnanyc/details/pass/c-ast2ir/scope-scope.cpp:9-26 | so do the scopes of any statement, with its branches, loops, returns and handlers |
| Scopes.HeightMeans | bootstrap/libnanyc/details/ir/sequence.cpp:109-116 | scopes are well nested exactly when no beginning of the code has more ends than beginnings, and as many are left open as there are beginnings without end |
| Scopes.BlockRenumbered | bootstrap/libnanyc/details/ir/sequence.cpp:154-158 | from the beginning of an emitted block, wherever it stands, the walk renumbers exactly the code of its statements |
| Renumber.JumpsKept | bootstrap/libnanyc/details/ir/isa/data.h:604-655 | strictly increasing labels still are, and every jump reaches the instruction it reached before |
| Renumber.HandlerSlotKept | bootstrap/libnanyc/details/ir/isa/data.h:987-995 | whatever the registers hold, an error stored for a handler is found in the register of its variable once renumbered, if and only if the limit is not the label of the handler |
| Renumber.CopyKept | bootstrap/libnanyc/details/ir/isa/data.h:474-481 | whatever the registers hold, a renumbered copy reads what it read before, if and only if its source is below the limit |
| Renumber.PlainKept | bootstrap/libnanyc/details/ir/isa/data.h:440-1000 | every other instruction which goes on with the next one does to the renumbered registers what it did before |
| Renumber.ControlKept | bootstrap/libnanyc/details/ir/isa/data.h:440-1000 | renumbered jumps, returns and raised errors read and write the same registers, and go to the renumbered label |

## Left out

- Preservation.MeaningPreserved: is about tidy programs; CodeDoes is about all of them.
- Preservation.NeverStops: when an error of a call is lost, CodeDoes says that a label is visited with the flag set, and nothing about what the machine does from there on.
- Execution.Execute: the recursion of the executor is bounded by a fuel, as the native stack is, and says nothing once it is exhausted.
- Unwinding.OnlyPredictedErrors: functions call themselves and functions declared before them; with mutual recursion, the error sets of other functions are read before they are complete.
- Cascade.CascadeIsExact: destructors are the default ones; a destructor written by the user would run while counts are being updated.
- Assignment.DeepBalanced: clones written by the user are not modelled, and fresh objects have null members and addresses never used before.
- Ownership.RefKeepsOwnership: a count at its maximum is a fault of the model; the VM wraps around.
- Dangling.MemberCopyIsExact: a freed address is never given again, while the allocator of the VM may give it to the clone.
- Dangling.MemberCopyWalks: is about the code of assignment.cpp:190-231; the register of a member has the qualifier `ref` by default (qualifiers.h:17), which opcode-identify.cpp:59-60 keeps, so that this code is for registers whose qualifier was cleared, and what clears it is not part of this model.
- Dangling.PlainCopyWalks: the depth of a clone is bounded by a fuel, since a cyclic object is cloned for ever.
- Normalize.TransformOperators: the number of children which each operator must have is required, as the assertions of the code do, and lists of children are counted with 32 bits.
- Overloads.Resolver.Resolve: a resolver is used once, since the number of suitable candidates is never reset.
- Binding.FuncOverloadMatch.Validate: the similarity of two types is a parameter of the model.
- Release.Analyzer.VisitRet: returns of builtin values and of nothing release the same registers; the copy which precedes the return of a value that is not a reference is an acquisition like another one, made before.
- Release.FunctionBalanced: a call which may raise has no object for result, as RaisingRuns explains, a returned register is owned, as ReturnPassed explains, and the caught errors are harmless, as CaughtExact explains.
- Release.PathsBalanced: the handler which an error reaches is part of the path; the releases emitted before a dispatch are here, not in HandlerStack.
- Overlay.ClassdefTable.MakeHardlink: the entry is copied; it is not written through the link afterwards.
- Renumber.Sequence.IncreaseAllLVID: nested blueprints, which the walk skips, are not part of the sequence here.
- Renumber.JumpsKept: is about labels, and PlainKept and ControlKept about one instruction; the meaning of whole renumbered code is lost by `store`, as CopyKept shows.
- The two passes which emit code and then type it are one emitter here; the reserved instructions of `and` / `or` are overwritten by the second pass, which ShortCircuit states apart.
- ShortCircuit.RoomIsPatched: is about operands which are builtin values; a boxed first operand is read by one instruction more, which DecidedSkips and UndecidedGoesOn follow, and no whole program has one.
- Producer.Scope.CloseBlock: one handler for each block; several handlers of one block share the label of their exit.
- Producer.Scope.EmitFuncCall: a call without parameters has a scope too, which changes nothing to its registers.
- Producer.Scope.VisitCallParameters: named and generic parameters, and the limit on their number.
- Producer.ProduceFunction: the blueprint and the copies of parameters.
- Executor.Executor.Call: the tracker id which is saved and restored around a call.
- Executor.Executor.VisitJmperrhandler: a handler of any error destroys the error whatever its count; this is part of neither model.
- HandlerStack.Analyzer.RaisedErrorsFromFuncCall: the refusal of errors in destructors.
- Assigning.Analyzer.InstanciateAssignment: the refusals of synthetic, mistyped and void values, and the implicit read of a boxed builtin.
- Overloads.Resolver.Instanciate: instanciation is a flag of the candidate, without side effect on the next ones.
- Normalize.AbsorbContinuations: an identifier takes one continuation only in one pass.
- The conversion of the result of `and` / `or` into an object of the class `bool`.
- Reference counts in the control flow: raised errors are plain values there.
- What a fresh register holds is one unknown value for the whole run, and a function always ends with a return.
- The overflow of the counter of ids, `stackoverflow`, and failures of allocation.
- Nodes of the syntax tree are values: the loops reassign lists of children, and two parents never share a node.
- Property getters and setters, generic types, captured variables, anonymous classes and namespaces.
- Floats, foreign calls, raw memory, traces, positions in source files and messages.
