# Lox, two ways: a Dafny model

This project models the two Lox implementations of a chapter-by-chapter
walk through *Crafting Interpreters*, each in its most complete snapshot:

- **The tree-walking interpreter (Ruby).**
  - The scanner of ch11 (`RloxToken`, `RloxScanner`).
  - The recursive-descent parser of ch12, with `for` desugared (`RloxAst`, `RloxParser`).
  - The static resolver of ch13 (`RloxResolver`).
  - The environment chain of ch11 (`RloxEnvironment`).
  - The evaluator of ch12 (`RloxValue`, `RloxRuntime`, `RloxInterpreter`).
  - The object model of ch13/ch12: functions, classes and instances (`RloxObjects`).
  - The `Lox.run` pipeline that ties them together (`RloxLox`).
- **The bytecode side (Rust).**
  - The on-demand scanner of ch17 (`CloxScanner`), which also stands in for the scanner of ch21; that one is not part of this model.
  - The chunk store and disassembler of ch17 (`CloxChunk`).
  - The single-pass Pratt compiler of ch21 (`CloxCompiler`, with further lemmas about it in `CloxCompilerFacts`).
  - The tagged values and stack VM of ch20 (`CloxValue`, `CloxVm`), run on the chunks of the ch21 compiler; the ch20 compiler, `compiler.rs` of that chapter, is not part of this model.
  - The string interner and the FNV-1a hasher of ch21 (`CloxInterner`, `CloxFnv`).

Everything is an immutable value threaded through pure functions:

- Token lists, ASTs and chunks are datatypes over `seq`.
- The parser's cursor, the resolver's scope stack and the compiler's parser state are records passed in and returned.
- The Ruby environments and objects live in two arenas, `seq<Frame>` and `seq<Object>`. A closure or a bound method shares a frame by its index, and a value refers to an object by its index.
- The VM is a state record stepped one instruction at a time.

Numbers are exact reals. The host's text rendering of a float is a parameter (`numText`), and so is the Rust `Debug` text of a token in compile-error messages (`debug`).

Errors that the source raises become values:

- `PResult.Fail` in the parser.
- `Outcome.Raised` in the interpreter.
- `Step.Failed` in the compiler.
- `Outcome.Failed` in the VM.

Host crashes, such as a Ruby `NoMethodError` or a Rust panic, are outcomes of their own.

The model follows the code where it departs from the book. Each quirk below is stated as a property:

- `l` is skipped as whitespace in the Ruby scanner (`"\l"` is `"l"` in Ruby).
- The Ruby scanner takes one extra pass at the end.
- Any scan error crashes the Ruby `Lox.run`, because `Lox.error` receives a line number where it expects a token.
- The non-instance `set` path calls `LoxRuntimeError(` without `.new`, which crashes the host.
- Unary minus has no operand check: `-"s"` is `"s"`, and minus on anything else crashes the host.
- In the Rust scanner, `true` scans as `This` and `andy` scans as `And`. A short word at the end of input panics.
- The compiler gives `==` comparison precedence.
- The compiler compiles only the first declaration, and never finishes on input that is empty at the start.
- The compiler's `consume(Identifier(String::new()))` compares the payload, so a `var` declaration naming anything but the empty string is rejected.
- The ch20 VM has no case for `Pop`, `Print` and `DefineGlobal`.

## Model

| member | source | states |
|---|---|---|
| RloxToken.WordKind | ch11/scanner.rb:89-96 | a word in the 16-entry keyword table gets that keyword's type, any other word is IDENTIFIER |
| RloxScanner.CommentEnd | ch11/scanner.rb:63-68 | a `//` comment runs up to the first newline or the end, and never past a newline |
| RloxScanner.StringEnd | ch11/scanner.rb:112-127 | the string loop stops at the first `"` or past the end, and the line count grows by exactly the newlines it crossed |
| RloxScanner.WordEnd | ch11/scanner.rb:89-90 | the identifier loop consumes exactly the maximal run of letters, digits and `_` |
| RloxScanner.NumberEnd | ch11/scanner.rb:98-106 | a number is the maximal digit run, plus `.` and digits only when a digit follows the dot; the next character is not a digit |
| RloxScanner.StringToken | ch11/scanner.rb:112-127 | a STRING token whose lexeme and literal are the text between the quotes; at the end of input, "Unterminated string." is reported and the token still holds the rest of the input; the line counts every newline inside |
| RloxScanner.OperatorToken | ch11/scanner.rb:55-62 | `!`, `=`, `<`, `>` followed by `=` give the two-character token, otherwise the one-character token (maximal munch) |
| RloxScanner.SlashToken | ch11/scanner.rb:63-68 | `//` emits no token and stops before the newline; a lone `/` emits SLASH |
| RloxScanner.NumberToken | ch11/scanner.rb:98-110 | a NUMBER token for the maximal `digits[.digits]` lexeme, whose literal is its decimal value |
| RloxScanner.WordToken | ch11/scanner.rb:89-96 | the maximal alphanumeric run with its keyword type or IDENTIFIER |
| RloxScanner.ScanToken | ch11/scanner.rb:42-87 | one pass always advances; the pass past the end does nothing; whitespace (including `l`) and newlines emit nothing; any other unexpected character is reported as "Unexpected character: c" and skipped, and every character no case takes is reported, so away from a quote an error comes exactly from such a character; tokens carry the current line |
| RloxScanner.ScanTokenDispatch | ch11/scanner.rb:42-87 | which sub-scanner each leading character selects, with `l` not starting an identifier |
| RloxScanner.ScanFrom | ch11/scanner.rb:33-37 | the final line is the start line plus the newlines of the rest of the input; no EOF token inside; token lines never decrease |
| RloxScanner.ScanTokens | ch11/scanner.rb:33-40 | the list ends with exactly one EOF token, on line 1 plus the number of newlines; line numbers start at 1 and never decrease |
| RloxValue.FromLiteral | ch12/interpreter.rb:42-44 | a literal node evaluates to the value of its literal |
| RloxValue.Truthy | ch12/interpreter.rb:301-306 | false exactly for nil and `false`; 0 and "" are true |
| RloxValue.IsEqual | ch12/interpreter.rb:309-314 | nil equals only nil, otherwise host equality, so a number never equals a string |
| RloxParser.Check | ch12/parser.rb:398-401 | true iff the current token has the kind and is not EOF |
| RloxParser.Advance | ch12/parser.rb:403-409 | moves one token forward except at EOF, where it stays |
| RloxParser.Report | ch12/parser.rb:372-375 | appends the error and leaves the cursor alone |
| RloxParser.Peek | ch12/parser.rb:415-417 | the token under the cursor, which is EOF exactly at the end |
| RloxParser.PeekAdvance | ch12/parser.rb:403-417 | after `advance`, `peek` shows the following token, or EOF again at the end; reporting an error leaves it where it was |
| RloxParser.Consume | ch12/parser.rb:364-370 | succeeds iff `check` holds, returning the current token and moving past it; otherwise raises after reporting the message at the current token |
| RloxParser.IsOpAtLevel | ch12/parser.rb:211-280 | each operator of a ladder level has that level's binding strength |
| RloxParser.Expression | ch12/parser.rb:24-26 | a parsed expression consumed input and is precedence-nested; a failure has reported an error |
| RloxParser.Assignment | ch12/parser.rb:189-208 | a parsed assignment-level expression consumed input and is precedence-nested; a failure has reported an error |
| RloxParser.Ladder | ch12/parser.rb:211-280 | the levels or, and, equality, comparison, term and factor: the result binds at least as tightly as the level and is left-nested |
| RloxParser.LadderLoop | ch12/parser.rb:214-218 | each `left op right` fold keeps the left operand at this level and the right operand one level tighter (left associativity) |
| RloxParser.Unary | ch12/parser.rb:282-290 | `!` and `-` prefixes over a call-level expression; the result binds at unary level or tighter |
| RloxParser.Call | ch12/parser.rb:292-308 | a primary with its postfix chain, at call level |
| RloxParser.CallLoop | ch12/parser.rb:295-305 | each `(args)` or `.name` suffix is folded onto the expression so far, which stays at call level |
| RloxParser.FinishCall | ch12/parser.rb:310-325 | a Call node whose callee is the expression the suffix was folded onto |
| RloxParser.Arguments | ch12/parser.rb:313-320 | a non-empty list of nested argument expressions; failure reports |
| RloxParser.Primary | ch12/parser.rb:327-351 | a literal, `this`, a variable or a grouping, at call level; a failure that does not start with `(` is "Expect expression." reported at the current token |
| RloxParser.Synchronize | ch12/parser.rb:377-396 | advances at least once unless at EOF, then stops exactly at EOF, after a `;`, or before a statement keyword, skipping no such point |
| RloxParser.SyncLoop | ch12/parser.rb:380-395 | the loop stops at the first EOF, `;` boundary or statement keyword |
| RloxParser.DesugarFor | ch12/parser.rb:87-102 | `for` becomes Block[init, While(cond or true, Block[body, incr])], each wrapper dropped when its clause is absent |
| RloxParser.DesugarForNested | ch12/parser.rb:87-102 | the desugared loop is well-nested when its parts are |
| RloxParser.Declaration | ch12/parser.rb:28-43 | consumes at least one token unless at EOF; `nil` (a failed declaration) has reported an error |
| RloxParser.ClassDeclaration | ch12/parser.rb:45-57 | a Class statement, always without a superclass |
| RloxParser.Methods | ch12/parser.rb:49-52 | the method loop yields functions with well-nested bodies |
| RloxParser.Function | ch12/parser.rb:157-176 | a function declaration with a well-nested body |
| RloxParser.Block | ch12/parser.rb:178-187 | the block's statements consumed input and are precedence-nested; a failure (such as a missing `}`) has reported an error |
| RloxParser.Statement | ch12/parser.rb:59-68 | a statement consumed input and is well-nested |
| RloxParser.ForInitializer | ch12/parser.rb:72-78 | no initializer exactly when a `;` comes first |
| RloxParser.ForClause | ch12/parser.rb:80-84 | a clause is absent exactly when its terminator comes first, and then nothing is consumed |
| RloxParser.ForClauses | ch12/parser.rb:71-84 | the three clauses are well-nested |
| RloxParser.ForStatement | ch12/parser.rb:70-103 | the desugared loop is well-nested |
| RloxParser.IfTail | ch12/parser.rb:110-113 | the branches and an optional `else` form a well-nested If |
| RloxParser.IfStatement | ch12/parser.rb:105-114 | an If statement consumed input and is well-nested |
| RloxParser.PrintStatement | ch12/parser.rb:116-120 | a Print statement consumed input and is well-nested |
| RloxParser.ReturnStatement | ch12/parser.rb:122-131 | a Return statement carrying the keyword, valueless exactly when `;` follows the keyword |
| RloxParser.VarDeclaration | ch12/parser.rb:133-140 | a Var statement named by the token after `var` |
| RloxParser.WhileStatement | ch12/parser.rb:142-149 | a While statement consumed input and is well-nested |
| RloxParser.ExpressionStatement | ch12/parser.rb:151-155 | an expression statement |
| RloxParser.Parameters | ch12/parser.rb:160-169 | identifier parameters; more than 255 of them is reported, not raised |
| RloxParser.ParseFrom | ch12/parser.rb:14-20 | one entry per declaration until EOF; with no error reported, no entry is nil |
| RloxParser.Parse | ch12/parser.rb:14-20 | with no error reported every entry is a statement; no statements exactly when the first token is EOF |
| RloxResolver.ResolveLocal | ch13/resolver.rb:256-263 | the depth is the distance to the innermost scope holding the name, and nothing when no scope does |
| RloxResolver.Record | ch13/resolver.rb:256-263 | records the depth for the node when found, else leaves the table as it was |
| RloxResolver.Report | ch13/lox.rb:66-72 | the error is appended |
| RloxResolver.BeginScope | ch13/resolver.rb:228-230 | pushes one empty scope and nothing else changes |
| RloxResolver.EndScope | ch13/resolver.rb:232-234 | pops the innermost scope and nothing else changes |
| RloxResolver.Declare | ch13/resolver.rb:236-248 | a no-op with no scope; otherwise marks the name declared-not-defined in the innermost scope only, reporting a redeclaration in that scope |
| RloxResolver.Define | ch13/resolver.rb:250-254 | a no-op with no scope; otherwise marks the name defined in the innermost scope only |
| RloxResolver.ResolveVariable | ch13/resolver.rb:79-91 | reports a read of a declared-not-defined innermost name, and records the depth as `resolve_local` does |
| RloxResolver.ResolveThis | ch13/resolver.rb:203-212 | an error outside a class, otherwise resolved like a local |
| RloxResolver.ReturnChecks | ch13/resolver.rb:123-141 | `return` at top level is an error, and `return value` in an initializer is an error; a bare return is fine |
| RloxResolver.ResolveExpr | ch13/resolver.rb:150-218 | expressions leave the scope stack and the function and class context unchanged, and only add depths and errors |
| RloxResolver.ResolveExprs | ch13/resolver.rb:157-165 | the same for an argument list |
| RloxResolver.DeclareParams | ch13/resolver.rb:278-281 | parameters are bound in the function's own (innermost) scope only, and no depth is recorded |
| RloxResolver.ResolveFunction | ch13/resolver.rb:273-285 | the scope stack and function context are restored afterwards |
| RloxResolver.ResolveMethods | ch13/resolver.rb:53-59 | methods leave the scope stack and context unchanged |
| RloxResolver.ResolveClassBody | ch13/resolver.rb:45-63 | the `super` and `this` scopes are opened and closed again |
| RloxResolver.ClassHeader | ch13/resolver.rb:32-43 | a class naming itself as its superclass is reported, by name only; only the innermost scope changes |
| RloxResolver.ResolveClass | ch13/resolver.rb:28-67 | only the innermost scope changes (the class name is bound there), the function and class context are restored, and self-inheritance is reported |
| RloxResolver.ResolveStmt | ch13/resolver.rb:20-26 | a statement changes at most the innermost scope and restores the function and class context; blocks, expression and print statements leave the scope stack exactly as it was |
| RloxResolver.ResolveVar | ch13/resolver.rb:69-77 | declare, resolve the initializer, define: the name ends defined in the innermost scope |
| RloxResolver.ResolveStmts | ch13/resolver.rb:14-18 | a statement list changes at most the innermost scope and restores the function and class context |
| RloxResolver.Resolve | ch13/resolver.rb:7-18 | resolving a program ends with no scope and no enclosing function or class |
| RloxEnvironment.NewFrame | ch11/environment.rb:6-9 | a new empty frame under its enclosing frame; existing frames are untouched |
| RloxEnvironment.Chain | ch11/environment.rb:15-22 | the frames reachable by enclosing links, innermost first, ending at a frame with none |
| RloxEnvironment.Define | ch11/environment.rb:11-13 | binds in the receiver's own frame only, overwriting silently; no other frame changes |
| RloxEnvironment.Ancestor | ch11/environment.rb:15-22 | an ancestor is never a later frame |
| RloxEnvironment.AncestorIsChain | ch11/environment.rb:15-22 | `ancestor(d)` is the d-th frame of the chain, following exactly d enclosing links |
| RloxEnvironment.NearestDepth | ch11/environment.rb:24-35 | the first frame along the chain that binds the name |
| RloxEnvironment.Get | ch11/environment.rb:24-35 | the only error is "Undefined variable" for that name |
| RloxEnvironment.GetAt | ch11/environment.rb:37-39 | reads the d-th ancestor's own frame only, nil when the name is absent there; nothing when the chain is shorter than d |
| RloxEnvironment.AssignAt | ch11/environment.rb:41-43 | a `define` in the d-th ancestor's frame, creating the entry if absent; nothing when the chain is shorter than d |
| RloxEnvironment.Assign | ch11/environment.rb:45-56 | the only error is "Undefined variable"; the arena keeps its shape |
| RloxEnvironment.GetIsNearest | ch11/environment.rb:24-35 | `get` returns the nearest binding along the chain, and fails exactly when there is none |
| RloxEnvironment.AssignIsNearest | ch11/environment.rb:45-56 | `assign` updates the nearest existing binding and never creates one, failing exactly when there is none |
| RloxEnvironment.GetAfterAssign | ch11/environment.rb:45-56 | after an `assign`, a `get` of the name from the same environment returns the new value |
| RloxEnvironment.AssignFrames | ch11/environment.rb:45-56 | an `assign` changes exactly one frame, the nearest one that binds the name |
| RloxObjects.SuperChain | ch13/lox_class.rb:15-19 | the classes from one up through its superclasses, ending at one without a superclass |
| RloxObjects.FindMethod | ch13/lox_class.rb:15-19 | the class's own method first; nothing when it has none and no superclass |
| RloxObjects.FindMethodIsFirst | ch13/lox_class.rb:15-19 | the result is the method of the first class up the superclass chain that defines the name, and nothing iff none does |
| RloxObjects.FindMethodOk | ch13/lox_class.rb:15-19 | a found method closes over an existing frame |
| RloxObjects.FunctionArity | ch13/lox_function.rb:20-22 | the number of declared parameters |
| RloxObjects.ClassArity | ch13/lox_class.rb:35-42 | the arity of `init`, own or inherited, else 0 |
| RloxObjects.Bind | ch13/lox_function.rb:14-18 | same declaration and initializer flag, closing over a new frame holding only `this`, whose parent is the old closure |
| RloxObjects.InstanceGet | ch12/lox_instance.rb:9-21 | a field shadows a method; otherwise the class's method bound to this instance; otherwise "Undefined property" |
| RloxObjects.BindOk | ch13/lox_function.rb:14-18 | a bound method keeps the object store sound |
| RloxObjects.InstanceSet | ch12/lox_instance.rb:23-25 | writes only the instance's own field, creating it if absent; every other object is unchanged |
| RloxObjects.GetAfterSet | ch12/lox_instance.rb:9-25 | a `get` after a `set` of the same name returns the value set |
| RloxObjects.SetOk | ch12/lox_instance.rb:23-25 | setting a field keeps the object store sound |
| RloxObjects.AllocOk | ch13/lox_class.rb:25-27 | allocating a sound object keeps the store sound |
| RloxObjects.PushOk | ch13/lox_function.rb:24-31 | a new frame of known values under an existing frame keeps the store sound |
| RloxObjects.ObjectText | ch13/lox_function.rb:47-49 | `<fn NAME>` for a function, the bare name for a class, `NAME instance` for an instance |
| RloxRuntime.InitialValid | ch12/interpreter.rb:12-30 | the interpreter starts sound, with an empty globals frame and no output |
| RloxRuntime.StDefine | ch12/interpreter.rb:259-264 | a definition in the current environment, keeping the state sound |
| RloxRuntime.StPush | ch12/interpreter.rb:200-203 | a new frame under an existing one, keeping the state sound |
| RloxRuntime.StAlloc | ch12/interpreter.rb:205-222 | a new object at the end of the heap, keeping the state sound |
| RloxRuntime.StSetField | ch12/interpreter.rb:58-72 | a field write keeping the state sound |
| RloxRuntime.StPrint | ch12/interpreter.rb:244-248 | exactly one more output line |
| RloxRuntime.BinaryOp | ch12/interpreter.rb:91-132 | numeric operators need two numbers ("Operands must be numbers"); on two numbers `>`, `>=`, `<`, `<=` give the comparison's boolean and `-`, `*`, `/` (by a non-zero number) and `+` give the difference, product, quotient and sum; `+` on two strings joins them and otherwise fails with "Operands must be two numbers or two strings."; `==`/`!=` compare any values; only division by zero gives a non-finite result |
| RloxRuntime.ComparisonsAgree | ch12/interpreter.rb:96-114 | on numbers `a > b` is `b < a`, `>=` and `<=` are the negations of `<` and `>`, and subtracting `b` from `a + b` gives `a` back |
| RloxRuntime.StripDotZero | ch12/interpreter.rb:316-326 | removes exactly one trailing ".0" and changes nothing else |
| RloxRuntime.StripDotZeroAppend | ch12/interpreter.rb:316-326 | stripping undoes appending ".0" |
| RloxRuntime.Stringify | ch12/interpreter.rb:316-326 | "nil", "true"/"false", the number's text without a trailing ".0", the string itself, and an object's `to_s` |
| RloxRuntime.LookUp | ch12/interpreter.rb:191-198 | with a recorded depth, `get_at` from the current environment; otherwise the globals by name |
| RloxRuntime.ResolvedLookupAgrees | ch12/interpreter.rb:191-198 | when the recorded depth is the nearest binding's, the resolved read equals the dynamic `get` |
| RloxRuntime.StAssign | ch12/interpreter.rb:78-89 | with a recorded depth, `assign_at` from the current environment; otherwise `assign` on the globals |
| RloxInterpreter.Eval | ch12/interpreter.rb:292-294 | evaluation keeps the state sound and yields a value of the heap |
| RloxInterpreter.EvalLookUp | ch12/interpreter.rb:187-198 | variable and `this` reads succeed exactly when the lookup finds a value, and raise exactly when it finds none |
| RloxInterpreter.EvalAssign | ch12/interpreter.rb:78-89 | evaluates the value, stores it through the lookup rule, and yields it |
| RloxInterpreter.EvalLogical | ch12/interpreter.rb:46-56 | `or` returns a truthy left and `and` a falsy left without evaluating the right; otherwise the right's value |
| RloxInterpreter.EvalSet | ch12/interpreter.rb:58-72 | a non-instance object crashes the host, keeping the lines printed so far; on success the field holds the value yielded |
| RloxInterpreter.EvalGet | ch12/interpreter.rb:160-170 | a non-instance raises "Only instances have properties."; otherwise the instance's `get` |
| RloxInterpreter.EvalUnary | ch12/interpreter.rb:176-185 | `!` negates truthiness; `-` negates a number, returns a string unchanged and crashes the host on anything else, keeping the lines printed so far |
| RloxInterpreter.EvalBinary | ch12/interpreter.rb:91-132 | left, then right, then the operator table, raising its error; a division by zero ends the run with the lines printed so far |
| RloxInterpreter.EvalArgs | ch12/interpreter.rb:137-139 | one value of the heap per argument |
| RloxInterpreter.EvalCall | ch12/interpreter.rb:134-158 | the callee, then the arguments, then the call |
| RloxInterpreter.CallValue | ch12/interpreter.rb:141-157 | a non-callable raises "Can only call functions and classes."; an arity mismatch raises "Expected N arguments but got M."; otherwise the function or class is called |
| RloxInterpreter.ParamsMapDomain | ch13/lox_function.rb:26-31 | the call frame binds exactly the parameter names |
| RloxInterpreter.ParamsMapValue | ch13/lox_function.rb:26-31 | parameters are bound positionally, a later namesake winning |
| RloxInterpreter.ParamsMapOk | ch13/lox_function.rb:26-31 | the bound arguments are values of the heap |
| RloxInterpreter.CallFrame | ch13/lox_function.rb:24-31 | the call frame's parent is the closure, not the caller's environment |
| RloxInterpreter.CallFunction | ch13/lox_function.rb:24-45 | a Return yields its value and falling off the end yields nil; an initializer always yields `this` from its closure; the body runs in a new frame under the closure |
| RloxInterpreter.CallClass | ch13/lox_class.rb:25-33 | a fresh instance of the class is the result, and without `init` nothing else happens |
| RloxInterpreter.FindMethodExtend | ch13/lox_class.rb:15-19 | allocating an object does not change method lookup |
| RloxInterpreter.Exec | ch12/interpreter.rb:296-298 | execution keeps the state sound |
| RloxInterpreter.ExecExpr | ch12/interpreter.rb:224-227 | evaluates the expression and completes normally |
| RloxInterpreter.ExecPrint | ch12/interpreter.rb:244-248 | exactly one output line, the value's `stringify` |
| RloxInterpreter.ExecVar | ch12/interpreter.rb:259-264 | defines the name in the current environment, as nil without an initializer |
| RloxInterpreter.ExecBlockStmt | ch12/interpreter.rb:200-203 | the statements run in a new frame under the current one |
| RloxInterpreter.MethodTable | ch12/interpreter.rb:205-222 | each method closes over the current environment, and is an initializer iff it is named `init` |
| RloxInterpreter.MethodTableDomain | ch12/interpreter.rb:205-222 | the table holds exactly the declared method names |
| RloxInterpreter.MethodTableValue | ch12/interpreter.rb:205-222 | a method with no later namesake is the one its name finds |
| RloxInterpreter.ExecClass | ch12/interpreter.rb:205-222 | a new class with no superclass and its method table, bound to its name in the current environment |
| RloxInterpreter.ExecFun | ch12/interpreter.rb:229-233 | a new non-initializer function closing over the current environment, bound to its name |
| RloxInterpreter.ExecIf | ch12/interpreter.rb:235-242 | the then branch when the condition is truthy, else the else branch or nothing |
| RloxInterpreter.ExecReturn | ch12/interpreter.rb:250-257 | a Return signal carrying the value, or nil |
| RloxInterpreter.ExecWhile | ch12/interpreter.rb:266-271 | a falsy condition ends the loop normally |
| RloxInterpreter.ExecSeq | ch12/interpreter.rb:273-284 | an empty list completes normally without changing the state |
| RloxInterpreter.ExecSeqAppend | ch12/interpreter.rb:273-284 | running `a + b` runs `a`, then `b` only if `a` completed normally |
| RloxInterpreter.ExecBlock | ch12/interpreter.rb:273-284 | the previous environment is restored whether the block completes, returns or raises |
| RloxLox.Interpret | ch12/interpreter.rb:32-40 | completes iff the statements complete normally; a runtime error, a host exception or a division by zero stops the run and keeps exactly the output printed before it |
| RloxLox.OutputExtends | ch12/interpreter.rb:32-40 | the output of a completed program is a prefix of the output of any extension of it, however that extension ends |
| RloxLox.FailureIgnoresRest | ch12/interpreter.rb:32-40 | statements after a runtime error, a host exception or exhausted fuel never run: the longer program ends exactly as the shorter one |
| RloxLox.Statements | ch13/lox.rb:54-56 | the statements of a parse that reported no error |
| RloxLox.RunTokens | ch13/lox.rb:53-63 | a parse error stops the run before anything executes, and output exists only without parse errors |
| RloxLox.Run | ch13/lox.rb:50-64 | a scan error crashes the run, otherwise the tokens go to the parser |
| CloxScanner.NewScanner | ch17/src/lox/scanner.rs:84-91 | starts at position 0 on line 1 |
| CloxScanner.LineEnd | ch17/src/lox/scanner.rs:203-207 | a comment runs up to but not through the newline |
| CloxScanner.SkipWhitespace | ch17/src/lox/scanner.rs:193-217 | stops at the end or where a token starts; every token start it passes lies inside a `//` comment opened on the same line, and where it stops lies inside none; counts every newline skipped |
| CloxScanner.SkipBlankStep | ch17/src/lox/scanner.rs:196-202 | skipping one blank or newline keeps both comment facts: positions passed are comment text, and the stop is outside every comment |
| CloxScanner.SkipCommentStep | ch17/src/lox/scanner.rs:203-208 | skipping a `//` comment up to its newline keeps both comment facts, seen from the comment's first slash |
| CloxScanner.StringEnd | ch17/src/lox/scanner.rs:219-226 | the string loop stops at the first `"` or the end, counting the newlines it crossed |
| CloxScanner.WordEnd | ch17/src/lox/scanner.rs:298-301 | consumes exactly the maximal run of letters, digits and `_` |
| CloxScanner.CheckKeyword | ch17/src/lox/scanner.rs:251-265 | the keyword iff the slice matches, else an identifier of the whole word; it never compares the word's length, and a slice past the end panics |
| CloxScanner.IdentifierType | ch17/src/lox/scanner.rs:267-297 | a result that is not a keyword is an identifier naming the whole word; a word whose first letter starts no keyword is always an identifier; `True` is never produced, because the `tr` branch gives `This` |
| CloxScanner.NumberEnd | ch17/src/lox/scanner.rs:235-249 | digits, plus `.` and digits only when a digit follows the dot |
| CloxScanner.ScanWord | ch17/src/lox/scanner.rs:298-304 | a word token ends where the alphanumeric run ends |
| CloxScanner.ScanString | ch17/src/lox/scanner.rs:219-233 | a string always yields a token, on the line where it ends |
| CloxScanner.ScanAt | ch17/src/lox/scanner.rs:101-127 | each token consumes input; only a word can panic |
| CloxScanner.ScanToken | ch17/src/lox/scanner.rs:93-128 | EOF exactly when only whitespace remains; otherwise a token that consumed input; lines never go down |
| CloxScanner.EofRepeats | ch17/src/lox/scanner.rs:93-99 | once EOF is returned, every further call returns EOF again |
| CloxScanner.OperatorMunch | ch17/src/lox/scanner.rs:117-124 | `!`, `=`, `<`, `>` followed by `=` give the two-character token, otherwise the one-character token |
| CloxScanner.StringToken | ch17/src/lox/scanner.rs:219-233 | a String token holds exactly the text between the quotes; reaching the end first gives "Unterminated string." |
| CloxScanner.NumberToken | ch17/src/lox/scanner.rs:235-249 | a Number token of the maximal `digits[.digits]` lexeme's value |
| CloxScanner.UnexpectedCharacter | ch17/src/lox/scanner.rs:101-127 | any other character yields "Unexpected character." after consuming exactly that character |
| CloxScanner.IdentifierToken | ch17/src/lox/scanner.rs:298-304 | an identifier token names exactly the maximal alphanumeric run |
| CloxScanner.WordSource | ch17/src/lox/scanner.rs:267-297 | scanning a lone word classifies it by `identifier_type` |
| CloxScanner.KeywordScans | ch17/src/lox/scanner.rs:267-297 | each of the fifteen tested keywords scans to its keyword token |
| CloxScanner.KeywordQuirks | ch17/src/lox/scanner.rs:286-292 | `true` scans as This, `andy` as And, a lone `a` panics, `foo_bar` is an identifier |
| CloxScanner.LoneLetterPanics | ch17/src/lox/scanner.rs:258 | the source `a` panics on the first scan |
| CloxScanner.StreamFrom | ch17/src/lox/scanner.rs:93-99 | the token stream ends in EOF or a panic |
| CloxScanner.TokenStream | ch17/src/lox/scanner.rs:84-99 | the whole source's stream ends in EOF or a panic |
| CloxScanner.StreamStep | ch17/src/lox/scanner.rs:93-128 | the stream is the first token followed by the stream of the rest |
| CloxScanner.StreamCons | ch17/src/lox/scanner.rs:93-128 | a non-EOF token scanned from a position heads the stream from there, followed by the stream from where it stopped |
| CloxScanner.StreamLast | ch17/src/lox/scanner.rs:93-128 | an EOF token scanned from a position is the whole stream from there |
| CloxScanner.SumSource | ch21/src/lox/compiler.rs:470-482 | the ch17 scanner turns the source text `1 + 2;` into Number 1, Plus, Number 2, Semicolon and EOF, all on line 1 |
| CloxScanner.StreamLines | ch17/src/lox/scanner.rs:164-169 | token lines never decrease along the stream |
| CloxScanner.LinesCons | ch17/src/lox/scanner.rs:164-169 | a token between the scanner's line and the next one's, put before an ordered rest, keeps the lines ordered |
| CloxChunk.NewChunk | ch17/src/lox/chunk.rs:30-37 | no instructions and no constants |
| CloxChunk.AddConstant | ch17/src/lox/chunk.rs:40-44 | returns the pool's previous length and appends the value there; instructions unchanged |
| CloxChunk.WriteChunk | ch17/src/lox/chunk.rs:46-48 | appends exactly one instruction with that code and line; constants unchanged |
| CloxChunk.LineColumn | ch17/src/lox/chunk.rs:71-75 | "   \| " exactly when the line repeats the previous instruction's, otherwise the line right-aligned in four columns and a space |
| CloxChunk.OpName | ch17/src/lox/chunk.rs:83-92 | each opcode's printed name starts with `OP_` and fits the sixteen-wide name column |
| CloxChunk.OpNameInjective | ch17/src/lox/chunk.rs:83-92 | two opcodes print the same name exactly when they are equal or both constants |
| CloxChunk.DisassembleInstruction | ch17/src/lox/chunk.rs:63-99 | for any chunk: the offset zero-padded to four digits, a space, the line column, then for a constant its name left-aligned in sixteen, its index right-aligned in four, a quote and the value, and for any other opcode its bare name, each ending in a line break; fails exactly on a constant index outside the pool |
| CloxChunk.Disassemble | ch17/src/lox/chunk.rs:50-61 | starts with the `== NAME ==` header |
| CloxChunk.EntriesSpec | ch17/src/lox/chunk.rs:50-61 | one entry per instruction in order; fails iff some entry does |
| CloxChunk.ExampleConstantEntry | ch17/src/lox/chunk.rs:113-127 | the test chunk's constant entry, piece by piece |
| CloxChunk.ExampleConstantHead | ch17/src/lox/chunk.rs:113-127 | the test's first entry starts `0000  123 ` |
| CloxChunk.ExampleConstantBody | ch17/src/lox/chunk.rs:113-127 | the test's first entry continues `OP_CONSTANT`, padded to sixteen, the index `   0` and the value `'1.2` |
| CloxChunk.ExampleReturnEntry | ch17/src/lox/chunk.rs:113-127 | the test chunk's return entry, with the repeated-line bar |
| CloxChunk.DisassemblyExample | ch17/src/lox/chunk.rs:113-127 | the test chunk disassembles to the expected text |
| CloxCompiler.Level | ch21/src/lox/compiler.rs:34-36 | the eleven levels are 0 to 10, with 0 only for None |
| CloxCompiler.FromValue | ch21/src/lox/compiler.rs:38-53 | inverts `value` on 0..10 and gives None above 10 |
| CloxCompiler.LevelRoundTrip | ch21/src/lox/compiler.rs:33-53 | `from_value(p.value()) == p` for every level |
| CloxCompiler.AddLevel | ch21/src/lox/compiler.rs:55-57 | adds to the value, falling back to None past Primary |
| CloxCompiler.GetRule | ch21/src/lox/compiler.rs:271-301 | exactly the binary operators have an infix rule and a precedence; the prefix rules by token; EOF has no rule |
| CloxCompiler.OperatorLevels | ch21/src/lox/compiler.rs:276-293 | `*` `/` bind tighter than `+` `-`, which bind tighter than comparisons; `==` sits with the comparisons, above `!=` |
| CloxCompiler.BinaryCodeShape | ch21/src/lox/compiler.rs:195-207 | `!=`, `>=`, `<=` emit two opcodes ending in Not; every other operator emits one |
| CloxCompiler.NextToken | ch17/src/lox/scanner.rs:93-99 | the next token of the stream, repeating EOF, or a panic at the stream's end |
| CloxCompiler.Start | ch21/src/lox/compiler.rs:106-114 | a new parser: no token taken, no previous or current token, an empty chunk, the given interner |
| CloxCompilerFacts.StartAdvance | ch21/src/lox/compiler.rs:79-83 | the first `advance` from a new parser makes the stream's first token current, with no previous token, an empty chunk and the given interner; it panics only when the stream panics before any token |
| CloxCompiler.Check | ch21/src/lox/compiler.rs:138-140 | the current token has exactly this type, payload included |
| CloxCompilerFacts.CheckExactlyOne | ch21/src/lox/compiler.rs:138-140 | `check` holds for the current token's own type and no other, so an identifier with a non-empty name never checks as `Identifier("")` |
| CloxCompiler.Advance | ch21/src/lox/compiler.rs:116-127 | the current token becomes previous and the next is scanned; an error token fails at the current token with its message |
| CloxCompiler.AdvanceProgress | ch21/src/lox/compiler.rs:116-127 | before EOF, advancing consumes one token of the stream |
| CloxCompiler.Consume | ch21/src/lox/compiler.rs:129-136 | advances iff the current token has the kind, else fails at the current token with the message |
| CloxCompiler.Emit | ch21/src/lox/compiler.rs:385-388 | appends one instruction on the previous token's line |
| CloxCompiler.EmitAll | ch21/src/lox/compiler.rs:390-394 | appends the opcodes in order, each on the previous token's line |
| CloxCompiler.EmitGrows | ch21/src/lox/compiler.rs:385-388 | the emitted opcode ends the code |
| CloxCompiler.EmitAllGrows | ch21/src/lox/compiler.rs:390-394 | the emitted opcodes end the code |
| CloxCompiler.EmitConstant | ch21/src/lox/compiler.rs:404-412 | appends the value to the pool and a Constant naming its index |
| CloxCompiler.StringLiteral | ch21/src/lox/compiler.rs:155-164 | code, constants and interned strings only grow, and a string literal adds exactly one instruction |
| CloxCompilerFacts.StringLiteralInterns | ch21/src/lox/compiler.rs:155-164 | a string literal's text is interned, its symbol appended to the pool as a `String` constant and a `Constant` naming that slot emitted on the literal's line; any other token changes nothing |
| CloxCompiler.NumberLiteral | ch21/src/lox/compiler.rs:166-172 | a number becomes the next constant and a Constant instruction; anything else fails with "Expected number." |
| CloxCompiler.Literal | ch21/src/lox/compiler.rs:212-221 | `true`, `false` and `nil` emit True, False and Nil |
| CloxCompiler.ParsePrecedence | ch21/src/lox/compiler.rs:223-248 | on success code was emitted and the next token binds looser than the target level |
| CloxCompilerFacts.NoPrefixFails | ch21/src/lox/compiler.rs:223-232 | a token without a prefix rule fails with "Expect expression." at that token |
| CloxCompiler.InfixLoop | ch21/src/lox/compiler.rs:234-245 | the loop runs while the target level is at most the next token's, and does nothing when it is above |
| CloxCompiler.Apply | ch21/src/lox/compiler.rs:229-244 | a successful parse function emits code |
| CloxCompiler.Operand | ch21/src/lox/compiler.rs:155-221 | a literal operand emits code |
| CloxCompiler.Grouping | ch21/src/lox/compiler.rs:150-153 | an expression, then the closing parenthesis |
| CloxCompiler.Unary | ch21/src/lox/compiler.rs:174-188 | the operand's code, then the operator's (postfix order) |
| CloxCompiler.Binary | ch21/src/lox/compiler.rs:190-210 | the right operand's code, then the operator's opcodes; the right side stops before operators of the same level (left associativity) |
| CloxCompiler.Expression | ch21/src/lox/compiler.rs:303-305 | emits code and stops at a token with no precedence |
| CloxCompiler.ClosedStatement | ch21/src/lox/compiler.rs:325-337 | an expression, a `;`, then the closing opcode |
| CloxCompiler.Statement | ch21/src/lox/compiler.rs:377-383 | a print statement ends in Print, an expression statement in Pop |
| CloxCompiler.Initializer | ch21/src/lox/compiler.rs:310-314 | without `=`, a Nil is emitted |
| CloxCompiler.DefineVariable | ch21/src/lox/compiler.rs:267-269 | ends the code with DefineGlobal of the given number |
| CloxCompiler.ParseVariable | ch21/src/lox/compiler.rs:261-265 | fails with "Expect variable name." unless the current token equals `Identifier("")`; the number is the interner symbol |
| CloxCompiler.VarDeclaration | ch21/src/lox/compiler.rs:307-323 | the same rejection, and on success the code ends with DefineGlobal of the interner symbol |
| CloxCompiler.Synchronize | ch21/src/lox/compiler.rs:339-360 | stops at EOF, after a `;` or before a statement keyword, skipping no such point |
| CloxCompiler.Recover | ch21/src/lox/compiler.rs:368-374 | after an error the declaration still fails, after synchronizing |
| CloxCompiler.Declaration | ch21/src/lox/compiler.rs:362-375 | a successful declaration emits code |
| CloxCompiler.Compile | ch21/src/lox/compiler.rs:79-97 | never finishes exactly when the first token is EOF; a chunk ends in Return and its constants are in range |
| CloxCompiler.SynchronizeSucceeds | ch21/src/lox/compiler.rs:339-360 | on a stream without error tokens synchronizing always succeeds |
| CloxCompiler.VarNeedsEmptyName | ch21/src/lox/compiler.rs:261-265 | `var x` with a non-empty name is rejected with "Expect variable name." |
| CloxCompiler.PrefixThenInfix | ch21/src/lox/compiler.rs:223-248 | the prefix parse hands over to the infix loop |
| CloxCompiler.OneInfixStep | ch21/src/lox/compiler.rs:234-245 | one infix step ends the loop when the next token binds looser |
| CloxCompiler.CompileOneDeclaration | ch21/src/lox/compiler.rs:79-97 | the chunk is the first declaration's code followed by Return |
| CloxCompiler.SumFirstNumber | ch21/src/lox/compiler.rs:470-482 | `1` of `1 + 2;` is constant 0 |
| CloxCompiler.SumSecondNumber | ch21/src/lox/compiler.rs:470-482 | `2` is constant 1 |
| CloxCompiler.SumRightOperand | ch21/src/lox/compiler.rs:470-482 | the right operand is parsed at Factor |
| CloxCompiler.SumBinary | ch21/src/lox/compiler.rs:470-482 | `+ 2` emits the operand and Add |
| CloxCompiler.SumOperator | ch21/src/lox/compiler.rs:470-482 | the infix loop takes `+ 2` and stops at `;` |
| CloxCompiler.SumExpression | ch21/src/lox/compiler.rs:470-482 | `1 + 2` compiles to Constant 0, Constant 1, Add |
| CloxCompiler.SumStatement | ch21/src/lox/compiler.rs:470-482 | the statement adds Pop |
| CloxCompiler.SumDeclaration | ch21/src/lox/compiler.rs:470-482 | the statement is the first declaration |
| CloxCompiler.CompileSum | ch21/src/lox/compiler.rs:470-482 | the tokens of `1 + 2;` compile to Constant 0, Constant 1, Add, Pop, Return on line 1 with constants 1 and 2 |
| CloxCompilerFacts.CompileSumSource | ch21/src/lox/compiler.rs:79-81 | `compile` on the source text `1 + 2;`, scanned by the ch17 scanner and then compiled, gives that chunk |
| CloxValue.IsNumber | ch20/src/lox/value.rs:14-19 | a pure tag test for Number |
| CloxValue.IsString | ch20/src/lox/value.rs:28-33 | a pure tag test for String |
| CloxValue.AsNumber | ch20/src/lox/value.rs:21-26 | the number, or "Operands must be numbers." |
| CloxValue.AsString | ch20/src/lox/value.rs:35-40 | the symbol, or "Operands must be strings." |
| CloxValue.IsFalsey | ch20/src/lox/value.rs:42-48 | true exactly for Nil and Bool(false) |
| CloxValue.Display | ch20/src/lox/value.rs:51-60 | booleans and nil by name, a string by its symbol number |
| CloxValue.StringEquality | ch20/src/lox/value.rs:5-11 | two interned strings are equal values iff they are the same text |
| CloxInterner.Intern | ch21/src/lox/interner.rs:14-25 | a known string returns its symbol and changes nothing; a new one gets the previous count as its symbol |
| CloxInterner.Lookup | ch21/src/lox/interner.rs:28-30 | the string of a symbol below the count; any other symbol panics |
| CloxInterner.EmptyValid | ch21/src/lox/interner.rs:8-12 | the empty interner is consistent |
| CloxInterner.InternValid | ch21/src/lox/interner.rs:14-25 | interning keeps the interner consistent, and `lookup(intern(s)) == s` |
| CloxInterner.InternIdempotent | ch21/src/lox/interner.rs:14-19 | interning the same string twice returns the same symbol and state |
| CloxInterner.InternDistinct | ch21/src/lox/interner.rs:20-24 | distinct strings receive distinct symbols |
| CloxInterner.InternerScenario | ch21/src/lox/interner.rs:37-46 | the test's two strings get the same symbol when repeated, distinct symbols otherwise, and look up to themselves |
| CloxFnv.Default | ch21/src/lox/fnv.rs:6-10 | the state starts at the offset basis |
| CloxFnv.Finish | ch21/src/lox/fnv.rs:13-15 | returns the state without changing it |
| CloxFnv.Write | ch21/src/lox/fnv.rs:17-26 | the loop XORs in each byte and then multiplies by the prime modulo 2^64; an empty slice changes nothing |
| CloxFnv.AbsorbAppend | ch21/src/lox/fnv.rs:17-26 | writing `a` then `b` equals writing `a ++ b` |
| CloxFnv.TestVectors | ch21/src/lox/fnv.rs:41-47 | "hello" and "hello world" hash to the test's values |
| CloxVm.PushAfter | ch20/src/lox/vm.rs:190-193 | a push past 256 values panics; otherwise the popped operands are replaced by the value |
| CloxVm.LoadOp | ch20/src/lox/vm.rs:110-123 | Constant, Nil, True and False push their value; a full stack or an index outside the pool panics |
| CloxVm.EqualOp | ch20/src/lox/vm.rs:116-120 | pops two values and pushes whether they are equal |
| CloxVm.NotOp | ch20/src/lox/vm.rs:143-146 | pops a value and pushes whether it is falsey |
| CloxVm.NumericResult | ch20/src/lox/vm.rs:121-141 | only division by zero has no real result |
| CloxVm.BinaryOp | ch20/src/lox/vm.rs:42-53 | pops b then a and pushes `a op b` (a comparison or an arithmetic result) in their place; non-numbers give "Operands must be numbers."; division by a zero number alone leaves the reals; the values below are untouched |
| CloxVm.Concatenate | ch20/src/lox/vm.rs:160-169 | the joined text is interned, and the result looks up to the concatenation |
| CloxVm.AddOp | ch20/src/lox/vm.rs:124-138 | two numbers push their sum; two strings push a symbol whose text is the concatenation of both texts, and panic exactly when a symbol is unknown; anything else is "Operands must be numbers or strings." |
| CloxVm.NegateOp | ch20/src/lox/vm.rs:31-41 | non-numbers give "Operand must be number.", otherwise the negation replaces the top |
| CloxVm.ReturnOp | ch20/src/lox/vm.rs:147-155 | ends the run with the top value's text: the interned text for a string, `Display` for any other value; an empty stack or an unknown symbol panics |
| CloxVm.Step | ch20/src/lox/vm.rs:110-155 | a continuing step is supported, not Return, and has exactly its stack effect; an operand shortage or overflow panics; Pop, Print and DefineGlobal are unsupported; only Return halts with a value, and every error it raises is a runtime error |
| CloxVm.Exec | ch20/src/lox/vm.rs:86-158 | a run always ends; it returns a value only by reaching a `Return` at or after the current instruction, and every error it reports is a runtime error |
| CloxVm.Run | ch20/src/lox/vm.rs:68-87 | `run` after `reset_stack`: an empty chunk panics at once, a value is returned only by a chunk holding a `Return`, and every error is a runtime error |
| CloxVm.SumLoads | ch20/src/lox/vm.rs:110-113 | the two constants of the compiled `1 + 2;` load in order |
| CloxVm.SumAdds | ch20/src/lox/vm.rs:124-138 | `Add` on 1 and 2 leaves 3 |
| CloxVm.InterpretSumStops | ch20/src/lox/vm.rs:73-84 | `interpret` over the chunk the ch21 compiler makes from the ch17 scanner's tokens for the source text `1 + 2;` stops on its `Pop`, which this VM has no case for |
| CloxVm.ExecStopsAt | ch20/src/lox/vm.rs:86-158 | a run that meets an unsupported opcode with no Return before it ends on an unsupported opcode, a runtime error, a panic or a division by zero, never with a value |
| CloxVm.FormatErr | ch20/src/lox/vm.rs:171-188 | "[line N] Error at end: MSG" for an EOF token, "Error: MSG" without a token, always ending in ": MSG" |
| CloxVm.Interpret | ch20/src/lox/vm.rs:73-84 | a rejected compilation is a compile error carrying `format_err`'s text; the run diverges exactly when the compilation never finishes; a compiler panic is a panic |
| CloxVm.StepNoPanic | ch20/src/lox/vm.rs:110-155 | no instruction of a stack-safe chunk panics |
| CloxVm.StepTopKnown | ch20/src/lox/vm.rs:110-155 | a pushed string is one the interner knows |
| CloxVm.SuccessorSafe | ch20/src/lox/vm.rs:110-155 | safety passes to the next state |
| CloxVm.StepStaysSafe | ch20/src/lox/vm.rs:110-155 | a continuing step of a safe state lands in a safe state |
| CloxVm.ExecSafe | ch20/src/lox/vm.rs:86-158 | a run from a safe state never panics |
| CloxVm.RunSafe | ch20/src/lox/vm.rs:68-87 | a stack-safe chunk whose strings the interner knows runs without a panic |
| CloxVm.CodeChunk | ch20/src/lox/vm.rs:222-227 | the chunk behind a one-operator test: exactly the operator's opcodes, in order, followed by Return, with an empty pool |
| CloxVm.ExecContinues | ch20/src/lox/vm.rs:86-158 | a continuing step hands the run over to the next state |
| CloxVm.ExecReturns | ch20/src/lox/vm.rs:147-155 | Return renders a non-string top value |
| CloxVm.PlainComparison | ch20/src/lox/vm.rs:116-141 | `==`, `>` and `<` compute their comparison |
| CloxVm.NumericStep | ch20/src/lox/vm.rs:121-141 | a numeric opcode on two numbers pushes its result |
| CloxVm.NotStep | ch20/src/lox/vm.rs:143-146 | Not replaces the top by whether it is falsey |
| CloxVm.NotReturns | ch20/src/lox/vm.rs:143-155 | Not then Return renders the negated truthiness |
| CloxVm.NegatedComparison | ch20/src/lox/vm.rs:334-351 | `!=`, `>=` and `<=` compiled as the opposite test and Not compute their comparison |
| CloxVm.ComparisonCode | ch20/src/lox/vm.rs:334-351 | the code compiled for every comparison operator computes that comparison on two numbers |
| CloxVm.AdditionCode | ch20/src/lox/vm.rs:124-138 | the code for `+` on two numbers returns their sum |
| CloxVm.NumericCode | ch20/src/lox/vm.rs:121-141 | the code for `-`, `*` and `/` returns the result, division by zero aside |
| CloxVm.ArithmeticCode | ch20/src/lox/vm.rs:121-141 | the code compiled for every arithmetic operator computes it on two numbers |
| CloxVm.EqualStep | ch20/src/lox/vm.rs:116-120 | Equal replaces the top two values by whether they are equal |
| CloxVm.EqualEqualCode | ch20/src/lox/vm.rs:334-351 | the code for `==` compares any two values |
| CloxVm.BangEqualCode | ch20/src/lox/vm.rs:334-351 | the code for `!=` is the negated comparison |
| CloxVm.EqualityCode | ch20/src/lox/vm.rs:334-351 | the code compiled for `==` and `!=` compares any two values, strings by symbol |
| CloxVm.NegateExample | ch20/src/lox/vm.rs:229-242 | negating 1.2 returns -1.2 |
| CloxVm.CalculateExample | ch20/src/lox/vm.rs:244-267 | (1.2 + 3.4) / 5.6, exactly |
| CloxVm.AddNonNumbersExample | ch20/src/lox/vm.rs:269-289 | adding a number and a boolean fails with "Operands must be numbers or strings." |
| CloxVm.NegateNilExample | ch20/src/lox/vm.rs:291-307 | negating nil fails with "Operand must be number." |
| CloxVm.AddStringsStep | ch20/src/lox/vm.rs:124-138 | Add on two strings pushes the interned concatenation |
| CloxVm.AppendLoads | ch20/src/lox/vm.rs:372-380 | the test's first two loads |
| CloxVm.ConcatenateFirst | ch20/src/lox/vm.rs:372-380 | `st` + `ri` interns `stri` as symbol 3 |
| CloxVm.AppendFirst | ch20/src/lox/vm.rs:372-380 | the first Add of the test |
| CloxVm.ConcatenateSecond | ch20/src/lox/vm.rs:372-380 | `stri` + `ng` interns `string` as symbol 4 |
| CloxVm.AppendSecond | ch20/src/lox/vm.rs:372-380 | the second Add of the test |
| CloxVm.AppendReturn | ch20/src/lox/vm.rs:372-380 | Return renders symbol 4 as `string` |
| CloxVm.AppendStringsExample | ch20/src/lox/vm.rs:372-380 | appending three interned strings returns "string" and interns the two joins |

## Left out

- Command line, REPL, file reading and exit codes of both programs: these are input/output plumbing. The runs return their outcome as a value, and printed lines are collected in a sequence.
- Writing to standard error (`Lox.report`, `runtime_error`): an error is kept as a value holding its token and message, not as rendered text.
- The native `clock` function: it reads the wall clock.
- VM debug tracing and the environment variable that switches it on: these are side-effecting diagnostics.
- Float parsing and rendering (`to_f`, `parse::<f64>`, float `to_s` and `Display`): numbers are exact reals. A lexeme's value is its exact decimal value, and rendering is the `numText` parameter.
- IEEE infinities and NaN: division by zero ends the run in an outcome of its own, `NonFinite` or `NonFiniteNumber`, instead of producing a value.
- The Rust `Debug` text of a token in compile-error messages: it is the `debug` parameter of `CloxVm.FormatErr`.
- `Rc<RefCell<Interner>>` sharing: the interner is threaded as a value.
- Non-ASCII source text for the Rust scanner: its mix of character indexing and byte slicing is not modelled, so characters are taken one index each.
- The tree-walker runs with fuel: each evaluation and execution step consumes one unit, and running out is the `OutOfFuel` outcome. A program that loops forever is not distinguished from one that needs more fuel than given.
- The ch12 class statement builds its class without a superclass. `super` evaluation and the ch13 interpreter and parser are not part of this model; only the resolver side of `super` is.
- `RloxScanner.NumberToken`: the source's NUMBER token carries its float value as its text, since `add_token` prefers the literal; the model keeps the digits as the lexeme, because no modelled caller reads a number token's text.
- `RloxParser.Block`: a nested declaration that failed to parse is left out of the block's statement list, where the Ruby code appends nil. The failure has reported an error (`RloxParser.Declaration` states this), and `Lox.run` stops after parsing when an error was reported (ch13/lox.rb:56), so no later phase ever sees that list.
- `RloxParser.Assignment`: the contract states precedence nesting, progress and error growth. It does not state the target rewriting (Variable becomes Assign, Get becomes Set, any other target reports "Invalid assignment target." and keeps the left expression), which the function body follows.
- `RloxParser.Arguments`: the report of more than 255 arguments is in the body; the contract states only the nesting and progress.
- `RloxResolver.ResolveExpr`: the contract states what is preserved and that depths and errors only grow, not each visit's individual effect.
- `RloxInterpreter.ExecWhile`: the contract states the exit on a falsy condition, not the iteration, which the body follows under fuel.
- `CloxCompiler.StringLiteral`: its own contract states only that the code, the pool and the interned strings grow and that one instruction is added. The interned symbol, the `String` constant and the `Constant` opcode are stated by `CloxCompilerFacts.StringLiteralInterns`. That lemma lives outside the compiler module because any further clause in that module's contracts pushes the verifier past its resource limit on unrelated members of the mutually recursive parser.
- `CloxCompiler.ParsePrecedence`: the "Expect expression." failure for a token without a prefix rule is stated by `CloxCompilerFacts.NoPrefixFails`, not by this contract, for the same reason.
- The ch21 compiler test `it_compiles_assignment` (compiler.rs:688-697) expects `var beverage = "cafe au lait";` to compile, but its `parse_variable` rejects any non-empty name. The model follows the code, as `CloxCompiler.VarNeedsEmptyName` states, and has no member for that test.
- The ch21 scanner, which ch21's `compile` builds (compiler.rs:3, 79-81), is not part of this model. The ch17 scanner `CloxScanner` stands in for it wherever the model compiles source text (`CloxScanner.SumSource`, `CloxCompilerFacts.CompileSumSource`, `CloxVm.InterpretSumStops`). The two differ on at least `true`: the ch17 scanner takes it for `This` (`CloxScanner.KeywordQuirks`), which has no prefix rule in the ch21 compiler (`CloxCompilerFacts.NoPrefixFails`), so the modelled pipeline rejects `true;` with "Expect expression." where ch21's tests `it_compiles_true`, `it_compiles_not` and `it_compiles_comparsion_operators` (compiler.rs:553-598) expect it to compile to True, Pop, Return. The source `1 + 2;` has no keyword, so the lemmas about it do not depend on the difference.
- The ch20 compiler (`compiler.rs` of that chapter) is not part of this model. The ch20 VM runs the ch21 compiler's chunks instead. Those always end in Pop, Print or DefineGlobal before the final Return, and ch20's VM has no case for those opcodes. So `CloxVm.Interpret` over a compiled chunk stops on an unsupported opcode unless an error comes first. `CloxVm.ExecStopsAt` states this for any chunk with no Return before such an opcode, and `CloxVm.InterpretSumStops` shows it for the source text `1 + 2;`. That the compiler never emits Return before the end is not stated as a lemma. The lemmas about the values the VM returns are stated over hand-built chunks (`CloxVm.CodeChunk`), as several of the source's VM tests build theirs.
- Earlier chapter snapshots (ch04–ch11 Ruby files superseded by the modelled ones, ch14–ch19 Rust files): these are replaced by the later versions modelled here.
- AST printers, `generate_ast.rb` and the visitor modules: these are test oracles and code generators, which are replaced by Dafny datatypes and `match`.
