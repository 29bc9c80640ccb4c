# i_v: scanner, parser and register machine in Dafny

This project models the core of `i_v`, a small language toolchain written in
Rust, and proves properties of the model. It has three parts.

- **Scanner** (`src/compiler/mod.rs`, `src/compiler/token.rs`). It turns
  source text into tokens:
  - maximal-munch two-character operators
  - `//` comments that count a line
  - words classified by the keyword table
  - integer and float literals
  - unescaped string literals
- **Parser** (`src/compiler/parser.rs`). It is a single-pass recursive-descent
  parser over a token stream that is consumed from its end.
  - Four binary precedence levels fold left to right.
  - Each fold checks that both operands have the same static type.
  - Assignment is right-associative and binds the name in the root scope.
  - It also parses `var` and `fn` declarations, `print`, blocks, and the
    top-level loop that stops at the first failure.
  - The scope chain (`Environment`) holds its enclosing scope by value.
- **Virtual machine** (`src/vm.rs`, `src/instruction.rs`). It is a register
  machine with 32 `i32` registers and a byte program. It also has a heap that
  only grows or shrinks with zero bytes, the remainder of the last division,
  and an equality flag.
  - The machine decodes 21 opcodes.
  - It executes one instruction at a time, and `run` loops until an
    instruction reports that the machine stopped.

Files:

| file | module | contents |
|---|---|---|
| `wrappers.dfy` | `Wrappers` | `Option`, machine integer ranges |
| `tokens.dfy` | `Tokens` | `Token`, the keyword table `Lookup` and its inverse `Spelling` |
| `scanner.dfy` | `Scanning` | the scanner and its properties |
| `ast.dfy` | `Ast` | expressions, return types, `ReturnType::from`, the typing discipline |
| `environment.dfy` | `Environments` | scope chain: `define`, `assign_value`, `get_value` |
| `parser.dfy` | `Parsing` | every parser method, with framing and typing contracts |
| `parser_facts.dfy` | `ParserFacts` | behavioural lemmas about the parser |
| `instructions.dfy` | `Instructions` | `Opcode`, its byte code and mnemonic |
| `machine.dfy` | `Machine` | the virtual machine |
| `machine_facts.dfy` | `MachineFacts` | lemmas about the machine, and its behaviour on the source's test programs |

Modelling choices:

- **Panics.** In the parser and the machine, a Rust panic is an explicit
  outcome of the model rather than a precondition:
  - A parser rule that unwraps an empty token stream returns `Panic`, and
    `parse` then returns `Panicked`.
  - An instruction that indexes past the program or the register file, or
    that overflows or divides by zero, returns `Crashed`.
  - The scanner is the exception. It panics in two places: a string with no
    closing quote, and an integer literal that does not fit an `i32`. Both
    are excluded by the precondition `ScanSafe`, which names exactly those
    inputs.
- **The token stream.** It is a sequence whose last element is the next
  token, as in the source's `Vec::pop`.
- **Machine integers.** `i32` arithmetic is checked. An overflow is a panic,
  as in a debug build. Rust's `/` and `%` truncate toward zero; this is
  written out as `TruncDiv` and `TruncRem`. `as usize` of a negative `i32`
  sign-extends to a value just below 2^64.

Behaviour of the code worth knowing:

- **`parse_unary` discards its token.** It pops a token and, unless it is `!`
  or `-`, drops it and asks `parse_primary` for the next one
  (`ParserFacts.UnaryDiscardsNonOperator`).
  - So an expression statement loses its first token twice.
  - `parse` pops one token before calling `parse_expression_statement`, which
    pops another.
  - `1 + 2 * 3` therefore does not parse as a sum whose right operand is a
    product.
- **The fold loops always consume the token after an operand.** When that
  token is not an operator of the level, it is lost
  (`ParserFacts.FoldConsumesFollower`).
- **Assignment can never commit.** The left-hand side comes from the
  equality level. That level only builds literal, unary and binary nodes,
  never the binding node that assignment requires as its target. So a
  successful assignment is always just its left operand
  (`ParserFacts.AssignmentNeverCommits`). The binding code is still modelled
  in `Parsing.Commit`.
- **Unary nodes have an invalid type.** The type of a unary node is
  `ReturnType::from` of its operator token, and that is `ReturnInvalid`
  (`ParserFacts.UnaryTypeFromOperator`).
- **`fn name: void()` fails.** A `)` closing an empty argument list is an
  error; `void` must be written inside the parentheses. A header with
  arguments records `ReturnArguments` as its return type, not the declared
  one.
- **`var` requires an existing binding.** `var name = expr;` requires `name` to be
  bound already, and requires `expr` to have that binding's type.
- **A failed block keeps the declarations it has read.** `parse_declaration`
  pushes a `var` or `fn` statement onto the program as soon as it is read.
  When the enclosing block then fails, `parse` returns the program with that
  statement in it (`ParserFacts.BlockFailureKeepsDeclaration`,
  `ParserFacts.FailedBlockExample`). A block that succeeds therefore holds
  its declarations twice: once as statements of their own and once as
  members of the block.
- **Nested scopes are never created.** `new_sub` is never called by the
  parser, so every binding is in the root scope.
- **Ordering comparisons cast to `usize` before comparing.** GTE, LTE, LT and
  GT do this, so a negative value compares above every non-negative one
  (`MachineFacts.UnsignedOrder`).
- **JEQ with the flag clear reads no operand.** Its operand byte is then
  decoded as the next opcode (`MachineFacts.JumpIfEqualFallsThrough`).
- **ALOC adds to the heap length cast to `i32`.** A negative result panics in
  `resize`.

## Model

| member | source | states |
|---|---|---|
| Tokens.DefaultToken | src/compiler/token.rs:115-119 | The default token is `Illegal`, which is no keyword and which the keyword table never produces |
| Tokens.Lookup | src/compiler/token.rs:121-147 | A reserved word becomes the keyword token whose spelling it is; any other word becomes an identifier carrying exactly that text |
| Tokens.KeywordReserved | src/compiler/token.rs:121-147 | The keyword arms of the lookup are taken exactly for the 21 reserved words |
| Tokens.KeywordSpelled | src/compiler/token.rs:121-147 | Every keyword arm agrees with the independent spelling table |
| Tokens.LookupSpellingRoundTrip | src/compiler/token.rs:121-147 | Lookup and spelling are inverse on keyword tokens and reserved words |
| Tokens.LookupInjectiveOnReserved | src/compiler/token.rs:121-147 | Two different reserved words never give the same token |
| Tokens.LookupExamples | src/compiler/token.rs:149-152 | `fn` is the function keyword; matching is case-sensitive, so `Fn` and `PRINT` are identifiers; `true` and `false` are boolean literals |
| Scanning.NewScanner | src/compiler/mod.rs:20-25 | A new scanner is at the start of its input, on line 0 |
| Scanning.SkipWhitespace | src/compiler/mod.rs:63-73 | Skips exactly the maximal whitespace run, leaves the source unchanged, stops at a non-whitespace character or the end, and adds the number of line breaks in the skipped text to the line counter |
| Scanning.SkipComment | src/compiler/mod.rs:42-61 | Consumes through the first line break, or to the end of input when there is none, and counts exactly one line either way |
| Scanning.RunEnd | src/compiler/mod.rs:75-98 | The end of the maximal run of word characters or digits: every character before it is in the class and the one at it is not |
| Scanning.ReadWord | src/compiler/mod.rs:89-98 | The word is the first character followed by the maximal run of letters, `_` and digits, and the scanner stops right after it |
| Scanning.ReadNumber | src/compiler/mod.rs:100-119 | A digit run followed by `.` takes the dot and the next digit run as a float lexeme; otherwise the run is an integer literal of its decimal value |
| Scanning.QuoteAt | src/compiler/mod.rs:121-137 | The position of the first `"` at or after a given index |
| Scanning.ReadString | src/compiler/mod.rs:121-137 | The literal is the text up to the next quote, which is consumed and not included, so the literal contains no quote; lines inside are not counted |
| Scanning.ScanAt | src/compiler/mod.rs:151-267 | Reading a token from a character always advances, keeps the source, and changes the line counter only for a comment, by one |
| Scanning.Symbol | src/compiler/mod.rs:156-251 | The operator and punctuation arms never move backwards and count a line only for a comment |
| Scanning.NextToken | src/compiler/mod.rs:151-267 | After skipping whitespace, a token other than end of input consumes at least one character, and only a comment counts a further line |
| Scanning.EofExactlyAtEnd | src/compiler/mod.rs:151-267 | The next token is end of input if and only if only whitespace remains |
| Scanning.NeverEof | src/compiler/mod.rs:151-267 | A token read from a character is never end of input, not even a word |
| Scanning.TwoCharacterOperator | src/compiler/mod.rs:159-251 | Each of the nine two-character operators, per the independent pair table, is read as one token and consumes both characters |
| Scanning.OneCharacterToken | src/compiler/mod.rs:156-251 | A one-character token that does not start a two-character operator or a comment is read alone and the following character is left unread |
| Scanning.CommentToEndOfLine | src/compiler/mod.rs:159-167 | `//` yields a comment token and the scanner continues after the rest of the line |
| Scanning.WordToken | src/compiler/mod.rs:252-256 | A letter starts a word spanning the maximal run of word characters, classified by the keyword table |
| Scanning.IntegerToken | src/compiler/mod.rs:100-119 | A digit run not followed by `.` is an integer literal whose value is the decimal value of the run, and the scanner stops right after it |
| Scanning.FloatToken | src/compiler/mod.rs:100-119 | A digit run followed by `.` is a float literal whose lexeme runs through the digits after the dot |
| Scanning.IllegalCharacter | src/compiler/mod.rs:257-261 | A character that starts no token is read as `Illegal` and consumed alone |
| Scanning.StringRoundTrip | src/compiler/mod.rs:121-137 | Any text without quotes, quoted and followed by anything, scans back as a string literal of exactly that text, ending after the closing quote |
| Scanning.SkipWhitespaceExample | src/compiler/mod.rs:320-330 | After `skip(4)` on "ab12\na 123", skipping whitespace stops before the second `a` with one line counted |
| Ast.FromToken | src/compiler/parser.rs:172-188 | The type a token denotes; its contract is carried by Ast.DeclaredTypesRoundTrip, Ast.LiteralsTypedAsDeclared and Ast.InvalidExactlyWhenUntyped |
| Ast.LiteralsTypedAsDeclared | src/compiler/parser.rs:172-188 | Each class of literal has the same type as its declaration keyword: booleans, integers, strings and floats |
| Ast.DeclaredTypesRoundTrip | src/compiler/parser.rs:172-188 | Every value type with a declaration keyword is reached back from that keyword |
| Ast.InvalidExactlyWhenUntyped | src/compiler/parser.rs:172-188 | A token maps to the invalid type if and only if it is not a type keyword, a literal, `,`, `)` or end of input; those three map to Continue, Arguments and EOF |
| Environments.NewEnv | src/compiler/parser.rs:69-75 | A root scope is a single empty table, so every lookup fails |
| Environments.NewSub | src/compiler/parser.rs:77-83 | A nested scope is an empty table in front of the outer chain, and every lookup through it gives what the outer scope gives |
| Environments.GetValue | src/compiler/parser.rs:126-136 | Lookup through the chain; its contract is carried by Environments.GetValueBound, Environments.GetValueNearest and Environments.TypedLookup |
| Environments.AssignValue | src/compiler/parser.rs:102-124 | Assignment through the chain; its contract is carried by Environments.AssignValueUnbound, Environments.AssignValueNearest and Environments.AssignThenGet |
| Environments.Frames | src/compiler/parser.rs:60-66 | The tables of a scope chain, innermost first, one per scope |
| Environments.Define | src/compiler/parser.rs:85-100 | Fails, changing nothing, exactly when this table already binds the name; otherwise adds the binding, keeps every other one, bumps the counter, returns a binding node with the new id, and lookup then finds the value |
| Environments.GetValueBound | src/compiler/parser.rs:126-136 | Lookup succeeds if and only if some table of the chain binds the name |
| Environments.GetValueNearest | src/compiler/parser.rs:126-136 | A successful lookup returns the binding of the innermost table that has the name |
| Environments.AssignValueUnbound | src/compiler/parser.rs:102-124 | Assigning a name no table binds fails with "Variable not defined" and changes nothing |
| Environments.AssignValueNearest | src/compiler/parser.rs:102-124 | Assignment rewrites the binding of the innermost table that has the name, bumps only that table's counter, returns a node with that counter, and leaves every other table as it was |
| Environments.AssignThenGet | src/compiler/parser.rs:102-136 | After an assignment, lookup of that name gives the new value and lookup of any other name is unchanged |
| Environments.FreshScopeShadows | src/compiler/parser.rs:77-100 | A fresh nested scope may bind a name its enclosing scope binds; the new binding hides the outer one, and the enclosing scope is kept |
| Environments.SnapshotIsolation | src/compiler/parser.rs:77-136 | A nested scope holds a copy: a binding added to the outer scope afterwards is not visible through a nested scope made before |
| Environments.TypedLookup | src/compiler/parser.rs:126-136 | In a chain whose bindings are all well typed, lookup returns a well-typed expression |
| Parsing.Advance | src/compiler/parser.rs:264-277 | Consuming a token shortens the stream by exactly the last element and changes nothing else |
| Parsing.ParsePrimary | src/compiler/parser.rs:279-315 | A primary only consumes tokens, pushes no statement, takes fresh node ids, keeps every binding, and a success is well typed |
| Parsing.ParseUnary | src/compiler/parser.rs:317-343 | The same framing and typing for unary expressions, including the discarded leading token |
| Parsing.Operand | src/compiler/parser.rs:345-541 | Each level's operand rule keeps the same framing and typing |
| Parsing.ParseLevel | src/compiler/parser.rs:345-541 | Each of the four binary levels only consumes tokens, pushes nothing, keeps bindings, and returns a well-typed tree |
| Parsing.FoldLoop | src/compiler/parser.rs:345-541 | The fold loop keeps the framing, and a fold of a well-typed operand is well typed: both operands of every binary node have the node's type |
| Parsing.ParseAssignment | src/compiler/parser.rs:543-593 | Assignment keeps the framing, its success is well typed, and a well-typed scope stays well typed |
| Parsing.Commit | src/compiler/parser.rs:558-582 | Succeeds if and only if the types agree, the target is a binding node and the root scope does not bind its name yet; fails with "Mismatched types" or "Invalid assignment target" otherwise; on success the name is bound to the assignment node |
| Parsing.ParseExpression | src/compiler/parser.rs:844-849 | An empty stream or end of input fails with "Unexpected EOF" and consumes nothing; otherwise the assignment rule's framing and typing hold |
| Parsing.ArgLoop | src/compiler/parser.rs:613-668 | The argument list leaves the program unchanged; a header it builds keeps the arguments read so far, gives every new argument a value type, and records Arguments as its type exactly when it has arguments |
| Parsing.ParseFunctionHeader | src/compiler/parser.rs:595-680 | A successful header is named by the identifier after `fn`, starts with no arguments, and never has the invalid type; the program is unchanged |
| Parsing.ParseVarDecl | src/compiler/parser.rs:682-724 | A `var` statement succeeds only for a name already bound, and has that binding's type; the result is well typed |
| Parsing.ParsePrint | src/compiler/parser.rs:726-740 | Consumes one token and succeeds if and only if it is a string literal, giving a print node of string type with that text |
| Parsing.ParseStatement | src/compiler/parser.rs:831-842 | An expression statement keeps the expression framing and typing |
| Parsing.ParseDeclaration | src/compiler/parser.rs:742-781 | Always consumes a token, keeps earlier statements and bindings, returns a well-typed statement, and keeps a well-typed program well typed |
| Parsing.ParseExpressionStatement | src/compiler/parser.rs:783-829 | The same for `print`, blocks and expression statements |
| Parsing.BlockLoop | src/compiler/parser.rs:789-824 | A block has the block type and keeps the members read so far, each new member is well typed, and a well-typed program stays well typed |
| Parsing.PushKeepsProgram | src/compiler/parser.rs:851-858 | Appending a statement keeps the earlier ones, and appending a well-typed one keeps a well-typed program well typed |
| Parsing.ParseLoop | src/compiler/parser.rs:860-905 | The top-level loop never drops or rewrites a statement already in the program and keeps a well-typed program well typed |
| Parsing.Parse | src/compiler/parser.rs:860-905 | Whatever program the parse returns, complete or partial, all its statements and bindings are well typed |
| ParserFacts.PrimaryInert | src/compiler/parser.rs:279-315 | A primary never changes the scope |
| ParserFacts.UnaryInert | src/compiler/parser.rs:317-343 | A unary expression never changes the scope |
| ParserFacts.OperandInert | src/compiler/parser.rs:345-541 | No operand rule changes the scope |
| ParserFacts.LevelInert | src/compiler/parser.rs:345-541 | No binary level changes the scope |
| ParserFacts.FoldInert | src/compiler/parser.rs:345-541 | A fold loop started from a non-binding operand never changes the scope |
| ParserFacts.AssignmentInert | src/compiler/parser.rs:543-593 | Assignment never changes the scope |
| ParserFacts.ExpressionInert | src/compiler/parser.rs:844-849 | An expression never changes the scope |
| ParserFacts.AssignmentNeverCommits | src/compiler/parser.rs:543-593 | A successful assignment is exactly its equality-level operand, and the scope is unchanged |
| ParserFacts.FoldRejectsMismatch | src/compiler/parser.rs:345-391 | An operator whose right operand has another type fails with "Comparing different return types!" |
| ParserFacts.FoldAcceptsMatch | src/compiler/parser.rs:345-391 | An operator with a right operand of the same type folds into a binary node with a fresh id and that type, and the loop continues |
| ParserFacts.FoldConsumesFollower | src/compiler/parser.rs:345-391 | A token that is not an operator of the level ends the fold and is consumed |
| ParserFacts.UnaryDiscardsNonOperator | src/compiler/parser.rs:317-343 | A first token other than `!` or `-` is dropped and the primary is read from the next token |
| ParserFacts.UnaryTypeFromOperator | src/compiler/parser.rs:317-343 | A successful unary node records its operator and has the invalid type |
| ParserFacts.AssignmentPeeks | src/compiler/parser.rs:543-593 | When no `=` follows the left operand, assignment returns it and consumes nothing more |
| ParserFacts.VarNeedsExistingBinding | src/compiler/parser.rs:682-724 | `var` on an unbound name fails with "Variable not found" after consuming only the name |
| ParserFacts.BlockFailures | src/compiler/parser.rs:789-824 | A block fails with "Ran out of tokens" on an empty stream, with "Unexpected EOF" at end of input, and with the member's own failure |
| ParserFacts.ArgumentListShape | src/compiler/parser.rs:613-668 | `void` after arguments fails, and `)` closing an empty list fails with "Expected argument list" |
| ParserFacts.ArgumentsEndAtEof | src/compiler/parser.rs:613-668 | End of input inside an argument list fails with "Unexpected end of file" |
| ParserFacts.ArgumentsSkipComma | src/compiler/parser.rs:613-668 | A comma in an argument list is skipped |
| ParserFacts.ArgumentRecorded | src/compiler/parser.rs:633-643 | `type : name` records an argument whose type is the one the type token denotes and whose name is the identifier, and the loop continues after the three tokens |
| ParserFacts.ArgumentNeedsColonAndName | src/compiler/parser.rs:635-648 | A type not followed by `:` fails with "Expected ')' after arguments", and a `:` not followed by a name fails with "Expected argument name after ':'" |
| ParserFacts.ArgumentsClose | src/compiler/parser.rs:655-664 | `)` closing a non-empty list builds the header with exactly the arguments read, of type Arguments, under a fresh node id |
| ParserFacts.OneArgument | src/compiler/parser.rs:613-668 | `type : name )` builds a header with exactly that one argument |
| ParserFacts.HeaderStart | src/compiler/parser.rs:595-613 | `name : type (` after `fn`, with a valid type, starts the argument loop with no arguments, that name and that declared type |
| ParserFacts.ParseStopsAtFirstFailure | src/compiler/parser.rs:887-899 | A failing statement ends the parse, returning the program that statement left behind, which includes any declaration a failing block had already pushed |
| ParserFacts.BlockFailureKeepsDeclaration | src/compiler/parser.rs:742-824 | A `var` or `fn` member is pushed onto the program when read, so when the block then meets end of input it fails with "Unexpected EOF" and the declaration stays in the program |
| ParserFacts.FailedBlockKeepsDeclaration | src/compiler/parser.rs:742-905 | `; { fn f : int ( int : a )` followed by end of input ends the parse with the header of `f` appended to the program, although its block failed |
| ParserFacts.FailedBlockExample | src/compiler/parser.rs:860-905 | From a fresh parser, that token stream yields a program holding exactly the header of `f` |
| ParserFacts.ParseAppendsInOrder | src/compiler/parser.rs:887-899 | A successful statement is appended after everything before it, and the parse continues from there |
| ParserFacts.ParseIdentifierStatement | src/compiler/parser.rs:874-885 | A bare bound identifier appends a copy of its binding and continues; an unbound one ends the parse |
| ParserFacts.ParseEndsAtEof | src/compiler/parser.rs:864-872 | An empty stream or end of input ends the parse with the program unchanged |
| Instructions.FromByte | src/instruction.rs:31-57 | A byte decodes to the illegal opcode exactly when it is above 19; every other byte decodes to the opcode whose code it is |
| Instructions.CodeRoundTrip | src/instruction.rs:31-57 | Every opcode but the illegal one has a code, and decoding that code gives the opcode back |
| Instructions.FromByteInjective | src/instruction.rs:31-57 | Two bytes that decode to the same legal opcode are equal |
| Instructions.ToLower | src/instruction.rs:59-84 | Lower-casing keeps the length and lowers each character on its own |
| Instructions.ToLowerIdempotent | src/instruction.rs:59-84 | Lower-casing twice is lower-casing once |
| Instructions.MnemonicRoundTrip | src/instruction.rs:59-84 | Every mnemonic is lower case and reads back as its opcode |
| Instructions.MnemonicIgnoresCase | src/instruction.rs:59-84 | Mnemonic lookup does not depend on letter case |
| Instructions.FromMnemonic | src/instruction.rs:59-84 | Mnemonic decoding; its contract is carried by Instructions.MnemonicRoundTrip, Instructions.MnemonicExact and Instructions.MnemonicIgnoresCase |
| Instructions.LowerMnemonic | src/instruction.rs:61-82 | The arms of the mnemonic table on a lower-case name; its contract is carried by Instructions.MnemonicRoundTrip and Instructions.MnemonicExact |
| Instructions.MnemonicExact | src/instruction.rs:59-84 | A name is recognised if and only if its lower-case form is some opcode's mnemonic, and it is then that opcode; every other name is the illegal opcode |
| Instructions.MnemonicExamples | src/instruction.rs:110-114 | `HLT` and `Load` are recognised in any case; `lbl` is illegal |
| Machine.NewVM | src/vm.rs:14-23 | A new machine has 32 zero registers, an empty program and heap, counter 0, remainder 0 and a clear flag |
| Machine.AsUsize | src/vm.rs:126-136 | The `usize` cast sign-extends: it is the unique `usize` congruent to the value modulo 2^64, and it stays small exactly for non-negative values |
| Machine.AsU32 | src/vm.rs:114 | The `u32` cast keeps the low 32 bits |
| Machine.AsI32 | src/vm.rs:242 | The `i32` cast keeps the low 32 bits and is the identity on small values |
| Machine.Checked | src/vm.rs:86-115 | Checked `i32` arithmetic succeeds exactly within the `i32` range, with the exact value |
| Machine.TruncDiv | src/vm.rs:108-115 | Rust's `/` rounds toward zero: the magnitude of the quotient is the largest multiple count of the divisor's magnitude within the dividend's, and the quotient is positive only for equal signs and negative only for different signs |
| Machine.TruncRem | src/vm.rs:114 | The remainder is smaller than the divisor and has the dividend's sign |
| Machine.TruncDivision | src/vm.rs:108-115 | Quotient times divisor plus remainder is the dividend |
| Machine.Fetch | src/vm.rs:37-42 | Reading a byte succeeds exactly inside the program, gives the byte at the counter, and moves the counter by one |
| Machine.Join16 | src/vm.rs:44-51 | The 16-bit value has the first byte as its high byte and the second as its low byte |
| Machine.Fetch16 | src/vm.rs:44-51 | Reading two bytes succeeds exactly when both are inside the program, gives their big-endian value, and moves the counter by two |
| Machine.FetchRegister | src/vm.rs:87-88 | Reading a register operand succeeds exactly when the byte exists and names one of the 32 registers, and gives that register's value |
| Machine.Binary | src/vm.rs:86-115 | Arithmetic panics unless both source bytes name registers; otherwise it is the store step on those two values |
| Machine.StoreResult | src/vm.rs:86-115 | Succeeds exactly when the divisor is non-zero for DIV, the exact result fits `i32`, and the destination names a register; then only that register, the counter and, for DIV, the remainder change |
| Machine.Load | src/vm.rs:117-122 | LOAD succeeds exactly when its three bytes exist and the first names a register, which receives the big-endian 16-bit immediate |
| Machine.Compare | src/vm.rs:139-234 | The test each comparison opcode makes; its contract is carried by MachineFacts.UnsignedOrder, MachineFacts.NegativeComparesHigh and MachineFacts.ComparisonExamples |
| Machine.Comparison | src/vm.rs:139-234 | A comparison succeeds exactly when both operand bytes name registers; the flag becomes the test of their values and the counter skips three bytes |
| Machine.Target | src/vm.rs:124-181 | JMPF moves forward and JMPB back by the `usize` cast of the value, panicking outside `usize`; JNE with the flag set stays and with it clear goes to the cast value; JMP and JEQ go to the cast value |
| Machine.Jump | src/vm.rs:124-181 | JEQ with the flag clear changes nothing; any other jump succeeds exactly when its operand names a register and the target exists, and then changes only the counter |
| Machine.Allocate | src/vm.rs:239-247 | ALOC succeeds exactly when its operand names a register and the heap length cast to `i32` plus that value is a non-negative `i32`; that becomes the new length and three bytes are skipped |
| Machine.Execute | src/vm.rs:78-256 | No executed instruction stops the machine, changes the program, or breaks the register-file shape; NOP skips three bytes and changes nothing else |
| Machine.Step | src/vm.rs:73-256 | Past the end the machine stops without moving; it reports a stop exactly at the end or on HLT, LBL or an illegal byte, and then only the counter moves past the opcode |
| Machine.Loop | src/vm.rs:60-66 | A loop that halts leaves a valid machine with the same program; with no fuel it has not finished |
| Machine.Run | src/vm.rs:60-66 | A halted run keeps the program, and a machine already past the end halts at once, unchanged |
| Machine.RunOnce | src/vm.rs:69-71 | A single step fails exactly when the instruction panics, and otherwise keeps the program |
| MachineFacts.DivisionSigns | src/vm.rs:108-115 | Division rounds toward zero and the remainder follows the dividend's sign, for all four sign combinations |
| MachineFacts.UnsignedOrder | src/vm.rs:183-234 | Values of equal sign compare as integers, a negative value is above every non-negative one, and GTE, GT and LTE are the negation or mirror of LT |
| MachineFacts.StepExecutes | src/vm.rs:53-57 | An opcode that does not stop the machine is executed with the counter just past it |
| MachineFacts.StepFrame | src/vm.rs:78-256 | Only ALOC changes the heap, only DIV the remainder, only a comparison the flag, and only LOAD and arithmetic the registers |
| MachineFacts.LoopFuelMonotone | src/vm.rs:60-66 | A loop that finishes gives the same result with any larger fuel |
| MachineFacts.RunFuelMonotone | src/vm.rs:60-66 | A run that halts or panics does so the same way with any larger bound |
| MachineFacts.RunContinues | src/vm.rs:60-71 | `run` is `run_once` repeated: after an instruction that does not stop, the rest of the run is the run from the new state |
| MachineFacts.ArithmeticStep | src/vm.rs:86-115 | An arithmetic instruction whose two source bytes name registers stores the checked result of those registers' values |
| MachineFacts.ComparisonStep | src/vm.rs:139-234 | A comparison whose two source bytes name registers sets the flag to its test of them and moves four bytes on |
| MachineFacts.HaltExample | src/vm.rs:279-286 | HLT stops the machine after its opcode byte |
| MachineFacts.IllegalExample | src/vm.rs:289-296 | An illegal byte stops the machine after it |
| MachineFacts.LoadExample | src/vm.rs:299-306 | LOAD 0 with bytes 1 and 244 puts 500 into register 0 |
| MachineFacts.AddExample | src/vm.rs:309-316 | 5 + 10 stores 15 |
| MachineFacts.SubExample | src/vm.rs:319-326 | 10 - 5 stores 5 |
| MachineFacts.MulExample | src/vm.rs:329-336 | 5 * 10 stores 50 |
| MachineFacts.DivExample | src/vm.rs:339-346 | 10 / 5 stores 2 with remainder 0 |
| MachineFacts.NegativeDivExample | src/vm.rs:108-115 | -7 / 2 stores -3 and keeps the remainder -1 as the `u32` 2^32 - 1 |
| MachineFacts.DivByZeroExample | src/vm.rs:108-115 | Division by zero panics |
| MachineFacts.DivOverflowExample | src/vm.rs:108-115 | The most negative `i32` divided by -1 overflows and panics |
| MachineFacts.JumpExample | src/vm.rs:124-127 | JMP goes to the value of its register |
| MachineFacts.JumpForwardExample | src/vm.rs:349-357 | JMPF by 2 from just past its operand lands on the HLT at 4 |
| MachineFacts.JumpBackwardExample | src/vm.rs:360-369 | JMPB by 6 from just past its operand returns to the start |
| MachineFacts.JumpBackwardTooFar | src/vm.rs:134-137 | JMPB past the start of the program panics |
| MachineFacts.JumpIfEqualExample | src/vm.rs:408-417 | JEQ with the flag set jumps to the register value |
| MachineFacts.JumpIfEqualFallsThrough | src/vm.rs:165-172 | JEQ with the flag clear reads nothing and changes nothing |
| MachineFacts.JumpIfNotEqualExample | src/vm.rs:420-429 | JNE with the flag clear jumps to the register value |
| MachineFacts.JumpIfNotEqualStays | src/vm.rs:174-181 | JNE with the flag set reads its operand and stays after it |
| MachineFacts.AllocateExample | src/vm.rs:514-523 | ALOC of 1024 on an empty heap makes it 1024 bytes long |
| MachineFacts.AllocateNegativeExample | src/vm.rs:239-247 | Shrinking the heap below zero panics |
| MachineFacts.NopExample | src/vm.rs:526-533 | NOP skips three bytes and changes nothing else |
| MachineFacts.ComparisonExamples | src/vm.rs:372-511 | The flag values the source's EQ, NEQ, LTE, GTE, LT and GT tests expect |
| MachineFacts.NegativeComparesHigh | src/vm.rs:183-234 | Because of the `usize` cast, -1 compares greater than 1 |
| MachineFacts.EqualExample | src/vm.rs:372-387 | EQ of 10 and 10 sets the flag and moves past its three operand bytes |
| MachineFacts.GreaterNegativeExample | src/vm.rs:222-234 | GT of -1 and 1 sets the flag |

## Left out

- Output is left out. The scanner and parser `println!` diagnostics, the REPL
  and `main` are not modelled; only the returned values and states are.
- Floating-point values are left out. A float literal is kept as its lexeme
  and never converted.
- Unicode is left out. `is_letter`, `is_numeric`, `is_whitespace` and
  `to_lowercase` are modelled on ASCII only.
- The scanner's `usize` line counter and the parser's `u32` node counters are
  modelled as unbounded naturals. Their overflow would need more than 4
  billion lines or nodes.
- `Scanner::skip` and the peek helpers are inlined rather than modelled on
  their own. The `Instruction` struct is not modelled: nothing in the core
  uses it.
- Scanning.NextToken: the source panics on an unterminated string and on an
  integer literal that does not fit `i32`. The model excludes those inputs
  through the precondition `ScanSafe` rather than returning a panic outcome.
- Machine.Run: the source loops without bound, and the model takes a fuel
  bound. A run that never stops is `OutOfFuel`, not divergence.
- Machine.Allocate: allocation failure for a very large but valid length is
  not modelled. The heap's contents are not modelled either, since it is only
  ever filled with zeros, so only its length is kept.
- MachineFacts: the examples for individual opcodes are stated on `Execute`
  with the counter just past the opcode byte, rather than on a whole `run`.
  Only HLT and the illegal byte are stated on `Step`. `StepExecutes` links
  the two.
- The whole-program test at src/vm.rs:536-553 is not modelled. It runs
  ADD, MUL, MUL, DIV and HLT to counter 17, and each of those instructions is
  covered by `ArithmeticStep` and the arithmetic examples.
