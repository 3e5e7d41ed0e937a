# YaLCC front end and LLVM IR generator, modelled in Dafny

YaLCC compiles a small imperative language. A program is
`Prog NAME Is ... End`. Its statements are assignments `x = e`, `If {cond} Then ... Else ... End`,
`While {cond} Do ... End`, `Print(x)` and `Input(x)`. Conditions are comparisons
joined by right-nested implications `->`, and expressions are integers with the four
operators and unary minus. This project models three pieces:

- the recursive-descent parser, which turns the lexer's token stream into a parse tree
  numbered by grammar rule;
- the parse-tree and symbol classes it builds on;
- the generator, which walks the tree and emits LLVM IR text.

Each piece is modelled twice:

- a pure specification: `ParserSpec` for the parser and `LoweringSpec` for the
  generator;
- an imperative class with the source's fields, whose methods update that state and
  are proved to compute what the specification says. These are `Parsing.Parser`, with
  the current token as a position in the token list, and `Lowering.LLVMIRGenerator`,
  with the output buffer, the variable table, the two counters and the indent level.

What is proved about the specifications is in `ParserProperties` and
`LoweringProperties`:

- the shape of every parse-tree node;
- left associativity of `+ - * /`: each operator node holds the tree built so far, the
  operator read at its position and the operand parsed after it; and right nesting of `->`;
- the syntax-error cases;
- the identifiers the generator issues are fresh and never collide;
- the variable table behaves as a memo;
- the line skeleton that `If`, `While`, `Print`, `Input` and the whole program emit;
- an assignment's last line: the `store`, into the variable's slot, of a temporary
  its expression issued.

`Symbols` models `Symbol`, including its `equals`/`hashCode` agreement over Java's
32-bit `int` arithmetic. It also proves that the LaTeX escaping, ten chained
`String.replace` calls, equals escaping each character on its own.

Files:

| file | module | models |
|---|---|---|
| `wrappers.dfy` | `Wrappers` | `Option`, standing in for a Java reference that may be `null` |
| `grammar.dfy` | `Grammar` | the `LexicalUnit` and `NonTerminal` enums and their names |
| `text.dfy` | `Text` | decimal rendering of integers, and indentation |
| `symbol.dfy` | `Symbols` | `src/Symbol.java` |
| `parse_tree.dfy` | `ParseTrees` | `src/ParseTree.java` |
| `parser_spec.dfy`, `parser.dfy` | `ParserSpec`, `Parsing` | `src/Parser.java` |
| `parser_props.dfy` | `ParserProperties` | properties of the parser |
| `lowering_spec.dfy`, `generator.dfy` | `LoweringSpec`, `Lowering` | `src/LLVMIRGenerator.java` |
| `lowering_props.dfy` | `LoweringProperties` | properties of the generator |

### How Java is represented

- **Null and exceptions.**
  - A reference that may be `null` is an `Option`.
  - An exception is a result value. The parser uses `ParseResult.Err` with a
    `SyntaxError`. The generator uses `Lowered.Failed` with a `GenError`, naming the
    Java exception: a `NullPointerException`, an out-of-range `List.get`, `getFirst`
    on an empty list, an `IllegalStateException`, or the `RuntimeException`s the
    generator throws itself.
- **Nodes and buffers.**
  - A parse-tree node is the value `Tree`, with its label, its children and its rule
    number.
  - The output buffer is the list of the pieces `newLine` appended, and its text is
    their concatenation (`Concat`).
  - The counters are unbounded naturals.
- **Tags never match.** The generator compares a node's value with the
  `NonTerminal` enum constants (`Tag(X)`). The parser labels its nodes with the enum
  constant's name as a `String` (`Str(...)`). Both are kept as written, so a tree that
  comes from the parser never matches a generator test on its tags. The two halves
  are modelled and proved separately.

### Generator quirks kept as written

The model reproduces these behaviours of `src/LLVMIRGenerator.java`:

- the `If` end label is emitted without its colon;
- a `While` emits its end label as a bare `:` line;
- an implication is lowered with `or i1 ..., true`;
- an atom that holds a nested implication returns `""`;
- `Input` reads into a temporary and never stores it;
- `newExprArith` on an `EXPR_MULDIV` node calls the add/sub lowering;
- an unknown binary operator still consumes a temporary but emits no line.

### Where the comments and the code disagree

The model follows the code in each case.

- The IR comments at `src/LLVMIRGenerator.java:317` (`; invert left`) and
  `src/LLVMIRGenerator.java:319-326` (`; (not left) or right`) describe `(not L) or R`.
  The first instruction is `or i1 L, true`, which is true whatever `L` is, so an
  implication always evaluates to true. The model emits both `or` lines as written.
- The other labels are defined with a trailing colon (`src/LLVMIRGenerator.java:269`
  and `:275`). The `If` end label is emitted as the bare name (`:281`). The `While` end
  label comes out as a lone `:`, because `:448` assigns `":"` to `endWhileLabel` inside
  the `newLine` call. See `LoweringProperties.IfShape` and
  `LoweringProperties.WhileShape`.
- The comments at `src/Parser.java:161` (`Assign → VarName = ExprArith`) and `:174`
  (`add ExprArith tree`) name an ExprArith child. `parseExprArith` returns the tree of
  the lower levels unchanged, though, so in `a = 5` the assignment's child 1 is the
  NUMBER leaf itself, with rule number 23; see `ParserProperties.AssignNumberExample`.

## Model

| member | source | states |
|---|---|---|
| Symbols.Make | src/Symbol.java:34-39 | keeps kind and value; stores the line one higher than given (0-based in, 1-based out) and the column as given |
| Symbols.MakeAt | src/Symbol.java:48-50 | kind as given, no value, line shifted by one, column as given |
| Symbols.MakeAtLine | src/Symbol.java:58-60 | no value and the undefined column -1; line shifted by one |
| Symbols.MakeKind | src/Symbol.java:67-69 | a position-less symbol: line 0 (−1 shifted), column −1, no value |
| Symbols.MakeValue | src/Symbol.java:77-79 | a position-less symbol carrying the given value |
| Symbols.IsTerminal | src/Symbol.java:88-90 | a symbol is a terminal exactly when it has a lexical kind |
| Symbols.IsNonTerminal | src/Symbol.java:99-101 | a symbol is a non-terminal exactly when it is not a terminal |
| Symbols.Equals | src/Symbol.java:159-168 | two symbols are equal exactly when they differ at most in line and column |
| Symbols.ToString | src/Symbol.java:176-183 | a terminal renders as `token[<kind>, <value>]` and a non-terminal as `non-terminal[<value>]`, a missing value printed as `null` |
| Symbols.EqualsIgnoresPosition | src/Symbol.java:159-168 | equality ignores line and column: a moved symbol equals the original |
| Symbols.EqualsIsEquivalence | src/Symbol.java:159-168 | `equals` is reflexive, symmetric and transitive |
| Symbols.Wrap32 | src/Symbol.java:146-149 | Java `int` arithmetic: the result is in [−2^31, 2^31) and congruent to the input modulo 2^32 |
| Symbols.StringHash | src/Symbol.java:146-149 | `String.hashCode` (h = 31h + c with wrap-around) always fits in an `int` |
| Symbols.HashCode | src/Symbol.java:146-149 | `Objects.hash(type, value)` always fits in an `int`, whatever the enum hashes are |
| Symbols.EqualsImpliesSameHash | src/Symbol.java:146-168 | the `equals`/`hashCode` contract: equal symbols hash alike for every choice of enum identity hashes |
| Symbols.ToStringProperties | src/Symbol.java:176-183 | a terminal's rendering never equals a non-terminal's, and equal symbols render alike (position is not printed) |
| Symbols.EscapeLaTeX | src/Symbol.java:192-208 | `null` gives ""; otherwise the ten chained replacements equal escaping each character independently (`EscapeEach`) |
| Symbols.EscapeTableLayered | src/Symbol.java:197-206 | no replacement text contains a character that a later pass replaces, which is why backslash has to go first |
| Symbols.PassesOneChar | src/Symbol.java:197-206 | on layered passes, a one-character string becomes the replacement of the first pass for that character |
| Symbols.EscapePassesPerChar | src/Symbol.java:197-206 | the chain of `replace` calls equals the per-character reference escape on every string |
| Symbols.EscapeLaTeXLeavesPlainText | src/Symbol.java:192-208 | a string without `\ & % $ # _ { } ~ ^` comes back unchanged |
| ParseTrees.Leaf | src/ParseTree.java:77-81 | a leaf node: the given label, no children, rule number −1 |
| ParseTrees.ParseTree.constructor | src/ParseTree.java:77-81 | a new node holds the label, no children and rule −1 |
| ParseTrees.ParseTree.WithChildren | src/ParseTree.java:89-93 | label, child list and rule number exactly as given |
| ParseTrees.ParseTree.AddChild | src/ParseTree.java:99-101 | appends the child at the end of the list, keeping earlier children and the rule number |
| ParseTrees.ParseTree.SetRuleNumber | src/ParseTree.java:123-125 | overwrites the rule number and leaves the children unchanged |
| ParserSpec.Match | src/Parser.java:53-68 | consumes one token exactly when its kind is the one expected; otherwise fails with the token's line, column, the expected and the found kind |
| ParserSpec.Dummy | src/Parser.java:75-77 | `new Symbol(null, -1, -1, name)`: a non-terminal at no position carrying the non-terminal's name |
| ParserSpec.ParseProgram | src/Parser.java:84-101 | a success stays inside the stream, never moves backwards, and yields a PROGRAM node |
| ParserSpec.ParseCode | src/Parser.java:108-134 | stays inside the stream and yields a CODE node |
| ParserSpec.ParseInstruction | src/Parser.java:141-158 | stays inside the stream and yields an INSTRUCTION node |
| ParserSpec.ParseAssign | src/Parser.java:165-178 | stays inside the stream and yields an ASSIGN node |
| ParserSpec.ParseIf | src/Parser.java:185-203 | stays inside the stream and yields an IF node |
| ParserSpec.ParseOptionalElse | src/Parser.java:211-227 | stays inside the stream and keeps the label of the node it completes |
| ParserSpec.ParseWhile | src/Parser.java:235-251 | stays inside the stream and yields a WHILE node |
| ParserSpec.ParseOutput | src/Parser.java:258-272 | a success stays inside the stream |
| ParserSpec.ParseInput | src/Parser.java:279-292 | a success stays inside the stream |
| ParserSpec.ParseCond | src/Parser.java:299-301 | stays inside the stream and yields a COND_IMPL node |
| ParserSpec.ParseCondImpl | src/Parser.java:308-334 | stays inside the stream and yields a COND_IMPL node |
| ParserSpec.ParseCondBase | src/Parser.java:341-372 | stays inside the stream and yields a COND_BASE node |
| ParserSpec.ParseExprArith | src/Parser.java:379-381 | a success consumes at least one token |
| ParserSpec.ParseExprAddSub | src/Parser.java:388-417 | a success consumes at least one token |
| ParserSpec.AddSubLoop | src/Parser.java:396-413 | the `+`/`-` loop stays inside the stream |
| ParserSpec.ParseExprMulDiv | src/Parser.java:424-450 | a success consumes at least one token |
| ParserSpec.MulDivLoop | src/Parser.java:432-446 | the `*`/`/` loop stays inside the stream |
| ParserSpec.ParseExprUnary | src/Parser.java:457-477 | a success consumes at least one token |
| ParserSpec.ParseExprPrimary | src/Parser.java:484-516 | a success consumes at least one token |
| Parsing.Parser.constructor | src/Parser.java:42-45 | the first token of the stream is current |
| Parsing.Parser.Match | src/Parser.java:53-68 | advances the current token exactly as `ParserSpec.Match` says, and does not move on failure |
| Parsing.Parser.ParseProgram | src/Parser.java:84-101 | returns exactly the tree or error of `ParserSpec.ParseProgram` and leaves the current token where that parse ends |
| Parsing.Parser.ParseCode | src/Parser.java:108-134 | the same, for `ParserSpec.ParseCode` |
| Parsing.Parser.ParseInstruction | src/Parser.java:141-158 | the same, for `ParserSpec.ParseInstruction` |
| Parsing.Parser.ParseAssign | src/Parser.java:165-178 | the same, for `ParserSpec.ParseAssign` |
| Parsing.Parser.ParseIf | src/Parser.java:185-203 | the same, for `ParserSpec.ParseIf` |
| Parsing.Parser.ParseOptionalElse | src/Parser.java:211-227 | the same, for `ParserSpec.ParseOptionalElse` |
| Parsing.Parser.ParseWhile | src/Parser.java:235-251 | the same, for `ParserSpec.ParseWhile` |
| Parsing.Parser.ParseOutput | src/Parser.java:258-272 | the same, for `ParserSpec.ParseOutput` |
| Parsing.Parser.ParseInput | src/Parser.java:279-292 | the same, for `ParserSpec.ParseInput` |
| Parsing.Parser.ParseCond | src/Parser.java:299-301 | the same, for `ParserSpec.ParseCond` |
| Parsing.Parser.ParseCondImpl | src/Parser.java:308-334 | the same, for `ParserSpec.ParseCondImpl` |
| Parsing.Parser.ParseCondBase | src/Parser.java:341-372 | the same, for `ParserSpec.ParseCondBase` |
| Parsing.Parser.ParseExprArith | src/Parser.java:379-381 | the same, for `ParserSpec.ParseExprArith` |
| Parsing.Parser.ParseExprAddSub | src/Parser.java:388-417 | the same, for `ParserSpec.ParseExprAddSub`, its loop holding the left fold built so far |
| Parsing.Parser.ParseExprMulDiv | src/Parser.java:424-450 | the same, for `ParserSpec.ParseExprMulDiv` |
| Parsing.Parser.ParseExprUnary | src/Parser.java:457-477 | the same, for `ParserSpec.ParseExprUnary` |
| Parsing.Parser.ParseExprPrimary | src/Parser.java:484-516 | the same, for `ParserSpec.ParseExprPrimary` |
| ParserProperties.AddSubFoldTrans | src/Parser.java:396-413 | a fold of the `+`/`-` loop over one stretch of tokens followed by a fold over the next stretch is one fold over both |
| ParserProperties.MulDivFoldTrans | src/Parser.java:432-446 | the same for the `*`/`/` loop |
| ParserProperties.AddSubLoopFoldsLeft | src/Parser.java:396-415 | the `+`/`-` loop associates to the left: each rule-20 node it builds has the tree so far as child 0, the leaf of the operator read at position `q` as child 1 and the ExprMulDiv parsed from `q + 1` as child 2, and the loop stops at the first token that is neither `+` nor `-` |
| ParserProperties.MulDivLoopFoldsLeft | src/Parser.java:432-448 | the `*`/`/` loop associates to the left: each rule-21 node has the tree so far as child 0, the operator leaf read at `q` as child 1 and the ExprUnary parsed from `q + 1` as child 2; the loop stops at the first token that is neither `*` nor `/` |
| ParserProperties.AddSubAssociatesLeft | src/Parser.java:388-417 | an ExprAddSub is its first ExprMulDiv folded to the left over the `+`/`-` operands that follow |
| ParserProperties.MulDivAssociatesLeft | src/Parser.java:424-450 | an ExprMulDiv is its first ExprUnary folded to the left over the `*`/`/` operands that follow |
| ParserProperties.DummiesDistinct | src/Parser.java:75-77 | two dummy labels are equal exactly when they name the same non-terminal |
| ParserProperties.ProgramShape | src/Parser.java:84-101 | a program starts with `Prog PROGNAME Is`; the node has rule 1 and exactly two children: the PROGNAME leaf and the tree `parseCode` returns right after `Is`; `End` follows that Code and is the last token consumed |
| ParserProperties.ProgramEndsWithEnd | src/Parser.java:84-101 | a program consumes at least four tokens, the last being `End` |
| ParserProperties.ProgramRejectsMissingProg | src/Parser.java:84-92 | a stream not starting with `Prog` fails with the found token's position and kind |
| ParserProperties.CodeShape | src/Parser.java:108-134 | with an instruction ahead: rule 2 and [Instruction, Code], with `;` between them; otherwise rule 3, no children, nothing consumed |
| ParserProperties.CodeEmpty | src/Parser.java:127-130 | the empty production never fails |
| ParserProperties.InstructionDispatch | src/Parser.java:141-158 | each of the five lookaheads calls exactly its own statement parser; the node has a single child and no rule number |
| ParserProperties.InstructionRejectsOther | src/Parser.java:141-158 | any other lookahead is an error naming the token found |
| ParserProperties.AssignShape | src/Parser.java:165-178 | `VARNAME =` and then the expression: rule 9, [VARNAME leaf, expression tree] |
| ParserProperties.OptionalElseShape | src/Parser.java:211-227 | with `Else`: the else block is appended as the last child with rule 11, and the earlier children are kept |
| ParserProperties.OptionalElseAbsent | src/Parser.java:211-227 | without `Else`: only the rule number changes, to 10 |
| ParserProperties.IfShape | src/Parser.java:185-227 | an If reads `If {`, a Cond, `} Then` and a Code, which become children 0 and 1; it has rule 11 exactly when `Else` follows that Code, and then child 2 is the Code parsed after `Else`; otherwise it has rule 10 and two children; `End` is the last token |
| ParserProperties.IfEndsWithEnd | src/Parser.java:185-227 | an If consumes at least five tokens, the last being `End` |
| ParserProperties.WhileShape | src/Parser.java:235-251 | `While {`, and then rule 12 with exactly two children: the tree `parseCond` returns after `{`, and the tree `parseCode` returns after the `} Do` that follows it; `End` is the last token consumed |
| ParserProperties.WhileParts | src/Parser.java:235-251 | a successful While parse is the rule-12 node over the Cond parse after `While {` and the Code parse after `} Do`, ending after `End` |
| ParserProperties.OutputShape | src/Parser.java:258-272 | `Print ( VARNAME )`: four tokens and one VARNAME leaf under rule 13 |
| ParserProperties.InputShape | src/Parser.java:279-292 | `Input ( VARNAME )`: four tokens and one VARNAME leaf under rule 14 |
| ParserProperties.PassThroughLevels | src/Parser.java:299-381 | Cond (lines 299-301) and ExprArith (lines 379-381) add no node of their own: each returns the tree of the level below unchanged |
| ParserProperties.CondImplShape | src/Parser.java:308-334 | rule 16; child 0 is the CondBase tree; one or three children |
| ParserProperties.CondImplNestsRight | src/Parser.java:308-334 | `a -> b -> c` nests to the right: child 2 is a whole CondImpl parsed after the `->` |
| ParserProperties.CondImplSingle | src/Parser.java:308-334 | without `->`, the left operand alone is wrapped |
| ParserProperties.CondBaseShape | src/Parser.java:341-372 | `\| Cond \|` gives rule 17 whose only child is the tree `parseCond` returns after the first `\|`, the second `\|` being the last token consumed; otherwise rule 18 with [left, right], the two parsed expressions, the comparison being consumed but not stored |
| ParserProperties.CondBaseRejectsNonComparison | src/Parser.java:341-372 | an expression not followed by a comparison operator is an error naming the token found |
| ParserProperties.LoopsStopWithoutOperator | src/Parser.java:388-450 | with no operator of their level ahead, the loops return the tree built so far, unchanged |
| ParserProperties.UnaryMinusShape | src/Parser.java:457-477 | a `-` wraps the primary in a rule-22 UNARY_MINUS node |
| ParserProperties.UnaryPlainShape | src/Parser.java:457-477 | an un-negated primary comes back with its rule number overwritten to 23 and nothing else changed |
| ParserProperties.PrimaryCases | src/Parser.java:484-516 | a VARNAME or a NUMBER is a single leaf with rule 24 or 25; any other token except `(` is an error naming it |
| ParserProperties.ParenthesesAddNoNode | src/Parser.java:484-516 | parentheses add no node: the inner tree comes back with rule 26, and both parentheses are consumed |
| ParserProperties.NumberUnary | src/Parser.java:457-516 | a NUMBER is an ExprUnary: its own leaf with rule 23 |
| ParserProperties.LoneNumberProduct | src/Parser.java:424-450 | a NUMBER not followed by `*` or `/` is a whole ExprMulDiv |
| ParserProperties.SubtractionAssociatesLeft | src/Parser.java:388-417 | `a - b - c` over three numbers parses as `(a - b) - c`: the node for `a - b` is child 0 of the node for the whole |
| ParserProperties.DivisionAssociatesLeft | src/Parser.java:424-450 | `a / b / c` over three numbers parses as `(a / b) / c` |
| ParserProperties.LoneNumberExpression | src/Parser.java:379-516 | a lone number passes through every level as its own leaf, carrying rule 23 |
| ParserProperties.AssignNumberExample | src/Parser.java:165-178 | `a = 5` parses to the ASSIGN node [VARNAME leaf, NUMBER leaf] |
| LoweringSpec.GetOrNewI32 | src/LLVMIRGenerator.java:69-76 | a name already in the table gets its slot back with nothing changed; a new name gets `%var_<name>`, allocated by one `alloca` line |
| LoweringSpec.LoadI32 | src/LLVMIRGenerator.java:79-84 | only appends and emits no label |
| LoweringSpec.StoreInNamI32 | src/LLVMIRGenerator.java:87-90 | only appends, and issues no temporary and no label |
| LoweringSpec.CompOpToLlvmOp | src/LLVMIRGenerator.java:345-357 | `==`→`eq`, `<`→`slt`, `<=`→`sle` (each an iff); `null` is a NullPointerException and anything else is an IllegalStateException |
| LoweringSpec.Header | src/LLVMIRGenerator.java:95-130 | only appends |
| LoweringSpec.GenerateLLVMIR | src/LLVMIRGenerator.java:138-156 | on success, the returned string is the whole buffer and the indent level is back at 0 |
| LoweringSpec.LowerCodeBranch | src/LLVMIRGenerator.java:159-167 | a success only appends, keeps every table entry, and never lowers a counter |
| LoweringSpec.CodeBranchLoop | src/LLVMIRGenerator.java:160-166 | the same, for the loop over the children |
| LoweringSpec.LowerInstructions | src/LLVMIRGenerator.java:174-197 | the same, for the statement dispatch |
| LoweringSpec.LowerAssign | src/LLVMIRGenerator.java:204-229 | the same, for assignments |
| LoweringSpec.AssignLoop | src/LLVMIRGenerator.java:212-226 | the same, for the loop over the children of an assignment |
| LoweringSpec.LowerAssignValue | src/LLVMIRGenerator.java:216-223 | lowering the expression child of an assignment (`newExprArith`, `newExprAddSub` or `newExprMulDiv` by its tag) only grows the state |
| LoweringSpec.ScanIf | src/LLVMIRGenerator.java:241-253 | the condition, `then` and `else` parts found are children of the node |
| LoweringSpec.LowerIf | src/LLVMIRGenerator.java:236-282 | a success only appends and keeps the table |
| LoweringSpec.IfBlocks | src/LLVMIRGenerator.java:257-281 | the same, for the blocks after the condition |
| LoweringSpec.Block | src/LLVMIRGenerator.java:269-280 | the same, for one labelled block |
| LoweringSpec.ScanWhile | src/LLVMIRGenerator.java:408-418 | the condition and body found are children of the node |
| LoweringSpec.LowerWhile | src/LLVMIRGenerator.java:404-450 | a success only appends and keeps the table |
| LoweringSpec.WhileCheck | src/LLVMIRGenerator.java:425-438 | the same, for the condition check |
| LoweringSpec.LowerOutput | src/LLVMIRGenerator.java:456-467 | a success only appends and keeps the table |
| LoweringSpec.LowerInput | src/LLVMIRGenerator.java:474-486 | a success only appends and keeps the table |
| LoweringSpec.LowerCond | src/LLVMIRGenerator.java:290-294 | a condition only appends and issues no label |
| LoweringSpec.LowerCondImpl | src/LLVMIRGenerator.java:303-330 | the same, for implications |
| LoweringSpec.LowerCondAtom | src/LLVMIRGenerator.java:332-343 | the same, for atoms |
| LoweringSpec.LowerCondComp | src/LLVMIRGenerator.java:365-402 | the same, for comparisons |
| LoweringSpec.LowerExprArith | src/LLVMIRGenerator.java:494-512 | an expression only appends and issues no label |
| LoweringSpec.LowerExprAddSub | src/LLVMIRGenerator.java:521-557 | the same, for sums |
| LoweringSpec.AddSubOperand | src/LLVMIRGenerator.java:528-540 | the same, for one operand of a sum |
| LoweringSpec.AddSubLoop | src/LLVMIRGenerator.java:525-555 | the same, for the loop over the pairs of a sum |
| LoweringSpec.LowerExprMulDiv | src/LLVMIRGenerator.java:559-606 | the same, for products |
| LoweringSpec.MulDivOperand | src/LLVMIRGenerator.java:566-588 | the same, for one operand of a product |
| LoweringSpec.MulDivLoop | src/LLVMIRGenerator.java:563-604 | the same, for the loop over the pairs of a product |
| LoweringSpec.LowerExprUnary | src/LLVMIRGenerator.java:615-634 | the same, for unary expressions |
| LoweringSpec.LowerExprPrimary | src/LLVMIRGenerator.java:636-665 | the same, for primaries |
| Lowering.LLVMIRGenerator.constructor | src/LLVMIRGenerator.java:9-26 | an empty buffer, an empty table, both counters and the indent level at 0 |
| Lowering.LLVMIRGenerator.NewLineAt | src/LLVMIRGenerator.java:34-36 | appends the indentation, the line and a newline, and changes no other field |
| LoweringSpec.NewLine | src/LLVMIRGenerator.java:43-45 | `newLine` only appends: the new buffer is the old one plus exactly one line, made of the indentation, the text and a newline; the table, both counters and the indent level are unchanged |
| LoweringSpec.NewLabel | src/LLVMIRGenerator.java:50-52 | the label the counter names, with the label counter one up and nothing else changed |
| LoweringSpec.NewTemp | src/LLVMIRGenerator.java:60-62 | the temporary the counter names, with the temporary counter one up and nothing else changed |
| Lowering.LLVMIRGenerator.NewLine | src/LLVMIRGenerator.java:43-45 | `newLine` at the current indent level, as `LoweringSpec.NewLine` |
| Lowering.LLVMIRGenerator.NewLabel | src/LLVMIRGenerator.java:50-52 | returns `label<n>` for the current counter and then increments the counter; nothing else changes |
| Lowering.LLVMIRGenerator.NewUnamedI32Id | src/LLVMIRGenerator.java:60-62 | returns `%<n>` for the current counter and then increments the counter; nothing else changes |
| Lowering.LLVMIRGenerator.GetOrNewI32 | src/LLVMIRGenerator.java:69-76 | slot and new state exactly as `LoweringSpec.GetOrNewI32` |
| Lowering.LLVMIRGenerator.LoadI32 | src/LLVMIRGenerator.java:79-84 | temporary and new state exactly as `LoweringSpec.LoadI32` |
| Lowering.LLVMIRGenerator.StoreInNamI32 | src/LLVMIRGenerator.java:87-90 | new state exactly as `LoweringSpec.StoreInNamI32` |
| Lowering.LLVMIRGenerator.Header | src/LLVMIRGenerator.java:95-130 | new state exactly as `LoweringSpec.Header` |
| Lowering.LLVMIRGenerator.GenerateLLVMIR | src/LLVMIRGenerator.java:138-156 | text or exception and final state exactly as `LoweringSpec.GenerateLLVMIR` |
| Lowering.LLVMIRGenerator.NewCodeBranch | src/LLVMIRGenerator.java:159-167 | exception or final state exactly as `LoweringSpec.LowerCodeBranch`, with its loop over the children |
| Lowering.LLVMIRGenerator.NewInstructions | src/LLVMIRGenerator.java:174-197 | exactly as `LoweringSpec.LowerInstructions` |
| Lowering.LLVMIRGenerator.NewAssign | src/LLVMIRGenerator.java:204-229 | exactly as `LoweringSpec.LowerAssign`, with its loop over the children |
| Lowering.LLVMIRGenerator.NewIf | src/LLVMIRGenerator.java:236-282 | exactly as `LoweringSpec.LowerIf`, with its scan of the children |
| Lowering.LLVMIRGenerator.IfBlocks | src/LLVMIRGenerator.java:257-281 | exactly as `LoweringSpec.IfBlocks` |
| Lowering.LLVMIRGenerator.Block | src/LLVMIRGenerator.java:269-280 | exactly as `LoweringSpec.Block` |
| Lowering.LLVMIRGenerator.NewWhile | src/LLVMIRGenerator.java:404-450 | exactly as `LoweringSpec.LowerWhile`, with its scan of the children |
| Lowering.LLVMIRGenerator.WhileCheck | src/LLVMIRGenerator.java:425-438 | exactly as `LoweringSpec.WhileCheck` |
| Lowering.LLVMIRGenerator.NewOutput | src/LLVMIRGenerator.java:456-467 | exactly as `LoweringSpec.LowerOutput` |
| Lowering.LLVMIRGenerator.NewInput | src/LLVMIRGenerator.java:474-486 | identifier or exception and final state exactly as `LoweringSpec.LowerInput` |
| Lowering.LLVMIRGenerator.NewCond | src/LLVMIRGenerator.java:290-294 | exactly as `LoweringSpec.LowerCond` |
| Lowering.LLVMIRGenerator.NewCondImpl | src/LLVMIRGenerator.java:303-330 | exactly as `LoweringSpec.LowerCondImpl` |
| Lowering.LLVMIRGenerator.NewCondAtom | src/LLVMIRGenerator.java:332-343 | exactly as `LoweringSpec.LowerCondAtom` |
| Lowering.LLVMIRGenerator.NewCondComp | src/LLVMIRGenerator.java:365-402 | exactly as `LoweringSpec.LowerCondComp` |
| Lowering.LLVMIRGenerator.NewExprArith | src/LLVMIRGenerator.java:494-512 | exactly as `LoweringSpec.LowerExprArith` |
| Lowering.LLVMIRGenerator.NewExprAddSub | src/LLVMIRGenerator.java:521-557 | exactly as `LoweringSpec.LowerExprAddSub`, with its loop over the operator/operand pairs |
| Lowering.LLVMIRGenerator.AddSubOperand | src/LLVMIRGenerator.java:528-540 | exactly as `LoweringSpec.AddSubOperand` |
| Lowering.LLVMIRGenerator.NewExprMulDiv | src/LLVMIRGenerator.java:559-606 | exactly as `LoweringSpec.LowerExprMulDiv`, with its loop over the pairs |
| Lowering.LLVMIRGenerator.MulDivOperand | src/LLVMIRGenerator.java:566-588 | exactly as `LoweringSpec.MulDivOperand` |
| Lowering.LLVMIRGenerator.NewExprUnary | src/LLVMIRGenerator.java:615-634 | exactly as `LoweringSpec.LowerExprUnary` |
| Lowering.LLVMIRGenerator.NewExprPrimary | src/LLVMIRGenerator.java:636-665 | exactly as `LoweringSpec.LowerExprPrimary` |
| LoweringProperties.TempNameInjective | src/LLVMIRGenerator.java:60-62 | different counter values give different temporaries `%<n>` |
| LoweringProperties.LabelNameInjective | src/LLVMIRGenerator.java:50-52 | different counter values give different labels `label<n>` |
| LoweringProperties.NamespacesDisjoint | src/LLVMIRGenerator.java:50-76 | temporaries, labels and variable slots never collide |
| LoweringProperties.TempNeverReissued | src/LLVMIRGenerator.java:60-62 | once issued, a temporary is never issued again, whatever is lowered afterwards |
| LoweringProperties.LabelNeverReissued | src/LLVMIRGenerator.java:50-52 | once issued, a label is never issued again |
| LoweringProperties.GetOrNewI32Idempotent | src/LLVMIRGenerator.java:69-76 | asking again for the same name returns the same slot and changes nothing |
| LoweringProperties.SlotIsNamed | src/LLVMIRGenerator.java:69-76 | while the table maps every name to `%var_<name>`, the slot returned is always `%var_<name>` |
| LoweringProperties.NextIssued | src/LLVMIRGenerator.java:60-62 | the temporary the counter names next counts as issued once the counter has moved past it |
| LoweringProperties.InputNeverStores | src/LLVMIRGenerator.java:474-486 | `Input` reads into the next temporary and leaves the variable table unchanged; it emits exactly the comment line and the `readInt` call |
| LoweringProperties.InstructionsDispatch | src/LLVMIRGenerator.java:174-197 | the tag of child 0 selects exactly one statement lowering; an empty node is IndexOutOfBounds and an unknown tag is IllegalState |
| LoweringProperties.ArithIssues | src/LLVMIRGenerator.java:494-512 | an arithmetic expression's value is a temporary issued while lowering it |
| LoweringProperties.AddSubIssues | src/LLVMIRGenerator.java:521-557 | the same, for sums |
| LoweringProperties.AddSubLoopIssues | src/LLVMIRGenerator.java:525-555 | the loop returns its accumulator, or a temporary it issued |
| LoweringProperties.MulDivIssues | src/LLVMIRGenerator.java:559-606 | the same, for products |
| LoweringProperties.MulDivLoopIssues | src/LLVMIRGenerator.java:563-604 | the loop returns its accumulator, or a temporary it issued |
| LoweringProperties.UnaryIssues | src/LLVMIRGenerator.java:615-634 | the same, for unary expressions |
| LoweringProperties.PrimaryIssues | src/LLVMIRGenerator.java:636-665 | the same, for primaries: a load, a constant, or a parenthesised expression |
| LoweringProperties.CondIssues | src/LLVMIRGenerator.java:290-294 | a condition's value is a temporary issued while lowering it, or "" for an atom holding a nested implication |
| LoweringProperties.CondImplIssues | src/LLVMIRGenerator.java:303-330 | the same, for implications |
| LoweringProperties.CondAtomIssues | src/LLVMIRGenerator.java:332-343 | the same, for atoms; an atom holding an implication returns "" and changes nothing else |
| LoweringProperties.BlockShape | src/LLVMIRGenerator.java:269-280 | a block opens with its label and, when it has an exit, closes with one deeper jump to it; an empty block is exactly those lines |
| LoweringProperties.IfBlocksSteps | src/LLVMIRGenerator.java:257-281 | the branch, the `then` block, the `else` block and the end label, in this order |
| LoweringProperties.IfBlocksShape | src/LLVMIRGenerator.java:257-281 | uses the next three labels and emits the `if` skeleton: a branch to `then`/`else`, the `then` block jumping to the end, the `else` label, and the end label last |
| LoweringProperties.IfLines | src/LLVMIRGenerator.java:257-281 | where the branch, the labels and the jump to the end sit in the buffer |
| LoweringProperties.IfSteps | src/LLVMIRGenerator.java:236-282 | an `If` that succeeds had a condition and a `then` part; it lowers the condition first and then the blocks |
| LoweringProperties.IfShape | src/LLVMIRGenerator.java:236-282 | the skeleton branches on the condition's value, uses the next three labels, and follows the condition's code, which the final buffer extends |
| LoweringProperties.WhileCheckShape | src/LLVMIRGenerator.java:425-438 | the comment, the jump into the start label, the start label, the condition's code, and last the branch on the condition's value to body or end, one level deeper |
| LoweringProperties.WhileSteps | src/LLVMIRGenerator.java:404-450 | the check under three fresh labels, then the body block, then the two closing lines |
| LoweringProperties.WhileShape | src/LLVMIRGenerator.java:404-450 | the loop skeleton under the next three labels: comment, condition check, the branch on the condition's value right after its code, the body label right after the branch, jump back to start, a bare colon line, end comment |
| LoweringProperties.WhileLines | src/LLVMIRGenerator.java:404-450 | where each of those lines sits in the buffer |
| LoweringProperties.WhileSkeletonHolds | src/LLVMIRGenerator.java:404-450 | the skeleton of `WhileShape`, from the states after the check, after the body and at the end |
| LoweringProperties.WhileCondOrder | src/LLVMIRGenerator.java:425-438 | the condition's code comes after what was emitted before the loop, and the loop's final buffer extends it |
| LoweringProperties.GenerateShape | src/LLVMIRGenerator.java:138-156 | the program keeps what came before, then the header lines, `define i32 @main()` and `entry:`, the body, `ret i32 0` and `}`; the result is the whole buffer |
| LoweringProperties.StoreShape | src/LLVMIRGenerator.java:87-90 | the name is in the table afterwards with its old slot if it had one; the last line stores the value (`null` printed as such) into that slot |
| LoweringProperties.AssignStores | src/LLVMIRGenerator.java:204-229 | an assignment ends with one `store` into the slot of the last variable name among the children; the value stored is a temporary issued by the assignment when some child is an expression, and otherwise `null` |
| LoweringProperties.AssignStoresStep | src/LLVMIRGenerator.java:212-226 | the same from a name child or a skipped child on |
| LoweringProperties.AssignStoresValue | src/LLVMIRGenerator.java:216-223 | the same from an expression child on: the store holds its temporary or a later expression's |
| LoweringProperties.HasValueChildSkip | src/LLVMIRGenerator.java:212-226 | a child that is not an expression does not change whether an expression follows |
| LoweringProperties.ValueChildIssues | src/LLVMIRGenerator.java:216-223 | lowering the expression child issues the temporary it returns |
| LoweringProperties.StoreOfLoweredValue | src/LLVMIRGenerator.java:216-228 | after an expression child, the stored value is a temporary issued since the loop reached it |
| LoweringProperties.AssignNameAndExpression | src/LLVMIRGenerator.java:204-229 | for an assignment whose children are a VARNAME leaf and one expression node (`EXPR_ARITH`, `EXPR_ADDSUB` or `EXPR_MULDIV`), `newAssign` lowers the expression and stores the temporary it issued under the name, or fails as the expression fails |
| LoweringProperties.OutputShape | src/LLVMIRGenerator.java:456-467 | `Print` loads the variable into the next temporary and calls `println` on it, in exactly those two lines |
| LoweringProperties.ScanWhileRejects | src/LLVMIRGenerator.java:408-418 | the scan rejects exactly when some child is neither COND_IMPL nor CODE |
| LoweringProperties.WhileRejectsOtherChild | src/LLVMIRGenerator.java:404-418 | such a child makes `newWhile` fail with a RuntimeException and emit nothing |
| LoweringProperties.AddSubPair | src/LLVMIRGenerator.java:526-554 | one pair: the operand, then a fresh temporary holding `add`/`sub` of the accumulator and the operand, which becomes the accumulator (no line for another operator) |
| LoweringProperties.MulDivPair | src/LLVMIRGenerator.java:564-603 | the same with `mul`/`sdiv` |
| LoweringProperties.AddSubLoopTemps | src/LLVMIRGenerator.java:525-555 | each remaining pair consumes at least one temporary |
| LoweringProperties.MulDivLoopTemps | src/LLVMIRGenerator.java:563-604 | the same for the `*`/`/` pairs of a product |
| LoweringProperties.UnaryMinusShape | src/LLVMIRGenerator.java:615-634 | a negation lowers the primary, then emits `sub i32 0, x` into a fresh temporary, which is the value |

## Left out

- `src/Main.java` is not part of this model: it handles the command line, reads the
  file and prints the output.
- The lexer (the JFlex `LexicalAnalyzer`) is not part of this model: the parser takes
  the finished token list. Past its end, the current token is the end-of-stream
  symbol.
- `src/LlvmirGenerator.java` is not part of this model: it is an older generator that
  `Main` does not use.
- The text of exceptions is not modelled: `ParseException` messages and
  `RuntimeException` strings. An error is modelled by its kind and the data it
  names.
- `ParseTree.toLaTexTree`, `toTikZ`, `toTikZPicture`, `toForestPicture`, `toLaTeX` and
  `Symbol.toTexString` are not modelled: they are output formatting only.
  `escapeLaTeX`, which they use, is modelled.
- The getters `ParseTree.getChildren`, `getRuleNumber` and `getLabel`, and
  `Symbol.getType`, `getValue`, `getLine` and `getColumn`, are modelled as field reads
  that carry no contract of their own.
- ParserSpec.ParseCode: a token without a kind (Java's `getType() == null`) is read as
  a token that matches no case, and so it is in `ParserSpec.ParseInstruction`,
  `ParserSpec.ParseCondBase` and `ParserSpec.ParseExprPrimary`. Java's
  `switch (currentToken.getType())` at `src/Parser.java:113`, `:147`, `:360` and `:489`
  throws a `NullPointerException` on such a token instead. The model gives the
  empty Code or a syntax error that names the missing kind. The lexer never produces
  a token without a kind.
- Symbols.HashCode: stated over hash functions given as parameters for the enum
  constants. Java leaves identity hashes to the run time, so the exact integer is not
  modelled.
- Symbols.StringHash: the fold runs over Dafny `char`s, which are Unicode code points.
  Java's `String.hashCode` folds UTF-16 code units, so the two differ on a character
  outside the Basic Multilingual Plane, which Java counts as two units. Identifiers and
  the generator's names are ASCII, where the two agree.
- `HashMap` internals are not modelled: the variable table is a Dafny `map`.
- Lowering.LLVMIRGenerator.Header: the LLVM text block that `header()` emits after
  its four fixed lines (the `readInt`/`println` definitions) is the constructor
  parameter `preamble`, not its literal contents.
- Lowering.LLVMIRGenerator.NewIf: `newIf` is split into `NewIf`, `IfBlocks` and
  `Block`. `newWhile` is likewise split into `NewWhile`, `WhileCheck` and `Block`, and
  the operand choice of `newExprAddSub` and `newExprMulDiv` into `AddSubOperand` and
  `MulDivOperand`. The split is structural only: the same lines are emitted in the same
  order, and the same exceptions are raised.
- Parsing.Parser.ParseProgram: the methods build each node as an immutable `Tree`
  value rather than as a mutable `ParseTree` object. `Parser.java` never changes a
  node after attaching it to its parent, so the final tree is the same. What is not
  modelled is aliasing between nodes.
- LoweringSpec.NewTemp: the counters are unbounded naturals. The wrap-around of Java
  `int` after 2^31 temporaries or labels is not modelled.
- Lowering.LLVMIRGenerator.GenerateLLVMIR: the result is the buffer as a list of
  emitted pieces, and its text is `Concat` of that list. Java's `StringBuilder`
  capacity is not modelled.
