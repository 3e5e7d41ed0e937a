/** The recursive-descent parser of src/Parser.java as pure functions over a
    token stream and a position. Each function returns the tree it builds
    and the position of the next unread token, or the syntax error that
    aborts the parse. The class `Parsing.Parser` is proved to compute exactly
    these results. */
module ParserSpec {
  import opened Wrappers
  import opened Grammar
  import opened Symbols
  import opened ParseTrees

  /** What the parser reports when it throws: `match` carries the position,
      the expected kind and the found kind; the three dispatch points that
      fail without `match` carry the found kind. */
  datatype SyntaxError =
    | Mismatch(line: int, column: int, expected: LexicalUnit, found: Option<LexicalUnit>)
    | UnexpectedToken(found: Option<LexicalUnit>)
    | ExpectedComparison(found: Option<LexicalUnit>)
    | UnexpectedInExpression(found: Option<LexicalUnit>)

  datatype Parsed = Parsed(tree: Tree, next: nat)

  /** A parse function either returns the tree it built and the position
      after it, or the error that `Parser` throws. */
  datatype ParseResult = Ok(value: Parsed) | Err(error: SyntaxError)

  /** The outcome of `match`: the position after the consumed token, or
      the error. */
  datatype Step = Next(value: nat) | Fail(error: SyntaxError)

  /** The token the lexer hands out once the input is exhausted. */
  const EndOfStream: Symbol := Symbol(Some(EOS), NoValue, 0, -1)

  /** `currentToken` once `pos` tokens have been consumed: past the end of
      `toks` it is the end of the stream. */
  function Current(toks: seq<Symbol>, pos: nat): Symbol
  {
    if pos < |toks| then toks[pos] else EndOfStream
  }

  function Kind(toks: seq<Symbol>, pos: nat): Option<LexicalUnit>
  {
    Current(toks, pos).kind
  }

  /** `match(expected)`: one step forward when the current kind is `expected`,
      otherwise an error that names the position and both kinds. */
  function Match(toks: seq<Symbol>, pos: nat, expected: LexicalUnit): (r: Step)
    ensures Kind(toks, pos) == Some(expected) <==> r.Next?
    ensures r.Next? ==> r.value == pos + 1
    ensures r.Next? && expected != EOS ==> pos < |toks|
    ensures r.Fail? ==> r.error == Mismatch(Current(toks, pos).line, Current(toks, pos).column, expected, Kind(toks, pos))
  {
    if Kind(toks, pos) == Some(expected) then Next(pos + 1)
    else Fail(Mismatch(Current(toks, pos).line, Current(toks, pos).column, expected, Kind(toks, pos)))
  }

  /** `dummy(nt)`: a non-terminal label whose value is the enum's name as a
      string, at no position. */
  function Dummy(nt: ParserNonTerminal): (s: Symbol)
    ensures s == Make(None, UndefinedPosition, UndefinedPosition, Str(ParserTagName(nt)))
    ensures IsNonTerminal(s)
  {
    Symbol(None, Str(ParserTagName(nt)), 0, -1)
  }

  /** The leaf for an operator the parser re-creates: `new Symbol(op)`. */
  function OperatorLeaf(op: LexicalUnit): Tree
  {
    Leaf(MakeKind(Some(op)))
  }

  predicate StartsInstruction(k: Option<LexicalUnit>)
  {
    k == Some(VARNAME) || k == Some(IF) || k == Some(WHILE) || k == Some(PRINT) || k == Some(INPUT)
  }

  predicate IsComparison(k: Option<LexicalUnit>)
  {
    k == Some(EQUAL) || k == Some(SMALEQ) || k == Some(SMALLER)
  }

  predicate IsAddSubOp(k: Option<LexicalUnit>)
  {
    k == Some(PLUS) || k == Some(MINUS)
  }

  predicate IsMulDivOp(k: Option<LexicalUnit>)
  {
    k == Some(TIMES) || k == Some(DIVIDE)
  }

  /** A successful parse from `pos` stops at a position of the stream at or
      after `pos`. */
  predicate Advances(r: ParseResult, toks: seq<Symbol>, pos: nat)
  {
    r.Ok? ==> pos <= r.value.next <= |toks|
  }

  /** Program -> Prog PROGNAME Is Code End (rule 1). The PROGNAME leaf is the
      token current after `Prog`, taken before it is matched. */
  function ParseProgram(toks: seq<Symbol>, pos: nat): (r: ParseResult)
    requires pos <= |toks|
    ensures Advances(r, toks, pos)
    ensures r.Ok? ==> r.value.tree.symbol == Dummy(P_PROGRAM)
    decreases |toks| - pos, 30
  {
    match Match(toks, pos, PROG)
    case Fail(e) => Err(e)
    case Next(p1) =>
      var name := Leaf(Current(toks, p1));
      match Match(toks, p1, PROGNAME)
      case Fail(e) => Err(e)
      case Next(p2) =>
      match Match(toks, p2, IS)
      case Fail(e) => Err(e)
      case Next(p3) =>
      match ParseCode(toks, p3)
      case Err(e) => Err(e)
      case Ok(code) =>
      match Match(toks, code.next, END)
      case Fail(e) => Err(e)
      case Next(p4) =>
      Ok(Parsed(Node(Dummy(P_PROGRAM), [name, code.tree], 1), p4))
  }

  /** Code -> Instruction ; Code (rule 2) when the lookahead starts an
      instruction, Code -> epsilon (rule 3, nothing consumed) otherwise. */
  function ParseCode(toks: seq<Symbol>, pos: nat): (r: ParseResult)
    requires pos <= |toks|
    ensures Advances(r, toks, pos)
    ensures r.Ok? ==> r.value.tree.symbol == Dummy(P_CODE)
    decreases |toks| - pos, 29
  {
    if StartsInstruction(Kind(toks, pos)) then
      match ParseInstruction(toks, pos)
      case Err(e) => Err(e)
      case Ok(ins) =>
      match Match(toks, ins.next, SEMI)
      case Fail(e) => Err(e)
      case Next(p1) =>
      match ParseCode(toks, p1)
      case Err(e) => Err(e)
      case Ok(rest) =>
      Ok(Parsed(Node(Dummy(P_CODE), [ins.tree, rest.tree], 2), rest.next))
    else
      Ok(Parsed(Node(Dummy(P_CODE), [], 3), pos))
  }

  /** Instruction -> Assign | If | While | Output | Input, chosen by the
      lookahead. The parser never sets this node's rule number. */
  function ParseInstruction(toks: seq<Symbol>, pos: nat): (r: ParseResult)
    requires pos <= |toks|
    ensures Advances(r, toks, pos)
    ensures r.Ok? ==> r.value.tree.symbol == Dummy(P_INSTRUCTION)
    decreases |toks| - pos, 28
  {
    var k := Kind(toks, pos);
    if k == Some(VARNAME) then
      match ParseAssign(toks, pos)
      case Err(e) => Err(e)
      case Ok(a) => Ok(Parsed(Node(Dummy(P_INSTRUCTION), [a.tree], NoRule), a.next))
    else if k == Some(IF) then
      match ParseIf(toks, pos)
      case Err(e) => Err(e)
      case Ok(a) => Ok(Parsed(Node(Dummy(P_INSTRUCTION), [a.tree], NoRule), a.next))
    else if k == Some(WHILE) then
      match ParseWhile(toks, pos)
      case Err(e) => Err(e)
      case Ok(a) => Ok(Parsed(Node(Dummy(P_INSTRUCTION), [a.tree], NoRule), a.next))
    else if k == Some(PRINT) then
      match ParseOutput(toks, pos)
      case Err(e) => Err(e)
      case Ok(a) => Ok(Parsed(Node(Dummy(P_INSTRUCTION), [a.tree], NoRule), a.next))
    else if k == Some(INPUT) then
      match ParseInput(toks, pos)
      case Err(e) => Err(e)
      case Ok(a) => Ok(Parsed(Node(Dummy(P_INSTRUCTION), [a.tree], NoRule), a.next))
    else
      Err(UnexpectedToken(k))
  }

  /** Assign -> VarName = ExprArith (rule 9): the VARNAME leaf, then the
      expression tree itself. */
  function ParseAssign(toks: seq<Symbol>, pos: nat): (r: ParseResult)
    requires pos <= |toks|
    ensures Advances(r, toks, pos)
    ensures r.Ok? ==> r.value.tree.symbol == Dummy(P_ASSIGN)
    decreases |toks| - pos, 27
  {
    var name := Leaf(Current(toks, pos));
    match Match(toks, pos, VARNAME)
    case Fail(e) => Err(e)
    case Next(p1) =>
    match Match(toks, p1, ASSIGN)
    case Fail(e) => Err(e)
    case Next(p2) =>
    match ParseExprArith(toks, p2)
    case Err(e) => Err(e)
    case Ok(e) =>
    Ok(Parsed(Node(Dummy(P_ASSIGN), [name, e.tree], 9), e.next))
  }

  /** If -> If { Cond } Then Code OptionalElse End. */
  function ParseIf(toks: seq<Symbol>, pos: nat): (r: ParseResult)
    requires pos <= |toks|
    ensures Advances(r, toks, pos)
    ensures r.Ok? ==> r.value.tree.symbol == Dummy(P_IF)
    decreases |toks| - pos, 27
  {
    match Match(toks, pos, IF)
    case Fail(e) => Err(e)
    case Next(p1) =>
    match Match(toks, p1, LBRACK)
    case Fail(e) => Err(e)
    case Next(p2) =>
    match ParseCond(toks, p2)
    case Err(e) => Err(e)
    case Ok(c) =>
    match Match(toks, c.next, RBRACK)
    case Fail(e) => Err(e)
    case Next(p3) =>
    match Match(toks, p3, THEN)
    case Fail(e) => Err(e)
    case Next(p4) =>
    match ParseCode(toks, p4)
    case Err(e) => Err(e)
    case Ok(body) =>
    var node := Node(Dummy(P_IF), [c.tree, body.tree], NoRule);
    match ParseOptionalElse(toks, body.next, node)
    case Err(e) => Err(e)
    case Ok(withElse) =>
    assert withElse.tree.symbol == Dummy(P_IF);
    match Match(toks, withElse.next, END)
    case Fail(e) => Err(e)
    case Next(p5) =>
    Ok(Parsed(withElse.tree, p5))
  }

  /** `parseOptionalElse(node)`: with `Else` next, rule 11 and the else-Code
      appended to the children; otherwise rule 10, nothing appended, nothing
      consumed. */
  function ParseOptionalElse(toks: seq<Symbol>, pos: nat, node: Tree): (r: ParseResult)
    requires pos <= |toks|
    ensures Advances(r, toks, pos)
    ensures r.Ok? ==> r.value.tree.symbol == node.symbol
    decreases |toks| - pos, 26
  {
    if Kind(toks, pos) == Some(ELSE) then
      var p1 := Match(toks, pos, ELSE).value;
      match ParseCode(toks, p1)
      case Err(e) => Err(e)
      case Ok(e) => Ok(Parsed(Node(node.symbol, node.children + [e.tree], 11), e.next))
    else
      Ok(Parsed(node.(rule := 10), pos))
  }

  /** While -> While { Cond } Do Code End (rule 12). */
  function ParseWhile(toks: seq<Symbol>, pos: nat): (r: ParseResult)
    requires pos <= |toks|
    ensures Advances(r, toks, pos)
    ensures r.Ok? ==> r.value.tree.symbol == Dummy(P_WHILE)
    decreases |toks| - pos, 27
  {
    match Match(toks, pos, WHILE)
    case Fail(e) => Err(e)
    case Next(p1) =>
    match Match(toks, p1, LBRACK)
    case Fail(e) => Err(e)
    case Next(p2) =>
    match ParseCond(toks, p2)
    case Err(e) => Err(e)
    case Ok(c) =>
    match Match(toks, c.next, RBRACK)
    case Fail(e) => Err(e)
    case Next(p3) =>
    match Match(toks, p3, DO)
    case Fail(e) => Err(e)
    case Next(p4) =>
    match ParseCode(toks, p4)
    case Err(e) => Err(e)
    case Ok(body) =>
    match Match(toks, body.next, END)
    case Fail(e) => Err(e)
    case Next(p5) =>
    Ok(Parsed(Node(Dummy(P_WHILE), [c.tree, body.tree], 12), p5))
  }

  /** Output -> Print ( VarName ) (rule 13): one VARNAME leaf. */
  function ParseOutput(toks: seq<Symbol>, pos: nat): (r: ParseResult)
    requires pos <= |toks|
    ensures Advances(r, toks, pos)
    decreases |toks| - pos, 27
  {
    match Match(toks, pos, PRINT)
    case Fail(e) => Err(e)
    case Next(p1) =>
    match Match(toks, p1, LPAREN)
    case Fail(e) => Err(e)
    case Next(p2) =>
    var name := Leaf(Current(toks, p2));
    match Match(toks, p2, VARNAME)
    case Fail(e) => Err(e)
    case Next(p3) =>
    match Match(toks, p3, RPAREN)
    case Fail(e) => Err(e)
    case Next(p4) =>
    Ok(Parsed(Node(Dummy(P_OUTPUT), [name], 13), p4))
  }

  /** Input -> Input ( VarName ) (rule 14): one VARNAME leaf. */
  function ParseInput(toks: seq<Symbol>, pos: nat): (r: ParseResult)
    requires pos <= |toks|
    ensures Advances(r, toks, pos)
    decreases |toks| - pos, 27
  {
    match Match(toks, pos, INPUT)
    case Fail(e) => Err(e)
    case Next(p1) =>
    match Match(toks, p1, LPAREN)
    case Fail(e) => Err(e)
    case Next(p2) =>
    var name := Leaf(Current(toks, p2));
    match Match(toks, p2, VARNAME)
    case Fail(e) => Err(e)
    case Next(p3) =>
    match Match(toks, p3, RPAREN)
    case Fail(e) => Err(e)
    case Next(p4) =>
    Ok(Parsed(Node(Dummy(P_INPUT), [name], 14), p4))
  }

  /** Cond -> CondImpl: no node of its own. */
  function ParseCond(toks: seq<Symbol>, pos: nat): (r: ParseResult)
    requires pos <= |toks|
    ensures Advances(r, toks, pos)
    ensures r.Ok? ==> r.value.tree.symbol == Dummy(P_COND_IMPL)
    decreases |toks| - pos, 25
  {
    ParseCondImpl(toks, pos)
  }

  /** CondImpl -> CondBase [-> CondImpl] (rule 16 either way). The right
      operand comes from a recursive call and the left one never does, so
      chains of implications nest to the right. */
  function ParseCondImpl(toks: seq<Symbol>, pos: nat): (r: ParseResult)
    requires pos <= |toks|
    ensures Advances(r, toks, pos)
    ensures r.Ok? ==> r.value.tree.symbol == Dummy(P_COND_IMPL)
    decreases |toks| - pos, 24
  {
    match ParseCondBase(toks, pos)
    case Err(e) => Err(e)
    case Ok(left) =>
      if Kind(toks, left.next) == Some(IMPLIES) then
        var p1 := Match(toks, left.next, IMPLIES).value;
        match ParseCondImpl(toks, p1)
        case Err(e) => Err(e)
        case Ok(right) =>
          Ok(Parsed(Node(Dummy(P_COND_IMPL), [left.tree, OperatorLeaf(IMPLIES), right.tree], 16), right.next))
      else
        Ok(Parsed(Node(Dummy(P_COND_IMPL), [left.tree], 16), left.next))
  }

  /** CondBase -> | Cond | (rule 17, one child) | ExprArith Comp ExprArith
      (rule 18, two children: the operator is consumed and not stored). */
  function ParseCondBase(toks: seq<Symbol>, pos: nat): (r: ParseResult)
    requires pos <= |toks|
    ensures Advances(r, toks, pos)
    ensures r.Ok? ==> r.value.tree.symbol == Dummy(P_COND_BASE)
    decreases |toks| - pos, 23
  {
    if Kind(toks, pos) == Some(PIPE) then
      var p1 := Match(toks, pos, PIPE).value;
      match ParseCond(toks, p1)
      case Err(e) => Err(e)
      case Ok(c) =>
      match Match(toks, c.next, PIPE)
      case Fail(e) => Err(e)
      case Next(p2) =>
      Ok(Parsed(Node(Dummy(P_COND_BASE), [c.tree], 17), p2))
    else
      match ParseExprArith(toks, pos)
      case Err(e) => Err(e)
      case Ok(left) =>
        var op := Kind(toks, left.next);
        if IsComparison(op) then
          var p1 := Match(toks, left.next, op.value).value;
          match ParseExprArith(toks, p1)
          case Err(e) => Err(e)
          case Ok(right) =>
          Ok(Parsed(Node(Dummy(P_COND_BASE), [left.tree, right.tree], 18), right.next))
        else
          Err(ExpectedComparison(op))
  }

  /** ExprArith -> ExprAddSub: no node of its own. */
  function ParseExprArith(toks: seq<Symbol>, pos: nat): (r: ParseResult)
    requires pos <= |toks|
    ensures Advances(r, toks, pos)
    ensures r.Ok? ==> pos < r.value.next
    decreases |toks| - pos, 22
  {
    ParseExprAddSub(toks, pos)
  }

  /** ExprAddSub -> ExprMulDiv { (+|-) ExprMulDiv }*. */
  function ParseExprAddSub(toks: seq<Symbol>, pos: nat): (r: ParseResult)
    requires pos <= |toks|
    ensures Advances(r, toks, pos)
    ensures r.Ok? ==> pos < r.value.next
    decreases |toks| - pos, 21
  {
    match ParseExprMulDiv(toks, pos)
    case Err(e) => Err(e)
    case Ok(left) => AddSubLoop(toks, left.tree, left.next)
  }

  /** The `while` loop of `parseExprAddSub`: as long as `+` or `-` follows,
      parse one more operand and fold it into a new parent
      [accumulated, operator leaf, right] with rule 20. */
  function AddSubLoop(toks: seq<Symbol>, node: Tree, pos: nat): (r: ParseResult)
    requires pos <= |toks|
    ensures Advances(r, toks, pos)
    decreases |toks| - pos, 20
  {
    var k := Kind(toks, pos);
    if IsAddSubOp(k) then
      var p1 := Match(toks, pos, k.value).value;
      match ParseExprMulDiv(toks, p1)
      case Err(e) => Err(e)
      case Ok(right) =>
        AddSubLoop(toks, Node(Dummy(P_EXPR_ADDSUB), [node, OperatorLeaf(k.value), right.tree], 20), right.next)
    else
      Ok(Parsed(node, pos))
  }

  /** ExprMulDiv -> ExprUnary { (*|/) ExprUnary }*. */
  function ParseExprMulDiv(toks: seq<Symbol>, pos: nat): (r: ParseResult)
    requires pos <= |toks|
    ensures Advances(r, toks, pos)
    ensures r.Ok? ==> pos < r.value.next
    decreases |toks| - pos, 19
  {
    match ParseExprUnary(toks, pos)
    case Err(e) => Err(e)
    case Ok(left) => MulDivLoop(toks, left.tree, left.next)
  }

  /** The `while` loop of `parseExprMulDiv`, with rule 21. */
  function MulDivLoop(toks: seq<Symbol>, node: Tree, pos: nat): (r: ParseResult)
    requires pos <= |toks|
    ensures Advances(r, toks, pos)
    decreases |toks| - pos, 18
  {
    var k := Kind(toks, pos);
    if IsMulDivOp(k) then
      var p1 := Match(toks, pos, k.value).value;
      match ParseExprUnary(toks, p1)
      case Err(e) => Err(e)
      case Ok(right) =>
        MulDivLoop(toks, Node(Dummy(P_EXPR_MULDIV), [node, OperatorLeaf(k.value), right.tree], 21), right.next)
    else
      Ok(Parsed(node, pos))
  }

  /** ExprUnary -> - ExprPrimary (a UNARY_MINUS node, rule 22) | ExprPrimary
      (the primary itself, its rule number overwritten with 23). */
  function ParseExprUnary(toks: seq<Symbol>, pos: nat): (r: ParseResult)
    requires pos <= |toks|
    ensures Advances(r, toks, pos)
    ensures r.Ok? ==> pos < r.value.next
    decreases |toks| - pos, 17
  {
    if Kind(toks, pos) == Some(MINUS) then
      var p1 := Match(toks, pos, MINUS).value;
      match ParseExprPrimary(toks, p1)
      case Err(e) => Err(e)
      case Ok(prim) => Ok(Parsed(Node(Dummy(P_UNARY_MINUS), [prim.tree], 22), prim.next))
    else
      match ParseExprPrimary(toks, pos)
      case Err(e) => Err(e)
      case Ok(prim) => Ok(Parsed(prim.tree.(rule := 23), prim.next))
  }

  /** ExprPrimary -> VarName (rule 24) | Number (rule 25) | ( ExprArith ):
      a parenthesised expression is the inner tree itself, with no leaves for
      the parentheses and its rule number overwritten with 26. */
  function ParseExprPrimary(toks: seq<Symbol>, pos: nat): (r: ParseResult)
    requires pos <= |toks|
    ensures Advances(r, toks, pos)
    ensures r.Ok? ==> pos < r.value.next
    decreases |toks| - pos, 16
  {
    var k := Kind(toks, pos);
    if k == Some(VARNAME) then
      Ok(Parsed(Leaf(Current(toks, pos)).(rule := 24), Match(toks, pos, VARNAME).value))
    else if k == Some(NUMBER) then
      Ok(Parsed(Leaf(Current(toks, pos)).(rule := 25), Match(toks, pos, NUMBER).value))
    else if k == Some(LPAREN) then
      var p1 := Match(toks, pos, LPAREN).value;
      match ParseExprArith(toks, p1)
      case Err(e) => Err(e)
      case Ok(e) =>
      match Match(toks, e.next, RPAREN)
      case Fail(e) => Err(e)
      case Next(p2) =>
      Ok(Parsed(e.tree.(rule := 26), p2))
    else
      Err(UnexpectedInExpression(k))
  }
}
