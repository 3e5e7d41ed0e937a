/** The parser of src/Parser.java as a class: it holds the lexer's output and
    the position of `currentToken` in it, `Match` advances that position
    exactly as `match` advances `currentToken`, and each parse method is
    proved to return the tree (or throw the error) that the function of the
    same name in `ParserSpec` describes, stopping at the position that
    function reports. The methods build each node as a `Tree` value: in
    `Parser.java` no node is changed after it has been attached to its
    parent, so the value a node has when it is attached is the value it keeps
    in the final tree. */
module Parsing {
  import opened Wrappers
  import opened Grammar
  import opened Symbols
  import opened ParseTrees
  import opened ParserSpec

  class Parser {
    /** Everything `lexer.yylex()` hands out, in order; past its end the
        lexer answers with the end of the stream. */
    const tokens: seq<Symbol>
    /** How many tokens have been consumed: `currentToken` is the token at
        this position. */
    var pos: nat

    predicate Valid()
      reads this
    {
      pos <= |tokens|
    }

    function CurrentToken(): Symbol
      reads this
    {
      Current(tokens, pos)
    }

    /** `Parser(lexer)`: reading the first token makes it current. */
    constructor (toks: seq<Symbol>)
      ensures tokens == toks && pos == 0
      ensures Valid() && CurrentToken() == Current(toks, 0)
    {
      tokens := toks;
      pos := 0;
    }

    /** `match(expected)`: consume the current token if it has the expected
        kind, otherwise throw without moving. */
    method Match(expected: LexicalUnit) returns (err: Option<SyntaxError>)
      modifies this
      ensures ParserSpec.Match(tokens, old(pos), expected) == if err.None? then Next(pos) else Fail(err.value)
      ensures err.Some? ==> pos == old(pos)
    {
      if CurrentToken().kind == Some(expected) {
        pos := pos + 1;
        err := None;
      } else {
        var t := CurrentToken();
        err := Some(Mismatch(t.line, t.column, expected, t.kind));
      }
    }

    method ParseProgram() returns (r: ParseResult)
      requires Valid()
      modifies this
      ensures r == ParserSpec.ParseProgram(tokens, old(pos))
      ensures r.Ok? ==> pos == r.value.next
      decreases |tokens| - pos, 30
    {
      var e := Match(PROG);
      if e.Some? { return Err(e.value); }
      var name := Leaf(CurrentToken());
      e := Match(PROGNAME);
      if e.Some? { return Err(e.value); }
      e := Match(IS);
      if e.Some? { return Err(e.value); }
      var code := ParseCode();
      if code.Err? { return code; }
      e := Match(END);
      if e.Some? { return Err(e.value); }
      return Ok(Parsed(Node(Dummy(P_PROGRAM), [name, code.value.tree], 1), pos));
    }

    method ParseCode() returns (r: ParseResult)
      requires Valid()
      modifies this
      ensures r == ParserSpec.ParseCode(tokens, old(pos))
      ensures r.Ok? ==> pos == r.value.next
      decreases |tokens| - pos, 29
    {
      if StartsInstruction(CurrentToken().kind) {
        var ins := ParseInstruction();
        if ins.Err? { return ins; }
        var e := Match(SEMI);
        if e.Some? { return Err(e.value); }
        var rest := ParseCode();
        if rest.Err? { return rest; }
        return Ok(Parsed(Node(Dummy(P_CODE), [ins.value.tree, rest.value.tree], 2), pos));
      } else {
        return Ok(Parsed(Node(Dummy(P_CODE), [], 3), pos));
      }
    }

    method ParseInstruction() returns (r: ParseResult)
      requires Valid()
      modifies this
      ensures r == ParserSpec.ParseInstruction(tokens, old(pos))
      ensures r.Ok? ==> pos == r.value.next
      decreases |tokens| - pos, 28
    {
      var k := CurrentToken().kind;
      var child: ParseResult;
      if k == Some(VARNAME) {
        child := ParseAssign();
      } else if k == Some(IF) {
        child := ParseIf();
      } else if k == Some(WHILE) {
        child := ParseWhile();
      } else if k == Some(PRINT) {
        child := ParseOutput();
      } else if k == Some(INPUT) {
        child := ParseInput();
      } else {
        return Err(UnexpectedToken(k));
      }
      if child.Err? { return child; }
      return Ok(Parsed(Node(Dummy(P_INSTRUCTION), [child.value.tree], NoRule), pos));
    }

    method ParseAssign() returns (r: ParseResult)
      requires Valid()
      modifies this
      ensures r == ParserSpec.ParseAssign(tokens, old(pos))
      ensures r.Ok? ==> pos == r.value.next
      decreases |tokens| - pos, 27
    {
      var name := Leaf(CurrentToken());
      var e := Match(VARNAME);
      if e.Some? { return Err(e.value); }
      e := Match(ASSIGN);
      if e.Some? { return Err(e.value); }
      var expr := ParseExprArith();
      if expr.Err? { return expr; }
      return Ok(Parsed(Node(Dummy(P_ASSIGN), [name, expr.value.tree], 9), pos));
    }

    method ParseIf() returns (r: ParseResult)
      requires Valid()
      modifies this
      ensures r == ParserSpec.ParseIf(tokens, old(pos))
      ensures r.Ok? ==> pos == r.value.next
      decreases |tokens| - pos, 27
    {
      var e := Match(IF);
      if e.Some? { return Err(e.value); }
      e := Match(LBRACK);
      if e.Some? { return Err(e.value); }
      var cond := ParseCond();
      if cond.Err? { return cond; }
      e := Match(RBRACK);
      if e.Some? { return Err(e.value); }
      e := Match(THEN);
      if e.Some? { return Err(e.value); }
      var body := ParseCode();
      if body.Err? { return body; }
      var node := Node(Dummy(P_IF), [cond.value.tree, body.value.tree], NoRule);
      var withElse := ParseOptionalElse(node);
      if withElse.Err? { return withElse; }
      e := Match(END);
      if e.Some? { return Err(e.value); }
      return Ok(Parsed(withElse.value.tree, pos));
    }

    /** `parseOptionalElse(node)`: the If node with its rule number set and,
        with `Else` next, the else-Code appended. */
    method ParseOptionalElse(node: Tree) returns (r: ParseResult)
      requires Valid()
      modifies this
      ensures r == ParserSpec.ParseOptionalElse(tokens, old(pos), node)
      ensures r.Ok? ==> pos == r.value.next
      decreases |tokens| - pos, 26
    {
      if CurrentToken().kind == Some(ELSE) {
        var e := Match(ELSE);
        assert e == None;
        var code := ParseCode();
        if code.Err? { return code; }
        return Ok(Parsed(Node(node.symbol, node.children + [code.value.tree], 11), pos));
      } else {
        return Ok(Parsed(node.(rule := 10), pos));
      }
    }

    method ParseWhile() returns (r: ParseResult)
      requires Valid()
      modifies this
      ensures r == ParserSpec.ParseWhile(tokens, old(pos))
      ensures r.Ok? ==> pos == r.value.next
      decreases |tokens| - pos, 27
    {
      var e := Match(WHILE);
      if e.Some? { return Err(e.value); }
      e := Match(LBRACK);
      if e.Some? { return Err(e.value); }
      var cond := ParseCond();
      if cond.Err? { return cond; }
      e := Match(RBRACK);
      if e.Some? { return Err(e.value); }
      e := Match(DO);
      if e.Some? { return Err(e.value); }
      var body := ParseCode();
      if body.Err? { return body; }
      e := Match(END);
      if e.Some? { return Err(e.value); }
      return Ok(Parsed(Node(Dummy(P_WHILE), [cond.value.tree, body.value.tree], 12), pos));
    }

    method ParseOutput() returns (r: ParseResult)
      requires Valid()
      modifies this
      ensures r == ParserSpec.ParseOutput(tokens, old(pos))
      ensures r.Ok? ==> pos == r.value.next
      decreases |tokens| - pos, 27
    {
      var e := Match(PRINT);
      if e.Some? { return Err(e.value); }
      e := Match(LPAREN);
      if e.Some? { return Err(e.value); }
      var name := Leaf(CurrentToken());
      e := Match(VARNAME);
      if e.Some? { return Err(e.value); }
      e := Match(RPAREN);
      if e.Some? { return Err(e.value); }
      return Ok(Parsed(Node(Dummy(P_OUTPUT), [name], 13), pos));
    }

    method ParseInput() returns (r: ParseResult)
      requires Valid()
      modifies this
      ensures r == ParserSpec.ParseInput(tokens, old(pos))
      ensures r.Ok? ==> pos == r.value.next
      decreases |tokens| - pos, 27
    {
      var e := Match(INPUT);
      if e.Some? { return Err(e.value); }
      e := Match(LPAREN);
      if e.Some? { return Err(e.value); }
      var name := Leaf(CurrentToken());
      e := Match(VARNAME);
      if e.Some? { return Err(e.value); }
      e := Match(RPAREN);
      if e.Some? { return Err(e.value); }
      return Ok(Parsed(Node(Dummy(P_INPUT), [name], 14), pos));
    }

    method ParseCond() returns (r: ParseResult)
      requires Valid()
      modifies this
      ensures r == ParserSpec.ParseCond(tokens, old(pos))
      ensures r.Ok? ==> pos == r.value.next
      decreases |tokens| - pos, 25
    {
      r := ParseCondImpl();
    }

    method ParseCondImpl() returns (r: ParseResult)
      requires Valid()
      modifies this
      ensures r == ParserSpec.ParseCondImpl(tokens, old(pos))
      ensures r.Ok? ==> pos == r.value.next
      decreases |tokens| - pos, 24
    {
      var left := ParseCondBase();
      if left.Err? { return left; }
      if CurrentToken().kind == Some(IMPLIES) {
        var e := Match(IMPLIES);
        assert e == None;
        var right := ParseCondImpl();
        if right.Err? { return right; }
        var arrow := OperatorLeaf(IMPLIES);
        return Ok(Parsed(Node(Dummy(P_COND_IMPL), [left.value.tree, arrow, right.value.tree], 16), pos));
      } else {
        return Ok(Parsed(Node(Dummy(P_COND_IMPL), [left.value.tree], 16), pos));
      }
    }

    method ParseCondBase() returns (r: ParseResult)
      requires Valid()
      modifies this
      ensures r == ParserSpec.ParseCondBase(tokens, old(pos))
      ensures r.Ok? ==> pos == r.value.next
      decreases |tokens| - pos, 23
    {
      if CurrentToken().kind == Some(PIPE) {
        var e := Match(PIPE);
        assert e == None;
        var cond := ParseCond();
        if cond.Err? { return cond; }
        e := Match(PIPE);
        if e.Some? { return Err(e.value); }
        return Ok(Parsed(Node(Dummy(P_COND_BASE), [cond.value.tree], 17), pos));
      } else {
        var left := ParseExprArith();
        if left.Err? { return left; }
        var k := CurrentToken().kind;
        if !IsComparison(k) {
          return Err(ExpectedComparison(k));
        }
        var e := Match(k.value);
        assert e == None;
        var right := ParseExprArith();
        if right.Err? { return right; }
        return Ok(Parsed(Node(Dummy(P_COND_BASE), [left.value.tree, right.value.tree], 18), pos));
      }
    }

    method ParseExprArith() returns (r: ParseResult)
      requires Valid()
      modifies this
      ensures r == ParserSpec.ParseExprArith(tokens, old(pos))
      ensures r.Ok? ==> pos == r.value.next
      decreases |tokens| - pos, 22
    {
      r := ParseExprAddSub();
    }

    /** The loop folds each `(+|-) ExprMulDiv` into a new parent node; at
        every turn, the specification of the whole parse from the entry
        position is the specification of the rest of the loop from the
        current node and position. */
    method ParseExprAddSub() returns (r: ParseResult)
      requires Valid()
      modifies this
      ensures r == ParserSpec.ParseExprAddSub(tokens, old(pos))
      ensures r.Ok? ==> pos == r.value.next
      decreases |tokens| - pos, 21
    {
      var first := ParseExprMulDiv();
      if first.Err? { return first; }
      var node := first.value.tree;
      while IsAddSubOp(CurrentToken().kind)
        invariant Valid()
        invariant ParserSpec.ParseExprAddSub(tokens, old(pos)) == AddSubLoop(tokens, node, pos)
        decreases |tokens| - pos
      {
        var op := CurrentToken().kind.value;
        var e := Match(op);
        assert e == None;
        var right := ParseExprMulDiv();
        if right.Err? { return right; }
        node := Node(Dummy(P_EXPR_ADDSUB), [node, OperatorLeaf(op), right.value.tree], 20);
      }
      return Ok(Parsed(node, pos));
    }

    /** The same loop over `(*|/) ExprUnary`, with rule 21. */
    method ParseExprMulDiv() returns (r: ParseResult)
      requires Valid()
      modifies this
      ensures r == ParserSpec.ParseExprMulDiv(tokens, old(pos))
      ensures r.Ok? ==> pos == r.value.next
      decreases |tokens| - pos, 19
    {
      var first := ParseExprUnary();
      if first.Err? { return first; }
      var node := first.value.tree;
      while IsMulDivOp(CurrentToken().kind)
        invariant Valid()
        invariant ParserSpec.ParseExprMulDiv(tokens, old(pos)) == MulDivLoop(tokens, node, pos)
        decreases |tokens| - pos
      {
        var op := CurrentToken().kind.value;
        var e := Match(op);
        assert e == None;
        var right := ParseExprUnary();
        if right.Err? { return right; }
        node := Node(Dummy(P_EXPR_MULDIV), [node, OperatorLeaf(op), right.value.tree], 21);
      }
      return Ok(Parsed(node, pos));
    }

    method ParseExprUnary() returns (r: ParseResult)
      requires Valid()
      modifies this
      ensures r == ParserSpec.ParseExprUnary(tokens, old(pos))
      ensures r.Ok? ==> pos == r.value.next
      decreases |tokens| - pos, 17
    {
      if CurrentToken().kind == Some(MINUS) {
        var e := Match(MINUS);
        assert e == None;
        var prim := ParseExprPrimary();
        if prim.Err? { return prim; }
        return Ok(Parsed(Node(Dummy(P_UNARY_MINUS), [prim.value.tree], 22), pos));
      } else {
        var prim := ParseExprPrimary();
        if prim.Err? { return prim; }
        return Ok(Parsed(prim.value.tree.(rule := 23), pos));
      }
    }

    method ParseExprPrimary() returns (r: ParseResult)
      requires Valid()
      modifies this
      ensures r == ParserSpec.ParseExprPrimary(tokens, old(pos))
      ensures r.Ok? ==> pos == r.value.next
      decreases |tokens| - pos, 16
    {
      var k := CurrentToken().kind;
      if k == Some(VARNAME) {
        var leaf := Leaf(CurrentToken()).(rule := 24);
        var e := Match(VARNAME);
        assert e == None;
        return Ok(Parsed(leaf, pos));
      } else if k == Some(NUMBER) {
        var leaf := Leaf(CurrentToken()).(rule := 25);
        var e := Match(NUMBER);
        assert e == None;
        return Ok(Parsed(leaf, pos));
      } else if k == Some(LPAREN) {
        var e := Match(LPAREN);
        assert e == None;
        var inner := ParseExprArith();
        if inner.Err? { return inner; }
        e := Match(RPAREN);
        if e.Some? { return Err(e.value); }
        return Ok(Parsed(inner.value.tree.(rule := 26), pos));
      } else {
        return Err(UnexpectedInExpression(k));
      }
    }
  }
}
