/** Properties of the parser functions: the shape of the tree each grammar
    rule builds, associativity of the binary operators, the error cases and a
    few complete parses of small inputs. Each shape lemma takes a successful
    result `p` of one parse function and describes it. */
module ParserProperties {
  import opened Wrappers
  import opened Grammar
  import opened Symbols
  import opened ParseTrees
  import opened ParserSpec

  /** `tree` is `left`, parsed up to `start`, after the folds the `+`/`-`
      loop made over the tokens up to `end`. Each fold sits on the position
      `q` of its operator: it is a rule-20 node whose child 0 is the fold up to
      `q`, whose child 1 is the leaf of the operator found at `q`, and whose
      child 2 is the ExprMulDiv parsed right after `q`, which ends at `end`. */
  ghost predicate AddSubFold(toks: seq<Symbol>, left: Tree, start: nat, tree: Tree, end: nat)
    decreases tree
  {
    && start <= end <= |toks|
    && (|| (tree == left && end == start)
        || exists q: nat ::
             && start <= q < end
             && tree.symbol == Dummy(P_EXPR_ADDSUB) && tree.rule == 20 && |tree.children| == 3
             && IsAddSubOp(Kind(toks, q)) && tree.children[1] == OperatorLeaf(Kind(toks, q).value)
             && ParseExprMulDiv(toks, q + 1) == Ok(Parsed(tree.children[2], end))
             && AddSubFold(toks, left, start, tree.children[0], q))
  }

  /** The same for the `*`/`/` loop: rule-21 nodes whose child 2 is the
      ExprUnary parsed right after the operator. */
  ghost predicate MulDivFold(toks: seq<Symbol>, left: Tree, start: nat, tree: Tree, end: nat)
    decreases tree
  {
    && start <= end <= |toks|
    && (|| (tree == left && end == start)
        || exists q: nat ::
             && start <= q < end
             && tree.symbol == Dummy(P_EXPR_MULDIV) && tree.rule == 21 && |tree.children| == 3
             && IsMulDivOp(Kind(toks, q)) && tree.children[1] == OperatorLeaf(Kind(toks, q).value)
             && ParseExprUnary(toks, q + 1) == Ok(Parsed(tree.children[2], end))
             && MulDivFold(toks, left, start, tree.children[0], q))
  }

  /** Folds compose: folding `a` into `b` and then `b` into `c` folds `a`
      into `c`. */
  lemma {:induction false} AddSubFoldTrans(toks: seq<Symbol>, a: Tree, s: nat, b: Tree, m: nat, c: Tree, e: nat)
    requires AddSubFold(toks, a, s, b, m) && AddSubFold(toks, b, m, c, e)
    ensures AddSubFold(toks, a, s, c, e)
    decreases c
  {
    if !(c == b && e == m) {
      var q: nat :|
        && m <= q < e
        && c.symbol == Dummy(P_EXPR_ADDSUB) && c.rule == 20 && |c.children| == 3
        && IsAddSubOp(Kind(toks, q)) && c.children[1] == OperatorLeaf(Kind(toks, q).value)
        && ParseExprMulDiv(toks, q + 1) == Ok(Parsed(c.children[2], e))
        && AddSubFold(toks, b, m, c.children[0], q);
      AddSubFoldTrans(toks, a, s, b, m, c.children[0], q);
    }
  }

  lemma {:induction false} MulDivFoldTrans(toks: seq<Symbol>, a: Tree, s: nat, b: Tree, m: nat, c: Tree, e: nat)
    requires MulDivFold(toks, a, s, b, m) && MulDivFold(toks, b, m, c, e)
    ensures MulDivFold(toks, a, s, c, e)
    decreases c
  {
    if !(c == b && e == m) {
      var q: nat :|
        && m <= q < e
        && c.symbol == Dummy(P_EXPR_MULDIV) && c.rule == 21 && |c.children| == 3
        && IsMulDivOp(Kind(toks, q)) && c.children[1] == OperatorLeaf(Kind(toks, q).value)
        && ParseExprUnary(toks, q + 1) == Ok(Parsed(c.children[2], e))
        && MulDivFold(toks, b, m, c.children[0], q);
      MulDivFoldTrans(toks, a, s, b, m, c.children[0], q);
    }
  }

  /** Every iteration of the `+`/`-` loop pushes the tree built so far down to
      child 0 of a new rule-20 node whose other children are the operator
      just read and the operand parsed after it: the result folds `node` over
      the tokens the loop consumed, and the loop stops at a token that is
      neither `+` nor `-`. */
  lemma {:induction false} AddSubLoopFoldsLeft(toks: seq<Symbol>, node: Tree, pos: nat, p: Parsed)
    requires pos <= |toks|
    requires AddSubLoop(toks, node, pos) == Ok(p)
    ensures AddSubFold(toks, node, pos, p.tree, p.next)
    ensures !IsAddSubOp(Kind(toks, p.next))
    decreases |toks| - pos
  {
    var k := Kind(toks, pos);
    if IsAddSubOp(k) {
      var right := ParseExprMulDiv(toks, pos + 1).value;
      var parent := Node(Dummy(P_EXPR_ADDSUB), [node, OperatorLeaf(k.value), right.tree], 20);
      assert AddSubFold(toks, node, pos, node, pos);
      assert AddSubFold(toks, node, pos, parent, right.next);
      AddSubLoopFoldsLeft(toks, parent, right.next, p);
      AddSubFoldTrans(toks, node, pos, parent, right.next, p.tree, p.next);
    } else {
      assert AddSubFold(toks, node, pos, node, pos);
    }
  }

  /** The same for the `*`/`/` loop and its rule-21 nodes. */
  lemma {:induction false} MulDivLoopFoldsLeft(toks: seq<Symbol>, node: Tree, pos: nat, p: Parsed)
    requires pos <= |toks|
    requires MulDivLoop(toks, node, pos) == Ok(p)
    ensures MulDivFold(toks, node, pos, p.tree, p.next)
    ensures !IsMulDivOp(Kind(toks, p.next))
    decreases |toks| - pos
  {
    var k := Kind(toks, pos);
    if IsMulDivOp(k) {
      var right := ParseExprUnary(toks, pos + 1).value;
      var parent := Node(Dummy(P_EXPR_MULDIV), [node, OperatorLeaf(k.value), right.tree], 21);
      assert MulDivFold(toks, node, pos, node, pos);
      assert MulDivFold(toks, node, pos, parent, right.next);
      MulDivLoopFoldsLeft(toks, parent, right.next, p);
      MulDivFoldTrans(toks, node, pos, parent, right.next, p.tree, p.next);
    } else {
      assert MulDivFold(toks, node, pos, node, pos);
    }
  }

  /** A whole ExprAddSub is its first ExprMulDiv folded over the rest. */
  lemma AddSubAssociatesLeft(toks: seq<Symbol>, pos: nat, p: Parsed)
    requires pos <= |toks|
    requires ParseExprAddSub(toks, pos) == Ok(p)
    ensures ParseExprMulDiv(toks, pos).Ok?
    ensures var first := ParseExprMulDiv(toks, pos).value;
      AddSubFold(toks, first.tree, first.next, p.tree, p.next) && !IsAddSubOp(Kind(toks, p.next))
  {
    var first := ParseExprMulDiv(toks, pos).value;
    AddSubLoopFoldsLeft(toks, first.tree, first.next, p);
  }

  /** A whole ExprMulDiv is its first ExprUnary folded over the rest. */
  lemma MulDivAssociatesLeft(toks: seq<Symbol>, pos: nat, p: Parsed)
    requires pos <= |toks|
    requires ParseExprMulDiv(toks, pos) == Ok(p)
    ensures ParseExprUnary(toks, pos).Ok?
    ensures var first := ParseExprUnary(toks, pos).value;
      MulDivFold(toks, first.tree, first.next, p.tree, p.next) && !IsMulDivOp(Kind(toks, p.next))
  {
    var first := ParseExprUnary(toks, pos).value;
    MulDivLoopFoldsLeft(toks, first.tree, first.next, p);
  }

  /** The labels of the parser's nodes tell the grammar rules apart: two
      dummies are equal exactly when they name the same non-terminal. */
  lemma DummiesDistinct(a: ParserNonTerminal, b: ParserNonTerminal)
    ensures Equals(Dummy(a), Dummy(b)) <==> a == b
  {
    if ParserTagName(a) == ParserTagName(b) {
      assert ParserTagName(a)[0] == ParserTagName(b)[0];
    }
  }

  /** A successful Program parse consumed `Prog PROGNAME Is` and built a
      rule-1 node whose children are the PROGNAME leaf and the Code tree
      parsed right after `Is`, which is followed by the closing `End`. */
  lemma ProgramShape(toks: seq<Symbol>, pos: nat, p: Parsed)
    requires pos <= |toks|
    requires ParseProgram(toks, pos) == Ok(p)
    ensures Kind(toks, pos) == Some(PROG) && Kind(toks, pos + 1) == Some(PROGNAME) && Kind(toks, pos + 2) == Some(IS)
    ensures p.tree.rule == 1 && pos + 3 <= |toks| && ParseCode(toks, pos + 3).Ok?
    ensures var code := ParseCode(toks, pos + 3).value;
      && p.tree.children == [Leaf(toks[pos + 1]), code.tree]
      && Kind(toks, code.next) == Some(END) && p.next == code.next + 1
  {
  }

  /** The last token a Program consumes is `End`. */
  lemma ProgramEndsWithEnd(toks: seq<Symbol>, pos: nat, p: Parsed)
    requires pos <= |toks|
    requires ParseProgram(toks, pos) == Ok(p)
    ensures pos + 4 <= p.next && toks[p.next - 1].kind == Some(END)
  {
  }

  /** A stream that does not start with `Prog` fails at once, reporting the
      position and kind of the token found. */
  lemma ProgramRejectsMissingProg(toks: seq<Symbol>, pos: nat)
    requires pos <= |toks|
    requires Kind(toks, pos) != Some(PROG)
    ensures ParseProgram(toks, pos) == Err(Mismatch(Current(toks, pos).line, Current(toks, pos).column, PROG, Kind(toks, pos)))
  {
  }

  /** Code: with an instruction start ahead, rule 2 and [Instruction, Code]
      with a `;` consumed between them; with anything else ahead, rule 3, no
      children and nothing consumed. */
  lemma CodeShape(toks: seq<Symbol>, pos: nat, p: Parsed)
    requires pos <= |toks|
    requires ParseCode(toks, pos) == Ok(p)
    ensures StartsInstruction(Kind(toks, pos)) ==>
      && ParseInstruction(toks, pos).Ok?
      && var ins := ParseInstruction(toks, pos).value;
      && Kind(toks, ins.next) == Some(SEMI)
      && p.tree.rule == 2 && p.tree.children == [ins.tree, p.tree.children[1]]
      && ParseCode(toks, ins.next + 1) == Ok(Parsed(p.tree.children[1], p.next))
    ensures !StartsInstruction(Kind(toks, pos)) ==> p.tree.rule == 3 && p.tree.children == [] && p.next == pos
  {
  }

  /** Code -> epsilon never fails. */
  lemma CodeEmpty(toks: seq<Symbol>, pos: nat)
    requires pos <= |toks|
    requires !StartsInstruction(Kind(toks, pos))
    ensures ParseCode(toks, pos) == Ok(Parsed(Node(Dummy(P_CODE), [], 3), pos))
  {
  }

  /** Instruction dispatches on the lookahead to exactly one statement parser
      and wraps its tree in a single-child node whose rule number stays
      unset. */
  lemma InstructionDispatch(toks: seq<Symbol>, pos: nat, p: Parsed)
    requires pos <= |toks|
    requires ParseInstruction(toks, pos) == Ok(p)
    ensures StartsInstruction(Kind(toks, pos))
    ensures p.tree.rule == NoRule && |p.tree.children| == 1
    ensures Kind(toks, pos) == Some(VARNAME) ==> ParseAssign(toks, pos) == Ok(Parsed(p.tree.children[0], p.next))
    ensures Kind(toks, pos) == Some(IF) ==> ParseIf(toks, pos) == Ok(Parsed(p.tree.children[0], p.next))
    ensures Kind(toks, pos) == Some(WHILE) ==> ParseWhile(toks, pos) == Ok(Parsed(p.tree.children[0], p.next))
    ensures Kind(toks, pos) == Some(PRINT) ==> ParseOutput(toks, pos) == Ok(Parsed(p.tree.children[0], p.next))
    ensures Kind(toks, pos) == Some(INPUT) ==> ParseInput(toks, pos) == Ok(Parsed(p.tree.children[0], p.next))
  {
  }

  /** Any other lookahead is a syntax error naming the token found. */
  lemma InstructionRejectsOther(toks: seq<Symbol>, pos: nat)
    requires pos <= |toks|
    requires !StartsInstruction(Kind(toks, pos))
    ensures ParseInstruction(toks, pos) == Err(UnexpectedToken(Kind(toks, pos)))
  {
  }

  /** Assign: [VARNAME leaf, the expression tree itself] with rule 9. */
  lemma AssignShape(toks: seq<Symbol>, pos: nat, p: Parsed)
    requires pos <= |toks|
    requires ParseAssign(toks, pos) == Ok(p)
    ensures Kind(toks, pos) == Some(VARNAME) && Kind(toks, pos + 1) == Some(ASSIGN)
    ensures p.tree.rule == 9 && |p.tree.children| == 2 && p.tree.children[0] == Leaf(toks[pos])
    ensures ParseExprArith(toks, pos + 2) == Ok(Parsed(p.tree.children[1], p.next))
  {
  }

  /** OptionalElse: with `Else` ahead, the else-Code is appended as a new last
      child and the rule becomes 11; the existing children are kept. */
  lemma OptionalElseShape(toks: seq<Symbol>, pos: nat, node: Tree, p: Parsed)
    requires pos <= |toks|
    requires Kind(toks, pos) == Some(ELSE)
    requires ParseOptionalElse(toks, pos, node) == Ok(p)
    ensures p.tree.rule == 11 && |p.tree.children| == |node.children| + 1
    ensures p.tree.children[..|node.children|] == node.children
    ensures ParseCode(toks, pos + 1) == Ok(Parsed(p.tree.children[|node.children|], p.next))
  {
  }

  /** Without `Else` ahead, only the rule number changes, to 10. */
  lemma OptionalElseAbsent(toks: seq<Symbol>, pos: nat, node: Tree)
    requires pos <= |toks|
    requires Kind(toks, pos) != Some(ELSE)
    ensures ParseOptionalElse(toks, pos, node) == Ok(Parsed(node.(rule := 10), pos))
  {
  }

  /** If: `If {` then a Cond, `} Then` and a Code, which are children 0 and
      1; with `Else` after that Code, rule 11 and the else-Code parsed after
      `Else` as child 2, otherwise rule 10 and no child 2; `End` last. */
  lemma IfShape(toks: seq<Symbol>, pos: nat, p: Parsed)
    requires pos <= |toks|
    requires ParseIf(toks, pos) == Ok(p)
    ensures Kind(toks, pos) == Some(IF) && Kind(toks, pos + 1) == Some(LBRACK)
    ensures (p.tree.rule == 10 && |p.tree.children| == 2) || (p.tree.rule == 11 && |p.tree.children| == 3)
    ensures pos + 2 <= |toks| && ParseCond(toks, pos + 2).Ok?
    ensures var c := ParseCond(toks, pos + 2).value;
      && c.tree == p.tree.children[0]
      && Kind(toks, c.next) == Some(RBRACK) && Kind(toks, c.next + 1) == Some(THEN)
      && c.next + 2 <= |toks| && ParseCode(toks, c.next + 2).Ok?
      && var body := ParseCode(toks, c.next + 2).value;
      && body.tree == p.tree.children[1]
      && (p.tree.rule == 11 <==> Kind(toks, body.next) == Some(ELSE))
      && (p.tree.rule == 10 ==> p.next == body.next + 1 && Kind(toks, body.next) == Some(END))
      && (p.tree.rule == 11 ==>
            && body.next + 1 <= |toks| && ParseCode(toks, body.next + 1).Ok?
            && var alt := ParseCode(toks, body.next + 1).value;
            alt.tree == p.tree.children[2] && Kind(toks, alt.next) == Some(END) && p.next == alt.next + 1)
  {
    var c := ParseCond(toks, pos + 2).value;
    var body := ParseCode(toks, c.next + 2).value;
    var node := Node(Dummy(P_IF), [c.tree, body.tree], NoRule);
    var w := ParseOptionalElse(toks, body.next, node).value;
    assert Kind(toks, w.next) == Some(END) && p == Parsed(w.tree, w.next + 1);
    if Kind(toks, body.next) == Some(ELSE) {
      OptionalElseShape(toks, body.next, node, w);
    } else {
      OptionalElseAbsent(toks, body.next, node);
    }
  }

  /** With or without an else branch, the last token an If consumes is
      `End`. */
  lemma IfEndsWithEnd(toks: seq<Symbol>, pos: nat, p: Parsed)
    requires pos <= |toks|
    requires ParseIf(toks, pos) == Ok(p)
    ensures pos + 5 <= p.next && toks[p.next - 1].kind == Some(END)
  {
  }

  /** While: `While {` then a Cond, `} Do` and a Code, which are children 0
      and 1 of a rule-12 node; `End` last. */
  lemma WhileShape(toks: seq<Symbol>, pos: nat, p: Parsed)
    requires pos <= |toks|
    requires ParseWhile(toks, pos) == Ok(p)
    ensures Kind(toks, pos) == Some(WHILE) && Kind(toks, pos + 1) == Some(LBRACK)
    ensures p.tree.rule == 12 && pos + 2 <= |toks| && ParseCond(toks, pos + 2).Ok?
    ensures var c := ParseCond(toks, pos + 2).value;
      && Kind(toks, c.next) == Some(RBRACK) && Kind(toks, c.next + 1) == Some(DO)
      && c.next + 2 <= |toks| && ParseCode(toks, c.next + 2).Ok?
      && var body := ParseCode(toks, c.next + 2).value;
      && p.tree.children == [c.tree, body.tree]
      && Kind(toks, body.next) == Some(END) && p.next == body.next + 1
  {
    var c, body := WhileParts(toks, pos, p);
  }

  /** The Cond and Code parses a successful While parse is built from. */
  lemma WhileParts(toks: seq<Symbol>, pos: nat, p: Parsed) returns (c: Parsed, body: Parsed)
    requires pos <= |toks|
    requires ParseWhile(toks, pos) == Ok(p)
    ensures Kind(toks, pos) == Some(WHILE) && Kind(toks, pos + 1) == Some(LBRACK)
    ensures pos + 2 <= |toks| && ParseCond(toks, pos + 2) == Ok(c)
    ensures Kind(toks, c.next) == Some(RBRACK) && Kind(toks, c.next + 1) == Some(DO)
    ensures c.next + 2 <= |toks| && ParseCode(toks, c.next + 2) == Ok(body)
    ensures Kind(toks, body.next) == Some(END)
    ensures p == Parsed(Node(Dummy(P_WHILE), [c.tree, body.tree], 12), body.next + 1)
  {
    c := ParseCond(toks, pos + 2).value;
    body := ParseCode(toks, c.next + 2).value;
  }

  /** Output: `Print ( VARNAME )`, four tokens, one VARNAME leaf, rule 13. */
  lemma OutputShape(toks: seq<Symbol>, pos: nat, p: Parsed)
    requires pos <= |toks|
    requires ParseOutput(toks, pos) == Ok(p)
    ensures p.next == pos + 4 && Kind(toks, pos) == Some(PRINT) && toks[pos + 2].kind == Some(VARNAME)
    ensures p.tree == Node(Dummy(P_OUTPUT), [Leaf(toks[pos + 2])], 13)
  {
  }

  /** Input: `Input ( VARNAME )`, four tokens, one VARNAME leaf, rule 14. */
  lemma InputShape(toks: seq<Symbol>, pos: nat, p: Parsed)
    requires pos <= |toks|
    requires ParseInput(toks, pos) == Ok(p)
    ensures p.next == pos + 4 && Kind(toks, pos) == Some(INPUT) && toks[pos + 2].kind == Some(VARNAME)
    ensures p.tree == Node(Dummy(P_INPUT), [Leaf(toks[pos + 2])], 14)
  {
  }

  /** Cond and ExprArith add no node of their own. */
  lemma PassThroughLevels(toks: seq<Symbol>, pos: nat)
    requires pos <= |toks|
    ensures ParseCond(toks, pos) == ParseCondImpl(toks, pos)
    ensures ParseExprArith(toks, pos) == ParseExprAddSub(toks, pos)
  {
  }

  /** CondImpl: rule 16, child 0 the CondBase tree, and one or three
      children. */
  lemma CondImplShape(toks: seq<Symbol>, pos: nat, p: Parsed)
    requires pos <= |toks|
    requires ParseCondImpl(toks, pos) == Ok(p)
    ensures ParseCondBase(toks, pos).Ok?
    ensures p.tree.rule == 16 && (|p.tree.children| == 1 || |p.tree.children| == 3)
    ensures p.tree.children[0] == ParseCondBase(toks, pos).value.tree
  {
  }

  /** With `->` after the left operand: [CondBase, `->` leaf, CondImpl], the
      right operand being a whole CondImpl, so chains nest to the right. */
  lemma CondImplNestsRight(toks: seq<Symbol>, pos: nat, left: Parsed, p: Parsed)
    requires pos <= |toks|
    requires ParseCondBase(toks, pos) == Ok(left)
    requires Kind(toks, left.next) == Some(IMPLIES)
    requires ParseCondImpl(toks, pos) == Ok(p)
    ensures |p.tree.children| == 3 && p.tree.children[1] == OperatorLeaf(IMPLIES)
    ensures ParseCondImpl(toks, left.next + 1) == Ok(Parsed(p.tree.children[2], p.next))
  {
  }

  /** Without `->` after it, the left operand alone is wrapped. */
  lemma CondImplSingle(toks: seq<Symbol>, pos: nat, left: Parsed)
    requires pos <= |toks|
    requires ParseCondBase(toks, pos) == Ok(left)
    requires Kind(toks, left.next) != Some(IMPLIES)
    ensures ParseCondImpl(toks, pos) == Ok(Parsed(Node(Dummy(P_COND_IMPL), [left.tree], 16), left.next))
  {
  }

  /** CondBase: `| Cond |` gives rule 17 whose one child is the Cond tree
      parsed after the first `|`, the second `|` closing it; otherwise rule 18
      with the two expression trees, a comparison operator having been
      consumed between them and not stored. */
  lemma CondBaseShape(toks: seq<Symbol>, pos: nat, p: Parsed)
    requires pos <= |toks|
    requires ParseCondBase(toks, pos) == Ok(p)
    ensures Kind(toks, pos) == Some(PIPE) ==>
      && p.tree.rule == 17 && pos + 1 <= |toks| && ParseCond(toks, pos + 1).Ok?
      && var c := ParseCond(toks, pos + 1).value;
      && p.tree.children == [c.tree]
      && Kind(toks, c.next) == Some(PIPE) && p.next == c.next + 1
    ensures Kind(toks, pos) != Some(PIPE) ==>
      && ParseExprArith(toks, pos).Ok?
      && var left := ParseExprArith(toks, pos).value;
      && IsComparison(Kind(toks, left.next))
      && p.tree.rule == 18 && p.tree.children == [left.tree, p.tree.children[1]]
      && ParseExprArith(toks, left.next + 1) == Ok(Parsed(p.tree.children[1], p.next))
  {
  }

  /** An expression followed by anything other than `=`, `<=` or `<` is not a
      comparison: the parse fails naming the token found. */
  lemma CondBaseRejectsNonComparison(toks: seq<Symbol>, pos: nat, left: Parsed)
    requires pos <= |toks|
    requires Kind(toks, pos) != Some(PIPE)
    requires ParseExprArith(toks, pos) == Ok(left)
    requires !IsComparison(Kind(toks, left.next))
    ensures ParseCondBase(toks, pos) == Err(ExpectedComparison(Kind(toks, left.next)))
  {
  }

  /** The loops stop at once when no operator of their level is ahead: the
      tree built so far comes back unchanged. */
  lemma LoopsStopWithoutOperator(toks: seq<Symbol>, node: Tree, pos: nat)
    requires pos <= |toks|
    ensures !IsAddSubOp(Kind(toks, pos)) ==> AddSubLoop(toks, node, pos) == Ok(Parsed(node, pos))
    ensures !IsMulDivOp(Kind(toks, pos)) ==> MulDivLoop(toks, node, pos) == Ok(Parsed(node, pos))
  {
  }

  /** A negation wraps the primary in a rule-22 UNARY_MINUS node. */
  lemma UnaryMinusShape(toks: seq<Symbol>, pos: nat, p: Parsed)
    requires pos <= |toks|
    requires Kind(toks, pos) == Some(MINUS)
    requires ParseExprUnary(toks, pos) == Ok(p)
    ensures p.tree.symbol == Dummy(P_UNARY_MINUS) && p.tree.rule == 22 && |p.tree.children| == 1
    ensures ParseExprPrimary(toks, pos + 1) == Ok(Parsed(p.tree.children[0], p.next))
  {
  }

  /** A primary that is not negated comes back with its rule number
      overwritten to 23 and nothing else changed. */
  lemma UnaryPlainShape(toks: seq<Symbol>, pos: nat, p: Parsed)
    requires pos <= |toks|
    requires Kind(toks, pos) != Some(MINUS)
    requires ParseExprUnary(toks, pos) == Ok(p)
    ensures ParseExprPrimary(toks, pos).Ok?
    ensures p == Parsed(ParseExprPrimary(toks, pos).value.tree.(rule := 23), ParseExprPrimary(toks, pos).value.next)
  {
  }

  /** A variable or a number is a single leaf (rules 24 and 25); any token
      that cannot start a primary is an error naming it. */
  lemma PrimaryCases(toks: seq<Symbol>, pos: nat)
    requires pos <= |toks|
    ensures Kind(toks, pos) == Some(VARNAME) ==> ParseExprPrimary(toks, pos) == Ok(Parsed(Leaf(toks[pos]).(rule := 24), pos + 1))
    ensures Kind(toks, pos) == Some(NUMBER) ==> ParseExprPrimary(toks, pos) == Ok(Parsed(Leaf(toks[pos]).(rule := 25), pos + 1))
    ensures Kind(toks, pos) !in {Some(VARNAME), Some(NUMBER), Some(LPAREN)} ==>
      ParseExprPrimary(toks, pos) == Err(UnexpectedInExpression(Kind(toks, pos)))
  {
  }

  /** Parentheses add no node: the inner expression tree comes back with its
      rule number set to 26, and both parentheses are consumed. */
  lemma ParenthesesAddNoNode(toks: seq<Symbol>, pos: nat, p: Parsed)
    requires pos <= |toks|
    requires Kind(toks, pos) == Some(LPAREN)
    requires ParseExprPrimary(toks, pos) == Ok(p)
    ensures ParseExprArith(toks, pos + 1).Ok?
    ensures var inner := ParseExprArith(toks, pos + 1).value;
      && Kind(toks, inner.next) == Some(RPAREN)
      && p == Parsed(inner.tree.(rule := 26), inner.next + 1)
  {
  }

  /** A NUMBER as an ExprUnary: the leaf, with the rule number 23 that the
      unary level writes over the primary's 25. */
  lemma NumberUnary(toks: seq<Symbol>, pos: nat)
    requires pos + 1 <= |toks|
    requires Kind(toks, pos) == Some(NUMBER)
    ensures ParseExprUnary(toks, pos) == Ok(Parsed(Leaf(toks[pos]).(rule := 23), pos + 1))
  {
    PrimaryCases(toks, pos);
  }

  /** A NUMBER not followed by `*` or `/` is a whole ExprMulDiv. */
  lemma LoneNumberProduct(toks: seq<Symbol>, pos: nat)
    requires pos + 1 <= |toks|
    requires Kind(toks, pos) == Some(NUMBER) && !IsMulDivOp(Kind(toks, pos + 1))
    ensures ParseExprMulDiv(toks, pos) == Ok(Parsed(Leaf(toks[pos]).(rule := 23), pos + 1))
  {
    NumberUnary(toks, pos);
    LoopsStopWithoutOperator(toks, Leaf(toks[pos]).(rule := 23), pos + 1);
  }

  /** `a - b - c` over three numbers parses as `(a - b) - c`: the first
      difference is child 0 of the second. */
  lemma SubtractionAssociatesLeft(toks: seq<Symbol>, pos: nat)
    requires pos + 5 <= |toks|
    requires Kind(toks, pos) == Some(NUMBER) && Kind(toks, pos + 1) == Some(MINUS)
    requires Kind(toks, pos + 2) == Some(NUMBER) && Kind(toks, pos + 3) == Some(MINUS)
    requires Kind(toks, pos + 4) == Some(NUMBER)
    requires !IsMulDivOp(Kind(toks, pos + 5)) && !IsAddSubOp(Kind(toks, pos + 5))
    ensures var a, b, c := Leaf(toks[pos]).(rule := 23), Leaf(toks[pos + 2]).(rule := 23), Leaf(toks[pos + 4]).(rule := 23);
      var ab := Node(Dummy(P_EXPR_ADDSUB), [a, OperatorLeaf(MINUS), b], 20);
      ParseExprAddSub(toks, pos) == Ok(Parsed(Node(Dummy(P_EXPR_ADDSUB), [ab, OperatorLeaf(MINUS), c], 20), pos + 5))
  {
    var a, b, c := Leaf(toks[pos]).(rule := 23), Leaf(toks[pos + 2]).(rule := 23), Leaf(toks[pos + 4]).(rule := 23);
    var ab := Node(Dummy(P_EXPR_ADDSUB), [a, OperatorLeaf(MINUS), b], 20);
    var abc := Node(Dummy(P_EXPR_ADDSUB), [ab, OperatorLeaf(MINUS), c], 20);
    LoneNumberProduct(toks, pos);
    LoneNumberProduct(toks, pos + 2);
    LoneNumberProduct(toks, pos + 4);
    LoopsStopWithoutOperator(toks, abc, pos + 5);
    assert AddSubLoop(toks, ab, pos + 3) == Ok(Parsed(abc, pos + 5));
    assert AddSubLoop(toks, a, pos + 1) == AddSubLoop(toks, ab, pos + 3);
  }

  /** `a / b / c` over three numbers parses as `(a / b) / c`. */
  lemma DivisionAssociatesLeft(toks: seq<Symbol>, pos: nat)
    requires pos + 5 <= |toks|
    requires Kind(toks, pos) == Some(NUMBER) && Kind(toks, pos + 1) == Some(DIVIDE)
    requires Kind(toks, pos + 2) == Some(NUMBER) && Kind(toks, pos + 3) == Some(DIVIDE)
    requires Kind(toks, pos + 4) == Some(NUMBER)
    requires !IsMulDivOp(Kind(toks, pos + 5))
    ensures var a, b, c := Leaf(toks[pos]).(rule := 23), Leaf(toks[pos + 2]).(rule := 23), Leaf(toks[pos + 4]).(rule := 23);
      var ab := Node(Dummy(P_EXPR_MULDIV), [a, OperatorLeaf(DIVIDE), b], 21);
      ParseExprMulDiv(toks, pos) == Ok(Parsed(Node(Dummy(P_EXPR_MULDIV), [ab, OperatorLeaf(DIVIDE), c], 21), pos + 5))
  {
    var a, b, c := Leaf(toks[pos]).(rule := 23), Leaf(toks[pos + 2]).(rule := 23), Leaf(toks[pos + 4]).(rule := 23);
    var ab := Node(Dummy(P_EXPR_MULDIV), [a, OperatorLeaf(DIVIDE), b], 21);
    var abc := Node(Dummy(P_EXPR_MULDIV), [ab, OperatorLeaf(DIVIDE), c], 21);
    NumberUnary(toks, pos);
    NumberUnary(toks, pos + 2);
    NumberUnary(toks, pos + 4);
    LoopsStopWithoutOperator(toks, abc, pos + 5);
    assert MulDivLoop(toks, ab, pos + 3) == Ok(Parsed(abc, pos + 5));
    assert MulDivLoop(toks, a, pos + 1) == MulDivLoop(toks, ab, pos + 3);
  }

  /** An expression that is a lone number: the NUMBER leaf itself comes back
      through every level, carrying the rule number 23 that the unary level
      wrote last. */
  lemma LoneNumberExpression(toks: seq<Symbol>, pos: nat)
    requires pos + 1 <= |toks|
    requires Kind(toks, pos) == Some(NUMBER)
    requires !IsMulDivOp(Kind(toks, pos + 1)) && !IsAddSubOp(Kind(toks, pos + 1))
    ensures ParseExprArith(toks, pos) == Ok(Parsed(Leaf(toks[pos]).(rule := 23), pos + 1))
  {
    LoneNumberProduct(toks, pos);
    LoopsStopWithoutOperator(toks, Leaf(toks[pos]).(rule := 23), pos + 1);
  }

  /** `a = 5`: the NUMBER leaf is the Assign node's child 1, next to the
      VARNAME leaf. */
  lemma AssignNumberExample(toks: seq<Symbol>, pos: nat)
    requires pos + 3 <= |toks|
    requires Kind(toks, pos) == Some(VARNAME) && Kind(toks, pos + 1) == Some(ASSIGN) && Kind(toks, pos + 2) == Some(NUMBER)
    requires !IsMulDivOp(Kind(toks, pos + 3)) && !IsAddSubOp(Kind(toks, pos + 3))
    ensures ParseAssign(toks, pos) == Ok(Parsed(Node(Dummy(P_ASSIGN), [Leaf(toks[pos]), Leaf(toks[pos + 2]).(rule := 23)], 9), pos + 3))
  {
    LoneNumberExpression(toks, pos + 2);
  }
}
