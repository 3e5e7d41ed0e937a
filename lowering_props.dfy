/** Properties of the lowering functions: identifiers are never issued twice,
    the variable table behaves as a memo, and each construct emits the
    skeleton of lines that src/LLVMIRGenerator.java writes for it. */
module LoweringProperties {
  import opened Wrappers
  import opened Grammar
  import opened Text
  import opened Symbols
  import opened ParseTrees
  import opened LoweringSpec

  // ---- identifiers ---------------------------------------------------------

  /** Different counters give different temporaries. */
  lemma TempNameInjective(m: nat, n: nat)
    requires TempName(m) == TempName(n)
    ensures m == n
  {
    assert TempName(m)[1..] == NatToString(m);
    assert TempName(n)[1..] == NatToString(n);
    NatToStringInjective(m, n);
  }

  /** Different counters give different labels. */
  lemma LabelNameInjective(m: nat, n: nat)
    requires LabelName(m) == LabelName(n)
    ensures m == n
  {
    assert LabelName(m)[5..] == NatToString(m);
    assert LabelName(n)[5..] == NatToString(n);
    NatToStringInjective(m, n);
  }

  /** Temporaries, labels and variable slots never collide: a temporary is
      `%` and digits, a slot is `%var_...`, a label starts with a letter. */
  lemma NamespacesDisjoint(m: nat, n: nat, name: Option<string>)
    ensures TempName(m) != LabelName(n)
    ensures TempName(m) != SlotName(name)
    ensures LabelName(n) != SlotName(name)
  {
    assert TempName(m)[0] == '%' && LabelName(n)[0] == 'l';
    assert SlotName(name)[1] == 'v';
    assert TempName(m)[1] == NatToString(m)[0];
  }

  /** A temporary issued at some point is never issued again later in the
      run: whatever is lowered after it, the counter is past it. */
  lemma TempNeverReissued(st: GenState, later: GenState)
    requires Grows(NewTemp(st).st, later)
    ensures NewTemp(later).id != NewTemp(st).id
  {
    if NewTemp(later).id == NewTemp(st).id {
      TempNameInjective(later.temps, st.temps);
    }
  }

  /** The same for labels. */
  lemma LabelNeverReissued(st: GenState, later: GenState)
    requires Grows(NewLabel(st).st, later)
    ensures NewLabel(later).id != NewLabel(st).id
  {
    if NewLabel(later).id == NewLabel(st).id {
      LabelNameInjective(later.labels, st.labels);
    }
  }

  // ---- the variable table --------------------------------------------------

  /** `getOrNewI32` is idempotent: asking again for the same name returns the
      same slot and changes nothing. */
  lemma GetOrNewI32Idempotent(st: GenState, name: Option<string>)
    ensures var first := GetOrNewI32(st, name);
            GetOrNewI32(first.st, name) == Named(first.id, first.st)
    ensures GetOrNewI32(st, name).id == if name in st.vars then st.vars[name] else SlotName(name)
  {
  }

  /** Every entry of the table maps a name to its `%var_` slot. */
  predicate SlotsNamed(st: GenState)
  {
    forall k :: k in st.vars ==> st.vars[k] == SlotName(k)
  }

  /** So the slot a name gets is always `%var_<name>`, first time or not. */
  lemma SlotIsNamed(st: GenState, name: Option<string>)
    requires SlotsNamed(st)
    ensures GetOrNewI32(st, name).id == SlotName(name)
    ensures SlotsNamed(GetOrNewI32(st, name).st)
  {
  }

  /** `newInput` reads into a fresh temporary and never stores it: the table
      is unchanged and the two lines are the comment and the call. */
  lemma InputNeverStores(st: GenState, t: Tree)
    requires LowerInput(st, t).Done?
    ensures var r := LowerInput(st, t);
            && r.id == TempName(st.temps)
            && r.st.vars == st.vars
            && r.st.temps == st.temps + 1
            && |t.children| > 0 && t.children[0].symbol.value != NoValue
            && r.st.code == st.code + [Line(st.indent, ReadComment(ValueText(t.children[0].symbol.value))),
                                       Line(st.indent, ReadCall(r.id))]
  {
  }

  // ---- statements ----------------------------------------------------------

  /** Keeps only the state of a lowering, as `newInstructions` discards the
      identifier `newInput` returns. */
  function Void(r: Lowered): Lowered
  {
    if r.Done? then Done("", r.st) else r
  }

  /** `newInstructions` dispatches on the tag of child 0 to one of the five
      statement lowerings and nothing else. */
  lemma InstructionsDispatch(st: GenState, t: Tree)
    ensures |t.children| == 0 ==> LowerInstructions(st, t) == Failed(IndexOutOfBounds)
    ensures |t.children| > 0 ==>
      var c := t.children[0];
      var v := c.symbol.value;
      LowerInstructions(st, t) ==
        if v == NoValue then Failed(NullPointer)
        else if v == Tag(ASSIGN_NT) then LowerAssign(st, c)
        else if v == Tag(IF_NT) then LowerIf(st, c)
        else if v == Tag(WHILE_NT) then LowerWhile(st, c)
        else if v == Tag(OUTPUT) then LowerOutput(st, c)
        else if v == Tag(INPUT_NT) then Void(LowerInput(st, c))
        else Failed(IllegalState)
  {
  }

  // ---- expressions and conditions yield fresh temporaries ------------------

  /** `id` is one of the temporaries issued between states `a` and `b`. */
  predicate IssuedBetween(id: string, a: GenState, b: GenState)
  {
    exists k :: a.temps <= k < b.temps && id == TempName(k)
  }

  lemma IssuedWiden(id: string, a: GenState, b: GenState, a': GenState, b': GenState)
    requires IssuedBetween(id, a, b) && a'.temps <= a.temps && b.temps <= b'.temps
    ensures IssuedBetween(id, a', b')
  {
    var k :| a.temps <= k < b.temps && id == TempName(k);
    assert a'.temps <= k < b'.temps && id == TempName(k);
  }

  /** The temporary a state's counter names next is issued once it moves on. */
  lemma NextIssued(st: GenState, later: GenState)
    requires st.temps < later.temps
    ensures IssuedBetween(TempName(st.temps), st, later)
  {
    assert st.temps <= st.temps < later.temps && TempName(st.temps) == TempName(st.temps);
  }

  /** Every arithmetic expression's value is a temporary issued while it was
      lowered, so no later instruction is confused with it. */
  lemma {:induction false} ArithIssues(st: GenState, t: Tree)
    ensures var r := LowerExprArith(st, t); r.Done? ==> IssuedBetween(r.id, st, r.st)
    decreases t, 3, 0
  {
    if |t.children| > 0 {
      var st1 := Indent(NewLine(st, ArithComment));
      if t.symbol.value == Tag(EXPR_ADDSUB) || t.symbol.value == Tag(EXPR_MULDIV) {
        AddSubIssues(st1, t);
      } else if t.children[0].symbol.value == Tag(EXPR_ADDSUB) {
        AddSubIssues(st1, t.children[0]);
      }
    }
  }

  lemma {:induction false} AddSubIssues(st: GenState, t: Tree)
    ensures var r := LowerExprAddSub(st, t); r.Done? ==> IssuedBetween(r.id, st, r.st)
    decreases t, 2, 0
  {
    if |t.children| > 0 {
      MulDivIssues(st, t.children[0]);
      var first := LowerExprMulDiv(st, t.children[0]);
      if first.Done? {
        AddSubLoopIssues(first.st, t, 1, first.id);
        var r := AddSubLoop(first.st, t, 1, first.id);
        if r.Done? {
          if r.id == first.id {
            IssuedWiden(r.id, st, first.st, st, r.st);
          } else {
            IssuedWiden(r.id, first.st, r.st, st, r.st);
          }
        }
      }
    }
  }

  /** The loop of a sum returns its accumulator when no pair is left, and
      the temporary of the last pair otherwise. */
  lemma {:induction false} AddSubLoopIssues(st: GenState, t: Tree, i: nat, acc: string)
    requires i >= 1
    ensures var r := AddSubLoop(st, t, i, acc); r.Done? ==> r.id == acc || IssuedBetween(r.id, st, r.st)
    decreases |t.children| - i
  {
    if i + 1 < |t.children| {
      var operand := AddSubOperand(st, t, i);
      if operand.Done? {
        var res := NewTemp(operand.st);
        var op := t.children[i].symbol.kind;
        var st2 :=
          if op == Some(PLUS) then NewLine(res.st, BinaryLine(res.id, "add", acc, operand.id))
          else if op == Some(MINUS) then NewLine(res.st, BinaryLine(res.id, "sub", acc, operand.id))
          else res.st;
        AddSubLoopIssues(st2, t, i + 2, res.id);
        var r := AddSubLoop(st2, t, i + 2, res.id);
        if r.Done? {
          if r.id == res.id {
            NextIssued(operand.st, r.st);
            IssuedWiden(r.id, operand.st, r.st, st, r.st);
          } else {
            IssuedWiden(r.id, st2, r.st, st, r.st);
          }
        }
      }
    }
  }

  lemma {:induction false} MulDivIssues(st: GenState, t: Tree)
    ensures var r := LowerExprMulDiv(st, t); r.Done? ==> IssuedBetween(r.id, st, r.st)
    decreases t, 2, 0
  {
    if |t.children| > 0 {
      UnaryIssues(st, t.children[0]);
      var first := LowerExprUnary(st, t.children[0]);
      if first.Done? {
        MulDivLoopIssues(first.st, t, 1, first.id);
        var r := MulDivLoop(first.st, t, 1, first.id);
        if r.Done? {
          if r.id == first.id {
            IssuedWiden(r.id, st, first.st, st, r.st);
          } else {
            IssuedWiden(r.id, first.st, r.st, st, r.st);
          }
        }
      }
    }
  }

  /** The loop of a product, as for a sum. */
  lemma {:induction false} MulDivLoopIssues(st: GenState, t: Tree, i: nat, acc: string)
    requires i >= 1
    ensures var r := MulDivLoop(st, t, i, acc); r.Done? ==> r.id == acc || IssuedBetween(r.id, st, r.st)
    decreases |t.children| - i
  {
    if i + 1 < |t.children| {
      var operand := MulDivOperand(st, t, i);
      if operand.Done? {
        var res := NewTemp(operand.st);
        var op := t.children[i].symbol.kind;
        var st2 :=
          if op == Some(TIMES) then NewLine(res.st, BinaryLine(res.id, "mul", acc, operand.id))
          else if op == Some(DIVIDE) then NewLine(res.st, BinaryLine(res.id, "sdiv", acc, operand.id))
          else res.st;
        MulDivLoopIssues(st2, t, i + 2, res.id);
        var r := MulDivLoop(st2, t, i + 2, res.id);
        if r.Done? {
          if r.id == res.id {
            NextIssued(operand.st, r.st);
            IssuedWiden(r.id, operand.st, r.st, st, r.st);
          } else {
            IssuedWiden(r.id, st2, r.st, st, r.st);
          }
        }
      }
    }
  }

  lemma {:induction false} UnaryIssues(st: GenState, t: Tree)
    ensures var r := LowerExprUnary(st, t); r.Done? ==> IssuedBetween(r.id, st, r.st)
    decreases t, 2, 0
  {
    if |t.children| > 0 {
      var first := t.children[0].symbol;
      if first.kind == Some(MINUS) {
        if |t.children| >= 2 {
          var p := LowerExprPrimary(st, t.children[1]);
          if p.Done? {
            NextIssued(p.st, LowerExprUnary(st, t).st);
            IssuedWiden(TempName(p.st.temps), p.st, LowerExprUnary(st, t).st, st, LowerExprUnary(st, t).st);
          }
        }
      } else if first.value == Tag(EXPR_PRIMARY) {
        PrimaryIssues(st, t.children[0]);
      } else if first.kind == Some(VARNAME) || first.kind == Some(NUMBER) {
        PrimaryIssues(st, t);
      }
    }
  }

  lemma {:induction false} PrimaryIssues(st: GenState, t: Tree)
    ensures var r := LowerExprPrimary(st, t); r.Done? ==> IssuedBetween(r.id, st, r.st)
    decreases t, 1, 0
  {
    var lbl := if |t.children| > 0 then t.children[0].symbol else t.symbol;
    var r := LowerExprPrimary(st, t);
    if lbl.kind == Some(VARNAME) {
      if lbl.value != NoValue {
        var slot := GetOrNewI32(st, Some(ValueText(lbl.value)));
        NextIssued(slot.st, r.st);
        IssuedWiden(r.id, slot.st, r.st, st, r.st);
      }
    } else if lbl.kind == Some(NUMBER) {
      if lbl.value != NoValue {
        NextIssued(st, r.st);
      }
    } else if lbl.kind == Some(LPAREN) && |t.children| >= 2 {
      ArithIssues(st, t.children[1]);
    }
  }

  /** A condition's value is a temporary issued while it was lowered, except
      for an atom holding a nested implication, whose value is "". */
  lemma CondIssues(st: GenState, t: Tree)
    ensures var r := LowerCond(st, t); r.Done? ==> r.id == "" || IssuedBetween(r.id, st, r.st)
  {
    if |t.children| > 0 {
      CondImplIssues(st, t.children[0]);
    }
  }

  lemma CondImplIssues(st: GenState, t: Tree)
    ensures var r := LowerCondImpl(st, t); r.Done? ==> r.id == "" || IssuedBetween(r.id, st, r.st)
  {
    var r := LowerCondImpl(st, t);
    if |t.children| > 0 && r.Done? {
      if t.symbol.value == Tag(COND_ATOM) {
        CondAtomIssues(st, t.children[0]);
      } else {
        var left := LowerCond(st, t.children[0]);
        var right := LowerCond(left.st, t.children[2]);
        var notLeft := NewTemp(NewLine(right.st, ImplicationComment));
        NextIssued(notLeft.st, r.st);
        IssuedWiden(r.id, notLeft.st, r.st, st, r.st);
      }
    }
  }

  /** A comparison's value is the temporary of its `icmp`. */
  lemma CondAtomIssues(st: GenState, t: Tree)
    ensures var r := LowerCondAtom(st, t); r.Done? ==> r.id == "" || IssuedBetween(r.id, st, r.st)
    ensures |t.children| > 0 && t.children[0].symbol.value == Tag(COND_IMPL) ==>
      LowerCondAtom(st, t) == Done("", st)
  {
    var r := LowerCondAtom(st, t);
    if |t.children| > 0 && t.children[0].symbol.value != Tag(COND_IMPL) && r.Done? {
      var c := t.children[0];
      var left := LowerExprArith(st, c.children[0]);
      var right := LowerExprArith(left.st, c.children[2]);
      NextIssued(right.st, r.st);
      IssuedWiden(r.id, right.st, r.st, st, r.st);
    }
  }

  // ---- the skeletons of the statements -------------------------------------

  /** A labelled block opens with its label at the current level and, when
      it has an exit, closes with the jump to it one level deeper; an empty
      block is exactly those lines. */
  lemma BlockShape(st: GenState, t: Tree, head: string, body: Option<Tree>, exit: Option<string>)
    requires body.Some? ==> body.value in t.children
    ensures var r := Block(st, t, head, body, exit);
      r.Done? ==>
        var jump := if exit.Some? then [Line(st.indent + 1, JumpLine(exit.value))] else [];
        && |r.st.code| >= |st.code| + 1 + |jump|
        && r.st.code[|st.code|] == Line(st.indent, LabelLine(head))
        && r.st.code[|r.st.code| - |jump|..] == jump
        && (body.None? ==> r.st.code == st.code + [Line(st.indent, LabelLine(head))] + jump)
  {
  }

  /** The lines of an `if` emitted from line `n` of `code` on at indent
      level `i`: the branch on `cond` to the `then` or the `else` label, the
      `then` block under its label ending with the jump to the end label, the
      `else` label, and the end label alone on the last line, without a
      colon. */
  ghost predicate IfSkeleton(n: nat, code: seq<string>, i: nat, cond: string, thenL: string, elseL: string, endL: string)
  {
    var m := |code|;
    && m >= n + 5
    && code[n..n + 2] == [Line(i, BranchLine(cond, thenL, elseL)), Line(i, LabelLine(thenL))]
    && code[m - 1] == Line(i, endL)
    && exists j :: n + 2 < j < m - 1 &&
         code[j] == Line(i, LabelLine(elseL)) &&
         code[j - 1] == Line(i + 1, JumpLine(endL))
  }

  /** The steps of the blocks of `newIf`: the branch, the `then` block
      ending with the jump to the end label, the `else` block, the end
      label. */
  lemma IfBlocksSteps(st: GenState, t: Tree, cond: string, parts: IfParts)
    requires PartsIn(parts, t.children)
    ensures var r := IfBlocks(st, t, cond, parts);
      r.Done? ==>
        var st1 := NewLine(st.(labels := st.labels + 3), BranchLine(cond, LabelName(st.labels), LabelName(st.labels + 1)));
        var b1 := Block(st1, t, LabelName(st.labels), parts.thenPart, Some(LabelName(st.labels + 2)));
        && parts.thenPart.Some? && b1.Done?
        && var b2 := Block(b1.st, t, LabelName(st.labels + 1), parts.elsePart, None);
           && b2.Done?
           && r.st == NewLine(b2.st, LabelName(st.labels + 2))
  {
  }

  /** The blocks of `newIf` emit the skeleton of an `if` under the next
      three labels of the counter. */
  lemma IfBlocksShape(st: GenState, t: Tree, cond: string, parts: IfParts)
    requires PartsIn(parts, t.children)
    ensures var r := IfBlocks(st, t, cond, parts);
      r.Done? ==>
        && r.st.labels >= st.labels + 3
        && IfSkeleton(|st.code|, r.st.code, st.indent, cond, LabelName(st.labels), LabelName(st.labels + 1), LabelName(st.labels + 2))
  {
    var r := IfBlocks(st, t, cond, parts);
    if r.Done? {
      IfBlocksSteps(st, t, cond, parts);
      var thenL := LabelName(st.labels);
      var elseL := LabelName(st.labels + 1);
      var endL := LabelName(st.labels + 2);
      var st1 := NewLine(st.(labels := st.labels + 3), BranchLine(cond, thenL, elseL));
      BlockShape(st1, t, thenL, parts.thenPart, Some(endL));
      var b1 := Block(st1, t, thenL, parts.thenPart, Some(endL));
      BlockShape(b1.st, t, elseL, parts.elsePart, None);
      var b2 := Block(b1.st, t, elseL, parts.elsePart, None);
      IfLines(st.code, st1.code, b1.st.code, b2.st.code, r.st.code, st.indent, cond, thenL, elseL, endL);
    }
  }

  /** The line arithmetic behind `IfBlocksShape`, on the buffers before the
      branch, after it, after each block and at the end. */
  lemma IfLines(before: seq<string>, branch: seq<string>, thenCode: seq<string>, elseCode: seq<string>, whole: seq<string>,
                i: nat, cond: string, thenL: string, elseL: string, endL: string)
    requires branch == before + [Line(i, BranchLine(cond, thenL, elseL))]
    requires branch <= thenCode && |thenCode| >= |branch| + 2
    requires thenCode[|branch|] == Line(i, LabelLine(thenL))
    requires thenCode[|thenCode| - 1..] == [Line(i + 1, JumpLine(endL))]
    requires thenCode <= elseCode && |elseCode| >= |thenCode| + 1
    requires elseCode[|thenCode|] == Line(i, LabelLine(elseL))
    requires whole == elseCode + [Line(i, endL)]
    ensures IfSkeleton(|before|, whole, i, cond, thenL, elseL, endL)
  {
    var j := |thenCode|;
    assert whole[j] == Line(i, LabelLine(elseL));
    assert whole[j - 1] == thenCode[j - 1];
    assert whole[|before|..|before| + 2] == [branch[|before|], thenCode[|branch|]];
  }

  /** The steps of `newIf`: the scan found a condition and a `then` part,
      the condition is lowered first, then the blocks. */
  lemma IfSteps(st: GenState, t: Tree)
    ensures var r := LowerIf(st, t);
      r.Done? ==>
        var parts := ScanIf(t.children, 0, IfParts(None, None, None));
        && parts.cond.Some? && PartsIn(parts, t.children)
        && var c := LowerCond(st, parts.cond.value);
           && c.Done?
           && r == IfBlocks(c.st, t, c.id, parts)
  {
  }

  /** `newIf` lowers the condition first (`c`, the lowering of the last
      `COND_IMPL` child) and then emits the skeleton of an `if` branching on
      the condition's value, under the next three labels of the counter. */
  lemma IfShape(st: GenState, t: Tree, c: Lowered)
    requires var parts := ScanIf(t.children, 0, IfParts(None, None, None));
             parts.cond.Some? && c == LowerCond(st, parts.cond.value)
    ensures var r := LowerIf(st, t);
      r.Done? ==>
        && c.Done? && c.st.labels == st.labels && st.code <= c.st.code <= r.st.code
        && r.st.labels >= st.labels + 3
        && IfSkeleton(|c.st.code|, r.st.code, st.indent, c.id,
                      LabelName(st.labels), LabelName(st.labels + 1), LabelName(st.labels + 2))
  {
    var r := LowerIf(st, t);
    if r.Done? {
      IfSteps(st, t);
      IfBlocksShape(c.st, t, c.id, ScanIf(t.children, 0, IfParts(None, None, None)));
    }
  }

  /** The condition check of `newWhile`: the comment, the jump into the start
      label, the start label, the condition's code, and last the branch on the
      condition's value one level deeper. */
  lemma WhileCheckShape(st: GenState, t: Tree, startL: string, bodyL: string, endL: string, cond: Option<Tree>)
    requires cond.Some? ==> cond.value in t.children
    ensures var r := WhileCheck(st, t, startL, bodyL, endL, cond);
      r.Done? ==>
        var i := st.indent;
        var n := |st.code|;
        && cond.Some?
        && var c := LowerCond(CheckOpened(st, startL), cond.value);
           && c.Done?
           && n + 3 <= |c.st.code| && r.st.code == c.st.code + [Line(i + 1, BranchLine(c.id, bodyL, endL))]
           && r.st.code[n..n + 3] == [Line(i, CheckComment), Line(i, JumpLine(startL)), Line(i, LabelLine(startL))]
  {
    var r := WhileCheck(st, t, startL, bodyL, endL, cond);
    if r.Done? {
      var st1 := CheckOpened(st, startL);
      assert r.st.code[..|st.code| + 3] == st1.code;
    }
  }

  /** The three steps of `newWhile` once the scan succeeded: the check
      under three fresh labels, the body block, and the two closing lines. */
  lemma WhileSteps(st: GenState, t: Tree)
    ensures var r := LowerWhile(st, t);
      r.Done? ==>
        var parts := ScanWhile(t.children, 0, None, None);
        && parts.WhileParts? && parts.body.Some?
        && (parts.cond.Some? ==> parts.cond.value in t.children) && parts.body.value in t.children
        && var st1 := NewLine(st, WhileComment).(labels := st.labels + 3);
           var w := WhileCheck(st1, t, LabelName(st.labels), LabelName(st.labels + 1), LabelName(st.labels + 2), parts.cond);
           && w.Done?
           && var b := Block(w.st, t, LabelName(st.labels + 1), parts.body, Some(LabelName(st.labels)));
              && b.Done?
              && r.st == NewLine(NewLine(b.st, BareColon), EndWhileComment)
  {
  }

  /** The lines of a `while` loop emitted from line `n` of `code` on at
      indent level `i`: the comment, the condition check under the start
      label ending with the branch to the body or the end label, the body
      under its label ending with the jump back to the start label, and then
      ":" where the end label was meant to be defined, and the closing
      comment. */
  ghost predicate WhileSkeleton(n: nat, code: seq<string>, i: nat, startL: string, bodyL: string, endL: string,
                                k: nat, cond: string)
  {
    var m := |code|;
    && n + 4 <= k && k + 1 < m - 3
    && code[n..n + 4] == [Line(i, WhileComment), Line(i, CheckComment), Line(i, JumpLine(startL)), Line(i, LabelLine(startL))]
    && code[k] == Line(i + 1, BranchLine(cond, bodyL, endL))
    && code[k + 1] == Line(i, LabelLine(bodyL))
    && code[m - 3..] == [Line(i + 1, JumpLine(startL)), Line(i, BareColon), Line(i, EndWhileComment)]
  }

  /** `newWhile` emits the skeleton of a loop under the next three labels
      of the counter, branching on the value `c` of its condition right after
      the condition's code. */
  lemma WhileShape(st: GenState, t: Tree, c: Lowered)
    requires var parts := ScanWhile(t.children, 0, None, None);
             && parts.WhileParts? && parts.cond.Some?
             && c == LowerCond(CheckOpened(NewLine(st, WhileComment).(labels := st.labels + 3), LabelName(st.labels)),
                               parts.cond.value)
    ensures var r := LowerWhile(st, t);
      r.Done? ==>
        && c.Done? && st.code <= c.st.code <= r.st.code
        && r.st.labels >= st.labels + 3
        && WhileSkeleton(|st.code|, r.st.code, st.indent, LabelName(st.labels), LabelName(st.labels + 1),
                         LabelName(st.labels + 2), |c.st.code|, c.id)
  {
    var r := LowerWhile(st, t);
    if r.Done? {
      WhileCondOrder(st, t, c);
      WhileSteps(st, t);
      var parts := ScanWhile(t.children, 0, None, None);
      var st1 := NewLine(st, WhileComment).(labels := st.labels + 3);
      var w := WhileCheck(st1, t, LabelName(st.labels), LabelName(st.labels + 1), LabelName(st.labels + 2), parts.cond);
      var b := Block(w.st, t, LabelName(st.labels + 1), parts.body, Some(LabelName(st.labels)));
      WhileSkeletonHolds(st, t, parts, c, w, b, r.st);
    }
  }

  /** The skeleton part of `WhileShape`, from the states after the check,
      after the body and at the end. */
  lemma WhileSkeletonHolds(st: GenState, t: Tree, parts: WhileParts, c: Lowered, w: Lowered, b: Lowered, last: GenState)
    requires parts.WhileParts? && parts.cond.Some? && parts.cond.value in t.children
    requires parts.body.Some? && parts.body.value in t.children
    requires c == LowerCond(CheckOpened(NewLine(st, WhileComment).(labels := st.labels + 3), LabelName(st.labels)),
                            parts.cond.value)
    requires w == WhileCheck(NewLine(st, WhileComment).(labels := st.labels + 3), t, LabelName(st.labels),
                             LabelName(st.labels + 1), LabelName(st.labels + 2), parts.cond)
    requires w.Done? && b == Block(w.st, t, LabelName(st.labels + 1), parts.body, Some(LabelName(st.labels))) && b.Done?
    requires last == NewLine(NewLine(b.st, BareColon), EndWhileComment)
    ensures c.Done?
    ensures WhileSkeleton(|st.code|, last.code, st.indent, LabelName(st.labels), LabelName(st.labels + 1),
                          LabelName(st.labels + 2), |c.st.code|, c.id)
  {
    var st1 := NewLine(st, WhileComment).(labels := st.labels + 3);
    var startL := LabelName(st.labels);
    var bodyL := LabelName(st.labels + 1);
    var endL := LabelName(st.labels + 2);
    WhileCheckShape(st1, t, startL, bodyL, endL, parts.cond);
    BlockShape(w.st, t, bodyL, parts.body, Some(startL));
    WhileLines(st.code, st1.code, w.st.code, b.st.code, last.code, st.indent, startL, bodyL, endL, c.id);
  }

  /** The condition's code of a `while` comes after what was emitted before
      the loop, and the loop's final buffer extends it. */
  lemma WhileCondOrder(st: GenState, t: Tree, c: Lowered)
    requires var parts := ScanWhile(t.children, 0, None, None);
             && parts.WhileParts? && parts.cond.Some?
             && c == LowerCond(CheckOpened(NewLine(st, WhileComment).(labels := st.labels + 3), LabelName(st.labels)),
                               parts.cond.value)
    ensures var r := LowerWhile(st, t);
      r.Done? ==> c.Done? && st.code <= c.st.code <= r.st.code
  {
    var r := LowerWhile(st, t);
    if r.Done? {
      WhileSteps(st, t);
      var parts := ScanWhile(t.children, 0, None, None);
      var st1 := NewLine(st, WhileComment).(labels := st.labels + 3);
      var startL := LabelName(st.labels);
      WhileCheckShape(st1, t, startL, LabelName(st.labels + 1), LabelName(st.labels + 2), parts.cond);
      var w := WhileCheck(st1, t, startL, LabelName(st.labels + 1), LabelName(st.labels + 2), parts.cond);
      var b := Block(w.st, t, LabelName(st.labels + 1), parts.body, Some(startL));
      var open := CheckOpened(st1, startL);
      PrefixTrans(st.code, st1.code, open.code);
      PrefixTrans(st.code, open.code, c.st.code);
      PrefixTrans(c.st.code, w.st.code, b.st.code);
      PrefixTrans(c.st.code, b.st.code, r.st.code);
    }
  }

  /** A prefix of a prefix is a prefix. */
  lemma PrefixTrans(a: seq<string>, b: seq<string>, c: seq<string>)
    requires a <= b && b <= c
    ensures a <= c
  {
    assert c[..|a|] == b[..|a|];
  }

  /** The line arithmetic behind `WhileShape`, on the buffers before the
      loop, after its comment, after the check, after the body and at the
      end. */
  lemma WhileLines(before: seq<string>, open: seq<string>, check: seq<string>, body: seq<string>, whole: seq<string>,
                   i: nat, startL: string, bodyL: string, endL: string, cond: string)
    requires open == before + [Line(i, WhileComment)]
    requires open <= check && |check| >= |open| + 4
    requires check[|open|..|open| + 3] == [Line(i, CheckComment), Line(i, JumpLine(startL)), Line(i, LabelLine(startL))]
    requires check[|check| - 1] == Line(i + 1, BranchLine(cond, bodyL, endL))
    requires check <= body && |body| >= |check| + 2
    requires body[|check|] == Line(i, LabelLine(bodyL))
    requires body[|body| - 1..] == [Line(i + 1, JumpLine(startL))]
    requires whole == body + [Line(i, BareColon), Line(i, EndWhileComment)]
    ensures WhileSkeleton(|before|, whole, i, startL, bodyL, endL, |check| - 1, cond)
  {
    var j := |check|;
    assert whole[j] == Line(i, LabelLine(bodyL));
    assert whole[j - 1] == Line(i + 1, BranchLine(cond, bodyL, endL));
    assert whole[|before|..|before| + 4] == [open[|before|]] + check[|open|..|open| + 3];
    assert whole[|whole| - 3] == body[|body| - 1];
  }

  /** `generateLLVMIR`: after what was emitted before, the header lines,
      the opening of `main`, the body, and the return and closing brace, the
      whole buffer being the result. */
  lemma GenerateShape(st: GenState, root: Tree, preamble: string)
    ensures var r := GenerateLLVMIR(st, root, preamble);
      r.Done? ==>
        var n := |st.code|;
        var m := |r.st.code|;
        && m >= n + 9
        && r.st.code[..n] == st.code
        && r.st.code[n..n + 7] == [Line(0, HeaderTitle), Line(0, HeaderDeclarations), Line(0, HeaderGetchar),
                                   Line(0, HeaderPutchar), Line(0, preamble), Line(0, MainLine), Line(0, EntryLine)]
        && r.st.code[m - 2..] == [Line(1, RetLine), Line(0, CloseLine)]
        && r.id == Concat(r.st.code)
  {
    var r := GenerateLLVMIR(st, root, preamble);
    if r.Done? {
      var st0 := Header(st.(indent := 0), preamble);
      var st1 := Indent(NewLine(NewLine(st0, MainLine), EntryLine));
      var b := LowerCodeBranch(st1, root.children[1]);
      assert r.st.code[..|st.code| + 7] == st1.code;
    }
  }

  /** `storeInNamI32` emits one `store` of the value, `null` printed as
      such, into the slot the name has afterwards. */
  lemma StoreShape(st: GenState, name: Option<string>, value: Option<string>)
    ensures var r := StoreInNamI32(st, name, value);
      && name in r.vars
      && (name in st.vars ==> r.vars[name] == st.vars[name])
      && |r.code| > |st.code|
      && r.code[|r.code| - 1] == Line(st.indent, StoreLine(NullText(value), r.vars[name]))
  {
  }

  /** The name an assignment stores into: the last `VARNAME` child from
      child `i` on, or the one found before. */
  function AssignTarget(ch: seq<Tree>, i: nat, name: Option<string>): Option<string>
    decreases |ch| - i
  {
    if i >= |ch| then name
    else if IsTerminal(ch[i].symbol) && ch[i].symbol.kind == Some(VARNAME) && ch[i].symbol.value != NoValue then
      AssignTarget(ch, i + 1, Some(ValueText(ch[i].symbol.value)))
    else AssignTarget(ch, i + 1, name)
  }

  /** A child that the loop of `newAssign` lowers as the value: an
      expression label, unless the child is a `VARNAME` terminal, which the
      loop tests first. */
  predicate IsValueChild(lbl: Symbol)
  {
    !(IsTerminal(lbl) && lbl.kind == Some(VARNAME)) && IsExpressionChild(lbl)
  }

  /** Some child from `i` on is lowered as the value. */
  predicate HasValueChild(ch: seq<Tree>, i: nat)
  {
    exists j :: i <= j < |ch| && IsValueChild(ch[j].symbol)
  }

  /** The last line of `code` stores into `slot` a temporary issued between
      the states `a` and `b` when a value child was lowered, or else
      `fallback`. */
  ghost predicate EndsWithStore(code: seq<string>, i: nat, slot: string, lowered: bool, fallback: string, a: GenState, b: GenState)
  {
    && |code| > 0
    && exists v :: code[|code| - 1] == Line(i, StoreLine(v, slot)) && (if lowered then IssuedBetween(v, a, b) else v == fallback)
  }

  /** `newAssign` ends with one `store` into the slot of the assigned name,
      which is in the table afterwards and kept its slot if it had one. The
      value stored is a temporary the assignment issued when one of its
      children is an expression, and otherwise the value found before, or
      `null`. */
  lemma {:induction false} AssignStores(st: GenState, t: Tree, i: nat, name: Option<string>, value: Option<string>)
    requires i <= |t.children|
    ensures var r := AssignLoop(st, t, i, name, value);
      r.Done? ==>
        var x := AssignTarget(t.children, i, name);
        && x in r.st.vars
        && (x in st.vars ==> r.st.vars[x] == st.vars[x])
        && |r.st.code| > |st.code|
        && EndsWithStore(r.st.code, st.indent, r.st.vars[x], HasValueChild(t.children, i), NullText(value), st, r.st)
    decreases |t.children| - i, 2
  {
    var r := AssignLoop(st, t, i, name, value);
    if r.Done? {
      if i == |t.children| {
        StoreShape(st, name, value);
        var v := NullText(value);
        assert r.st.code[|r.st.code| - 1] == Line(st.indent, StoreLine(v, r.st.vars[name]));
      } else {
        AssignStoresStep(st, t, i, name, value);
      }
    }
  }

  /** One child of the loop of `newAssign`: a name or a skipped child, then
      the rest of the loop. */
  lemma {:induction false} AssignStoresStep(st: GenState, t: Tree, i: nat, name: Option<string>, value: Option<string>)
    requires i < |t.children|
    ensures var r := AssignLoop(st, t, i, name, value);
      r.Done? ==>
        var x := AssignTarget(t.children, i, name);
        && x in r.st.vars
        && (x in st.vars ==> r.st.vars[x] == st.vars[x])
        && |r.st.code| > |st.code|
        && EndsWithStore(r.st.code, st.indent, r.st.vars[x], HasValueChild(t.children, i), NullText(value), st, r.st)
    decreases |t.children| - i, 1
  {
    var lbl := t.children[i].symbol;
    if IsValueChild(lbl) {
      AssignStoresValue(st, t, i, name, value);
    } else {
      HasValueChildSkip(t.children, i);
      if IsTerminal(lbl) && lbl.kind == Some(VARNAME) {
        if lbl.value != NoValue {
          AssignStores(st, t, i + 1, Some(ValueText(lbl.value)), value);
        }
      } else {
        AssignStores(st, t, i + 1, name, value);
      }
    }
  }

  /** The expression child of the loop of `newAssign`: its temporary becomes
      the value, replaced only by a later expression's. */
  lemma {:induction false} AssignStoresValue(st: GenState, t: Tree, i: nat, name: Option<string>, value: Option<string>)
    requires i < |t.children| && IsValueChild(t.children[i].symbol)
    ensures var r := AssignLoop(st, t, i, name, value);
      r.Done? ==>
        var x := AssignTarget(t.children, i, name);
        && x in r.st.vars
        && (x in st.vars ==> r.st.vars[x] == st.vars[x])
        && |r.st.code| > |st.code|
        && EndsWithStore(r.st.code, st.indent, r.st.vars[x], HasValueChild(t.children, i), NullText(value), st, r.st)
    decreases |t.children| - i, 0
  {
    var c := t.children[i];
    var step := LowerAssignValue(st, c);
    if step.Done? {
      var r := AssignLoop(st, t, i, name, value);
      assert r == AssignLoop(step.st, t, i + 1, name, Some(step.id));
      AssignStores(step.st, t, i + 1, name, Some(step.id));
      if r.Done? {
        ValueChildIssues(st, c);
        assert AssignTarget(t.children, i, name) == AssignTarget(t.children, i + 1, name);
        assert HasValueChild(t.children, i) by { assert IsValueChild(t.children[i].symbol); }
        var x := AssignTarget(t.children, i, name);
        StoreOfLoweredValue(r.st.code, st.indent, r.st.vars[x], HasValueChild(t.children, i + 1), step.id,
                            NullText(value), st, step.st, r.st);
      }
    }
  }

  /** The value stored after an expression child: a later expression's
      temporary, or else the child's own; either was issued since `a`. */
  lemma StoreOfLoweredValue(code: seq<string>, i: nat, slot: string, later: bool, id: string, fallback: string,
                            a: GenState, mid: GenState, b: GenState)
    requires EndsWithStore(code, i, slot, later, id, mid, b)
    requires IssuedBetween(id, a, mid) && a.temps <= mid.temps <= b.temps
    ensures EndsWithStore(code, i, slot, true, fallback, a, b)
  {
    var v :| code[|code| - 1] == Line(i, StoreLine(v, slot)) && (if later then IssuedBetween(v, mid, b) else v == id);
    IssuedWiden(v, if later then mid else a, if later then b else mid, a, b);
  }

  /** A child that is not lowered as the value changes nothing about whether
      one follows. */
  lemma HasValueChildSkip(ch: seq<Tree>, i: nat)
    requires i < |ch| && !IsValueChild(ch[i].symbol)
    ensures HasValueChild(ch, i) == HasValueChild(ch, i + 1)
  {
    if HasValueChild(ch, i) {
      var j :| i <= j < |ch| && IsValueChild(ch[j].symbol);
      assert i + 1 <= j;
    }
  }

  /** The value child's lowering issues the temporary it returns. */
  lemma ValueChildIssues(st: GenState, c: Tree)
    ensures var step := LowerAssignValue(st, c);
      step.Done? ==> IssuedBetween(step.id, st, step.st)
  {
    ArithIssues(st, c);
    AddSubIssues(st, c);
    MulDivIssues(st, c);
  }

  /** An assignment whose children are a `VARNAME` leaf and one expression
      node (`EXPR_ARITH`, `EXPR_ADDSUB` or `EXPR_MULDIV`): the expression is
      lowered, and a temporary it issued is stored into the name, or the
      assignment fails as the expression fails. */
  lemma AssignNameAndExpression(st: GenState, t: Tree)
    requires |t.children| == 2
    requires IsTerminal(t.children[0].symbol) && t.children[0].symbol.kind == Some(VARNAME) && t.children[0].symbol.value != NoValue
    requires IsValueChild(t.children[1].symbol)
    ensures var e := LowerAssignValue(st, t.children[1]);
      && (e.Done? ==> IssuedBetween(e.id, st, e.st))
      && LowerAssign(st, t) ==
           if e.Failed? then Failed(e.error)
           else Done("", StoreInNamI32(e.st, Some(ValueText(t.children[0].symbol.value)), Some(e.id)))
  {
    ValueChildIssues(st, t.children[1]);
    var e := LowerAssignValue(st, t.children[1]);
    assert LowerAssign(st, t) == AssignLoop(st, t, 1, Some(ValueText(t.children[0].symbol.value)), None);
    if e.Done? {
      assert AssignLoop(st, t, 1, Some(ValueText(t.children[0].symbol.value)), None)
          == AssignLoop(e.st, t, 2, Some(ValueText(t.children[0].symbol.value)), Some(e.id));
    }
  }

  /** `newOutput`: the comment, the load of the variable into the next
      temporary, and the call of `println` on that temporary. */
  lemma OutputShape(st: GenState, t: Tree)
    ensures var r := LowerOutput(st, t);
      r.Done? ==>
        && |t.children| > 0 && t.children[0].symbol.value != NoValue
        && var name := ValueText(t.children[0].symbol.value);
           var slot := GetOrNewI32(NewLine(st, PrintComment(name)), Some(name));
           && slot.id == (if Some(name) in st.vars then st.vars[Some(name)] else SlotName(Some(name)))
           && r.st.temps == st.temps + 1
           && r.st.code == slot.st.code + [Line(st.indent, LoadLine(TempName(st.temps), slot.id)),
                                           Line(st.indent, PrintCall(TempName(st.temps)))]
  {
  }

  // ---- buffer, loops and expressions ---------------------------------------

  /** The scan of `newWhile` rejects the children exactly when one of them
      from `i` on is neither a `COND_IMPL` nor a `CODE`. */
  lemma {:induction false} ScanWhileRejects(ch: seq<Tree>, i: nat, cond: Option<Tree>, body: Option<Tree>)
    requires (cond.Some? ==> cond.value in ch) && (body.Some? ==> body.value in ch)
    ensures ScanWhile(ch, i, cond, body) == BadChild <==>
            exists k :: i <= k < |ch| && ch[k].symbol.value != Tag(COND_IMPL) && ch[k].symbol.value != Tag(CODE)
    decreases |ch| - i
  {
    if i < |ch| {
      if ch[i].symbol.value == Tag(COND_IMPL) {
        ScanWhileRejects(ch, i + 1, Some(ch[i]), body);
      } else if ch[i].symbol.value == Tag(CODE) {
        ScanWhileRejects(ch, i + 1, cond, Some(ch[i]));
      }
    }
  }

  /** So `newWhile` fails, emitting nothing, on a child that is neither a
      condition nor a code block. */
  lemma WhileRejectsOtherChild(st: GenState, t: Tree, k: nat)
    requires k < |t.children|
    requires t.children[k].symbol.value != Tag(COND_IMPL) && t.children[k].symbol.value != Tag(CODE)
    ensures LowerWhile(st, t) == Failed(UnexpectedNode)
  {
    ScanWhileRejects(t.children, 0, None, None);
  }

  /** One (operator, operand) pair of a sum: the operand is lowered, then
      one fresh temporary holds `acc + operand` or `acc - operand` (no line
      for another operator), and becomes the accumulator of the rest. */
  lemma AddSubPair(st: GenState, t: Tree, i: nat, acc: string)
    requires 1 <= i && i + 1 < |t.children|
    ensures var o := AddSubOperand(st, t, i);
      && (o.Failed? ==> AddSubLoop(st, t, i, acc) == Failed(o.error))
      && (o.Done? ==>
            var tmp := TempName(o.st.temps);
            var op := t.children[i].symbol.kind;
            var lines :=
              if op == Some(PLUS) then [Line(st.indent, BinaryLine(tmp, "add", acc, o.id))]
              else if op == Some(MINUS) then [Line(st.indent, BinaryLine(tmp, "sub", acc, o.id))]
              else [];
            AddSubLoop(st, t, i, acc) == AddSubLoop(o.st.(temps := o.st.temps + 1, code := o.st.code + lines), t, i + 2, tmp))
  {
    var o := AddSubOperand(st, t, i);
    if o.Done? {
      assert Grows(st, o.st);
      var op := t.children[i].symbol.kind;
      if op != Some(PLUS) && op != Some(MINUS) {
        assert o.st.code + [] == o.st.code;
      }
    }
  }

  /** One pair of a product: `mul` for `*`, `sdiv` for `/`. */
  lemma MulDivPair(st: GenState, t: Tree, i: nat, acc: string)
    requires 1 <= i && i + 1 < |t.children|
    ensures var o := MulDivOperand(st, t, i);
      && (o.Failed? ==> MulDivLoop(st, t, i, acc) == Failed(o.error))
      && (o.Done? ==>
            var tmp := TempName(o.st.temps);
            var op := t.children[i].symbol.kind;
            var lines :=
              if op == Some(TIMES) then [Line(st.indent, BinaryLine(tmp, "mul", acc, o.id))]
              else if op == Some(DIVIDE) then [Line(st.indent, BinaryLine(tmp, "sdiv", acc, o.id))]
              else [];
            MulDivLoop(st, t, i, acc) == MulDivLoop(o.st.(temps := o.st.temps + 1, code := o.st.code + lines), t, i + 2, tmp))
  {
    var o := MulDivOperand(st, t, i);
    if o.Done? {
      assert Grows(st, o.st);
      var op := t.children[i].symbol.kind;
      if op != Some(TIMES) && op != Some(DIVIDE) {
        assert o.st.code + [] == o.st.code;
      }
    }
  }

  /** A sum consumes at least one temporary per pair: `k` pairs after
      position `i` take `k` temporaries besides those of their operands. */
  lemma {:induction false} AddSubLoopTemps(st: GenState, t: Tree, i: nat, acc: string)
    requires i >= 1
    ensures var r := AddSubLoop(st, t, i, acc);
      r.Done? ==> r.st.temps >= st.temps + (|t.children| - i) / 2
    decreases |t.children| - i
  {
    if i + 1 < |t.children| {
      AddSubPair(st, t, i, acc);
      var o := AddSubOperand(st, t, i);
      if o.Done? {
        var tmp := TempName(o.st.temps);
        var op := t.children[i].symbol.kind;
        var lines :=
          if op == Some(PLUS) then [Line(st.indent, BinaryLine(tmp, "add", acc, o.id))]
          else if op == Some(MINUS) then [Line(st.indent, BinaryLine(tmp, "sub", acc, o.id))]
          else [];
        AddSubLoopTemps(o.st.(temps := o.st.temps + 1, code := o.st.code + lines), t, i + 2, tmp);
      }
    }
  }

  /** A product likewise consumes at least one temporary per `*`/`/` pair. */
  lemma {:induction false} MulDivLoopTemps(st: GenState, t: Tree, i: nat, acc: string)
    requires i >= 1
    ensures var r := MulDivLoop(st, t, i, acc);
      r.Done? ==> r.st.temps >= st.temps + (|t.children| - i) / 2
    decreases |t.children| - i
  {
    if i + 1 < |t.children| {
      MulDivPair(st, t, i, acc);
      var o := MulDivOperand(st, t, i);
      if o.Done? {
        var tmp := TempName(o.st.temps);
        var op := t.children[i].symbol.kind;
        var lines :=
          if op == Some(TIMES) then [Line(st.indent, BinaryLine(tmp, "mul", acc, o.id))]
          else if op == Some(DIVIDE) then [Line(st.indent, BinaryLine(tmp, "sdiv", acc, o.id))]
          else [];
        MulDivLoopTemps(o.st.(temps := o.st.temps + 1, code := o.st.code + lines), t, i + 2, tmp);
      }
    }
  }

  /** Unary minus: the primary, then one fresh temporary holding `0 - x`,
      which is the value. */
  lemma UnaryMinusShape(st: GenState, t: Tree)
    requires |t.children| >= 2 && t.children[0].symbol.kind == Some(MINUS)
    ensures var p := LowerExprPrimary(st, t.children[1]);
            var r := LowerExprUnary(st, t);
      && (p.Failed? ==> r == Failed(p.error))
      && (p.Done? ==>
            r == Done(TempName(p.st.temps),
                      p.st.(temps := p.st.temps + 1,
                            code := p.st.code + [Line(st.indent, NegateLine(TempName(p.st.temps), p.id))])))
  {
  }
}
