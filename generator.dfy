/** The generator object of src/LLVMIRGenerator.java: the output buffer, the
    table of named variables, the two counters and the indent level are
    fields that its methods update, as the Java methods do. Every method is
    proved to leave the object in the state, and to return the identifier or
    raise the exception, that the matching function of `LoweringSpec`
    computes from the state it started in. */
module Lowering {
  import opened Wrappers
  import opened Grammar
  import opened Text
  import opened Symbols
  import opened ParseTrees
  import opened LoweringSpec

  /** What a lowering method that returns an identifier gives back, or the
      exception it raised. */
  datatype Emit = Emitted(id: string) | Raised(error: GenError)

  class LLVMIRGenerator {
    var code: seq<string>
    var vars: map<Option<string>, string>
    var unamedVarCounter: nat
    var labelCounter: nat
    var indentLevel: nat
    /** The text block at the end of `header()`, taken as given. */
    const preamble: string

    function State(): GenState
      reads this
    {
      GenState(code, vars, unamedVarCounter, labelCounter, indentLevel)
    }

    constructor(preamble: string)
      ensures State() == GenState([], map[], 0, 0, 0)
      ensures this.preamble == preamble
    {
      code := [];
      vars := map[];
      unamedVarCounter := 0;
      labelCounter := 0;
      indentLevel := 0;
      this.preamble := preamble;
    }

    /** `newLine(line, indent)`: only appends, and what it appends is the
        indentation, the line and a newline. */
    method NewLineAt(line: string, indent: nat)
      modifies this
      ensures code == old(code) + [Spaces(indent) + line + "\n"]
      ensures vars == old(vars) && unamedVarCounter == old(unamedVarCounter)
      ensures labelCounter == old(labelCounter) && indentLevel == old(indentLevel)
    {
      code := code + [Spaces(indent) + line + "\n"];
    }

    /** `newLine(line)`, at the current indent level. */
    method NewLine(line: string)
      modifies this
      ensures State() == LoweringSpec.NewLine(old(State()), line)
    {
      NewLineAt(line, indentLevel);
    }

    /** `newLabel()`: `label<n>` for the current counter, which moves on. */
    method NewLabel() returns (l: string)
      modifies this
      ensures l == LabelName(old(labelCounter))
      ensures State() == old(State()).(labels := old(labelCounter) + 1)
    {
      l := LabelName(labelCounter);
      labelCounter := labelCounter + 1;
    }

    /** `newUnamedI32Id()`: `%<n>` for the current counter, which moves on. */
    method NewUnamedI32Id() returns (id: string)
      modifies this
      ensures id == TempName(old(unamedVarCounter))
      ensures State() == old(State()).(temps := old(unamedVarCounter) + 1)
    {
      id := TempName(unamedVarCounter);
      unamedVarCounter := unamedVarCounter + 1;
    }

    method GetOrNewI32(name: Option<string>) returns (id: string)
      modifies this
      ensures LoweringSpec.GetOrNewI32(old(State()), name) == Named(id, State())
    {
      if name !in vars {
        var slot := SlotName(name);
        vars := vars[name := slot];
        NewLine(AllocaLine(slot));
      }
      id := vars[name];
    }

    method LoadI32(name: string) returns (id: string)
      modifies this
      ensures LoweringSpec.LoadI32(old(State()), name) == Named(id, State())
    {
      var slot := GetOrNewI32(Some(name));
      id := NewUnamedI32Id();
      NewLine(LoadLine(id, slot));
    }

    method StoreInNamI32(name: Option<string>, value: Option<string>)
      modifies this
      ensures State() == LoweringSpec.StoreInNamI32(old(State()), name, value)
    {
      var slot := GetOrNewI32(name);
      NewLine(StoreLine(NullText(value), slot));
    }

    method Header()
      modifies this
      ensures State() == LoweringSpec.Header(old(State()), preamble)
    {
      NewLine(HeaderTitle);
      NewLine(HeaderDeclarations);
      NewLine(HeaderGetchar);
      NewLine(HeaderPutchar);
      NewLine(preamble);
    }

    /** `generateLLVMIR(root)`: returns the whole buffer. */
    method GenerateLLVMIR(root: Tree) returns (r: Emit)
      modifies this
      ensures LoweringSpec.GenerateLLVMIR(old(State()), root, preamble)
           == if r.Emitted? then Done(r.id, State()) else Failed(r.error)
    {
      indentLevel := 0;
      Header();
      NewLine(MainLine);
      NewLine(EntryLine);
      indentLevel := indentLevel + 1;
      if |root.children| < 2 {
        return Raised(IndexOutOfBounds);
      }
      var err := NewCodeBranch(root.children[1]);
      if err.Some? {
        return Raised(err.value);
      }
      NewLine(RetLine);
      indentLevel := indentLevel - 1;
      NewLine(CloseLine);
      return Emitted(Concat(code));
    }

    method NewCodeBranch(t: Tree) returns (err: Option<GenError>)
      modifies this
      ensures LowerCodeBranch(old(State()), t) == if err.None? then Done("", State()) else Failed(err.value)
      decreases t, 1, 0
    {
      var i := 0;
      while i < |t.children|
        invariant i <= |t.children|
        invariant LowerCodeBranch(old(State()), t) == CodeBranchLoop(State(), t, i)
      {
        var c := t.children[i];
        if c.symbol.value == Tag(INSTRUCTION) {
          err := NewInstructions(c);
          if err.Some? {
            return;
          }
        } else if c.symbol.value == Tag(CODE) {
          err := NewCodeBranch(c);
          if err.Some? {
            return;
          }
        }
        i := i + 1;
      }
      return None;
    }

    method NewInstructions(t: Tree) returns (err: Option<GenError>)
      modifies this
      ensures LowerInstructions(old(State()), t) == if err.None? then Done("", State()) else Failed(err.value)
      decreases t, 2, 0
    {
      if |t.children| == 0 {
        return Some(IndexOutOfBounds);
      }
      var c := t.children[0];
      var v := c.symbol.value;
      if v == NoValue {
        err := Some(NullPointer);
      } else if v == Tag(ASSIGN_NT) {
        err := NewAssign(c);
      } else if v == Tag(IF_NT) {
        err := NewIf(c);
      } else if v == Tag(WHILE_NT) {
        err := NewWhile(c);
      } else if v == Tag(OUTPUT) {
        err := NewOutput(c);
      } else if v == Tag(INPUT_NT) {
        var r := NewInput(c);
        err := if r.Raised? then Some(r.error) else None;
      } else {
        err := Some(IllegalState);
      }
    }

    method NewAssign(t: Tree) returns (err: Option<GenError>)
      modifies this
      ensures LowerAssign(old(State()), t) == if err.None? then Done("", State()) else Failed(err.value)
      decreases t, 1, 0
    {
      var name: Option<string> := None;
      var value: Option<string> := None;
      var i := 0;
      while i < |t.children|
        invariant i <= |t.children|
        invariant LowerAssign(old(State()), t) == AssignLoop(State(), t, i, name, value)
      {
        var c := t.children[i];
        var lbl := c.symbol;
        if IsTerminal(lbl) && lbl.kind == Some(VARNAME) {
          if lbl.value == NoValue {
            return Some(NullPointer);
          }
          name := Some(ValueText(lbl.value));
        } else if IsExpressionChild(lbl) {
          var r;
          if IsNonTerminal(lbl) && lbl.value == Tag(EXPR_ARITH) {
            r := NewExprArith(c);
          } else if IsNonTerminal(lbl) && lbl.value == Tag(EXPR_ADDSUB) {
            r := NewExprAddSub(c);
          } else {
            r := NewExprMulDiv(c);
          }
          if r.Raised? {
            return Some(r.error);
          }
          value := Some(r.id);
        }
        i := i + 1;
      }
      StoreInNamI32(name, value);
      return None;
    }

    method NewIf(t: Tree) returns (err: Option<GenError>)
      modifies this
      ensures LowerIf(old(State()), t) == if err.None? then Done("", State()) else Failed(err.value)
      decreases t, 1, 0
    {
      var parts := IfParts(None, None, None);
      var i := 0;
      while i < |t.children|
        invariant PartsIn(parts, t.children)
        invariant ScanIf(t.children, 0, IfParts(None, None, None)) == ScanIf(t.children, i, parts)
      {
        var c := t.children[i];
        if c.symbol.value == Tag(COND_IMPL) {
          parts := parts.(cond := Some(c));
        } else if c.symbol.kind == Some(THEN) && i + 1 < |t.children| {
          parts := parts.(thenPart := Some(t.children[i + 1]));
        } else if c.symbol.kind == Some(ELSE) && i + 1 < |t.children| {
          parts := parts.(elsePart := Some(t.children[i + 1]));
        }
        i := i + 1;
      }
      if parts.cond.None? {
        return Some(NullPointer);
      }
      var cond := NewCond(parts.cond.value);
      if cond.Raised? {
        return Some(cond.error);
      }
      err := IfBlocks(t, cond.id, parts);
    }

    /** The part of `newIf` after the condition. */
    method IfBlocks(t: Tree, cond: string, parts: IfParts) returns (err: Option<GenError>)
      requires PartsIn(parts, t.children)
      modifies this
      ensures LoweringSpec.IfBlocks(old(State()), t, cond, parts)
           == if err.None? then Done("", State()) else Failed(err.value)
      decreases t, 0, 1
    {
      var thenL := NewLabel();
      var elseL := NewLabel();
      var endL := NewLabel();
      NewLine(BranchLine(cond, thenL, elseL));
      if parts.thenPart.None? {
        return Some(NullPointer);
      }
      err := Block(t, thenL, parts.thenPart, Some(endL));
      if err.Some? {
        return;
      }
      err := Block(t, elseL, parts.elsePart, None);
      if err.Some? {
        return;
      }
      NewLine(endL);
    }

    /** A labelled block of `newIf` or `newWhile`. */
    method Block(t: Tree, head: string, body: Option<Tree>, exit: Option<string>) returns (err: Option<GenError>)
      requires body.Some? ==> body.value in t.children
      modifies this
      ensures LoweringSpec.Block(old(State()), t, head, body, exit)
           == if err.None? then Done("", State()) else Failed(err.value)
      decreases t, 0, 0
    {
      NewLine(LabelLine(head));
      indentLevel := indentLevel + 1;
      if body.Some? {
        err := NewCodeBranch(body.value);
        if err.Some? {
          return;
        }
      }
      if exit.Some? {
        NewLine(JumpLine(exit.value));
      }
      indentLevel := indentLevel - 1;
      return None;
    }

    method NewWhile(t: Tree) returns (err: Option<GenError>)
      modifies this
      ensures LowerWhile(old(State()), t) == if err.None? then Done("", State()) else Failed(err.value)
      decreases t, 1, 0
    {
      var cond: Option<Tree> := None;
      var body: Option<Tree> := None;
      var i := 0;
      while i < |t.children|
        invariant (cond.Some? ==> cond.value in t.children) && (body.Some? ==> body.value in t.children)
        invariant ScanWhile(t.children, 0, None, None) == ScanWhile(t.children, i, cond, body)
      {
        var c := t.children[i];
        if c.symbol.value == Tag(COND_IMPL) {
          cond := Some(c);
        } else if c.symbol.value == Tag(CODE) {
          body := Some(c);
        } else {
          return Some(UnexpectedNode);
        }
        i := i + 1;
      }
      NewLine(WhileComment);
      var startL := NewLabel();
      var bodyL := NewLabel();
      var endL := NewLabel();
      err := WhileCheck(t, startL, bodyL, endL, cond);
      if err.Some? {
        return;
      }
      if body.None? {
        return Some(NullPointer);
      }
      err := Block(t, bodyL, body, Some(startL));
      if err.Some? {
        return;
      }
      NewLine(BareColon);
      NewLine(EndWhileComment);
    }

    /** The condition check of `newWhile`. */
    method WhileCheck(t: Tree, startL: string, bodyL: string, endL: string, cond: Option<Tree>)
      returns (err: Option<GenError>)
      requires cond.Some? ==> cond.value in t.children
      modifies this
      ensures LoweringSpec.WhileCheck(old(State()), t, startL, bodyL, endL, cond)
           == if err.None? then Done("", State()) else Failed(err.value)
      decreases t, 0, 0
    {
      NewLine(CheckComment);
      NewLine(JumpLine(startL));
      NewLine(LabelLine(startL));
      indentLevel := indentLevel + 1;
      if cond.None? {
        return Some(NullPointer);
      }
      var c := NewCond(cond.value);
      if c.Raised? {
        return Some(c.error);
      }
      NewLine(BranchLine(c.id, bodyL, endL));
      indentLevel := indentLevel - 1;
      return None;
    }

    method NewOutput(t: Tree) returns (err: Option<GenError>)
      modifies this
      ensures LowerOutput(old(State()), t) == if err.None? then Done("", State()) else Failed(err.value)
    {
      var name := FirstValueText(t);
      if name.NameError? {
        return Some(name.error);
      }
      NewLine(PrintComment(name.name));
      var value := LoadI32(name.name);
      NewLine(PrintCall(value));
      return None;
    }

    method NewInput(t: Tree) returns (r: Emit)
      modifies this
      ensures LowerInput(old(State()), t) == if r.Emitted? then Done(r.id, State()) else Failed(r.error)
    {
      var name := FirstValueText(t);
      if name.NameError? {
        return Raised(name.error);
      }
      NewLine(ReadComment(name.name));
      var tmp := NewUnamedI32Id();
      NewLine(ReadCall(tmp));
      return Emitted(tmp);
    }

    method NewCond(t: Tree) returns (r: Emit)
      modifies this
      ensures LowerCond(old(State()), t) == if r.Emitted? then Done(r.id, State()) else Failed(r.error)
      decreases t, 3, 0
    {
      if |t.children| == 0 {
        return Raised(IndexOutOfBounds);
      }
      r := NewCondImpl(t.children[0]);
    }

    method NewCondImpl(t: Tree) returns (r: Emit)
      modifies this
      ensures LowerCondImpl(old(State()), t) == if r.Emitted? then Done(r.id, State()) else Failed(r.error)
      decreases t, 3, 0
    {
      if |t.children| == 0 {
        return Raised(IndexOutOfBounds);
      }
      if t.symbol.value == Tag(COND_ATOM) {
        r := NewCondAtom(t.children[0]);
        return;
      }
      var left := NewCond(t.children[0]);
      if left.Raised? {
        return left;
      }
      if |t.children| < 3 {
        return Raised(IndexOutOfBounds);
      }
      var right := NewCond(t.children[2]);
      if right.Raised? {
        return right;
      }
      NewLine(ImplicationComment);
      var notLeft := NewUnamedI32Id();
      NewLine(InvertLine(notLeft, left.id));
      var impl := NewUnamedI32Id();
      NewLine(ImplicationLine(impl, notLeft, right.id));
      return Emitted(impl);
    }

    method NewCondAtom(t: Tree) returns (r: Emit)
      modifies this
      ensures LowerCondAtom(old(State()), t) == if r.Emitted? then Done(r.id, State()) else Failed(r.error)
      decreases t, 3, 0
    {
      if |t.children| == 0 {
        return Raised(IndexOutOfBounds);
      }
      if t.children[0].symbol.value == Tag(COND_IMPL) {
        return Emitted("");
      }
      r := NewCondComp(t.children[0]);
    }

    method NewCondComp(t: Tree) returns (r: Emit)
      modifies this
      ensures LowerCondComp(old(State()), t) == if r.Emitted? then Done(r.id, State()) else Failed(r.error)
      decreases t, 2, 0
    {
      if |t.children| == 0 {
        return Raised(IndexOutOfBounds);
      }
      var left := NewExprArith(t.children[0]);
      if left.Raised? {
        return left;
      }
      if |t.children| < 2 {
        return Raised(IndexOutOfBounds);
      }
      var comp := t.children[1].symbol;
      var op: Option<string> := None;
      if comp.kind in {Some(EQUAL), Some(SMALLER), Some(SMALEQ)} {
        if comp.value == NoValue {
          return Raised(NullPointer);
        }
        op := Some(ValueText(comp.value));
      }
      if |t.children| < 3 {
        return Raised(IndexOutOfBounds);
      }
      var right := NewExprArith(t.children[2]);
      if right.Raised? {
        return right;
      }
      var cmp := CompOpToLlvmOp(op);
      if cmp.OpError? {
        return Raised(cmp.error);
      }
      var res := NewUnamedI32Id();
      NewLine(ComparisonComment);
      NewLine(CompareLine(res, cmp.name, left.id, right.id));
      return Emitted(res);
    }

    method NewExprArith(t: Tree) returns (r: Emit)
      modifies this
      ensures LowerExprArith(old(State()), t) == if r.Emitted? then Done(r.id, State()) else Failed(r.error)
      decreases t, 3, 0
    {
      if |t.children| == 0 {
        return Raised(IndexOutOfBounds);
      }
      NewLine(ArithComment);
      indentLevel := indentLevel + 1;
      if t.symbol.value == Tag(EXPR_ADDSUB) {
        r := NewExprAddSub(t);
      } else if t.symbol.value == Tag(EXPR_MULDIV) {
        r := NewExprAddSub(t);
      } else if t.children[0].symbol.value == Tag(EXPR_ADDSUB) {
        r := NewExprAddSub(t.children[0]);
      } else {
        return Raised(UnexpectedNode);
      }
      if r.Raised? {
        return;
      }
      indentLevel := indentLevel - 1;
    }

    method NewExprAddSub(t: Tree) returns (r: Emit)
      modifies this
      ensures LowerExprAddSub(old(State()), t) == if r.Emitted? then Done(r.id, State()) else Failed(r.error)
      decreases t, 2, 0
    {
      if |t.children| == 0 {
        return Raised(IndexOutOfBounds);
      }
      var first := NewExprMulDiv(t.children[0]);
      if first.Raised? {
        return first;
      }
      var result := first.id;
      var i := 1;
      while i < |t.children|
        invariant i >= 1
        invariant LowerExprAddSub(old(State()), t) == AddSubLoop(State(), t, i, result)
        decreases |t.children| - i
      {
        if i + 1 >= |t.children| {
          return Raised(IndexOutOfBounds);
        }
        var op := t.children[i].symbol.kind;
        var right := AddSubOperand(t, i);
        if right.Raised? {
          return right;
        }
        var res := NewUnamedI32Id();
        if op == Some(PLUS) {
          NewLine(BinaryLine(res, "add", result, right.id));
        } else if op == Some(MINUS) {
          NewLine(BinaryLine(res, "sub", result, right.id));
        }
        result := res;
        i := i + 2;
      }
      return Emitted(result);
    }

    /** The operand of the pair at `i` in the loop of `newExprAddSub`. */
    method AddSubOperand(t: Tree, i: nat) returns (r: Emit)
      requires i + 1 < |t.children|
      modifies this
      ensures LoweringSpec.AddSubOperand(old(State()), t, i) == if r.Emitted? then Done(r.id, State()) else Failed(r.error)
      decreases t, 1, 0
    {
      var c := t.children[i + 1];
      if c.symbol.value == Tag(EXPR_MULDIV) {
        r := NewExprMulDiv(c);
      } else if c.symbol.value == Tag(EXPR_ADDSUB) {
        r := NewExprAddSub(c);
      } else if c.symbol.kind == Some(VARNAME) {
        r := NewExprPrimary(c);
      } else if i + 2 >= |t.children| {
        r := Raised(IndexOutOfBounds);
      } else if t.children[i + 2].symbol.kind == Some(NUMBER) {
        r := NewExprPrimary(c);
      } else {
        r := Raised(UnexpectedNode);
      }
    }

    method NewExprMulDiv(t: Tree) returns (r: Emit)
      modifies this
      ensures LowerExprMulDiv(old(State()), t) == if r.Emitted? then Done(r.id, State()) else Failed(r.error)
      decreases t, 2, 0
    {
      if |t.children| == 0 {
        return Raised(IndexOutOfBounds);
      }
      var first := NewExprUnary(t.children[0]);
      if first.Raised? {
        return first;
      }
      var result := first.id;
      var i := 1;
      while i < |t.children|
        invariant i >= 1
        invariant LowerExprMulDiv(old(State()), t) == MulDivLoop(State(), t, i, result)
        decreases |t.children| - i
      {
        if i + 1 >= |t.children| {
          return Raised(IndexOutOfBounds);
        }
        var op := t.children[i].symbol.kind;
        var right := MulDivOperand(t, i);
        if right.Raised? {
          return right;
        }
        var res := NewUnamedI32Id();
        if op == Some(TIMES) {
          NewLine(BinaryLine(res, "mul", result, right.id));
        } else if op == Some(DIVIDE) {
          NewLine(BinaryLine(res, "sdiv", result, right.id));
        }
        result := res;
        i := i + 2;
      }
      return Emitted(result);
    }

    /** The operand of the pair at `i` in the loop of `newExprMulDiv`. */
    method MulDivOperand(t: Tree, i: nat) returns (r: Emit)
      requires i + 1 < |t.children|
      modifies this
      ensures LoweringSpec.MulDivOperand(old(State()), t, i) == if r.Emitted? then Done(r.id, State()) else Failed(r.error)
      decreases t, 1, 0
    {
      var c := t.children[i + 1];
      if c.symbol.value == Tag(EXPR_MULDIV) {
        r := NewExprMulDiv(c);
      } else if c.symbol.value == Tag(EXPR_ADDSUB) {
        r := NewExprAddSub(c);
      } else if c.symbol.kind == Some(VARNAME) || c.symbol.kind == Some(NUMBER) {
        r := NewExprPrimary(c);
      } else if c.symbol.value == Tag(EXPR_UNARY) {
        r := NewExprUnary(c);
      } else {
        r := Raised(UnexpectedNode);
      }
    }

    method NewExprUnary(t: Tree) returns (r: Emit)
      modifies this
      ensures LowerExprUnary(old(State()), t) == if r.Emitted? then Done(r.id, State()) else Failed(r.error)
      decreases t, 2, 0
    {
      if |t.children| == 0 {
        return Raised(IndexOutOfBounds);
      }
      var first := t.children[0].symbol;
      if first.kind == Some(MINUS) {
        if |t.children| < 2 {
          return Raised(IndexOutOfBounds);
        }
        var p := NewExprPrimary(t.children[1]);
        if p.Raised? {
          return p;
        }
        var res := NewUnamedI32Id();
        NewLine(NegateLine(res, p.id));
        return Emitted(res);
      } else if first.value == Tag(EXPR_PRIMARY) {
        r := NewExprPrimary(t.children[0]);
      } else if first.kind == Some(VARNAME) || first.kind == Some(NUMBER) {
        r := NewExprPrimary(t);
      } else {
        return Raised(UnexpectedNode);
      }
    }

    method NewExprPrimary(t: Tree) returns (r: Emit)
      modifies this
      ensures LowerExprPrimary(old(State()), t) == if r.Emitted? then Done(r.id, State()) else Failed(r.error)
      decreases t, 1, 0
    {
      var lbl := if |t.children| > 0 then t.children[0].symbol else t.symbol;
      if lbl.kind == Some(VARNAME) {
        if lbl.value == NoValue {
          return Raised(NullPointer);
        }
        var id := LoadI32(ValueText(lbl.value));
        return Emitted(id);
      } else if lbl.kind == Some(NUMBER) {
        if lbl.value == NoValue {
          return Raised(NullPointer);
        }
        var res := NewUnamedI32Id();
        NewLine(NumberLine(res, ValueText(lbl.value)));
        return Emitted(res);
      } else if lbl.kind == Some(LPAREN) {
        if |t.children| < 2 {
          return Raised(IndexOutOfBounds);
        }
        r := NewExprArith(t.children[1]);
      } else {
        return Raised(UnexpectedNode);
      }
    }
  }
}
