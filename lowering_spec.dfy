/** The LLVM IR generator of src/LLVMIRGenerator.java as functions on its
    state: the text emitted so far, the table of named variables, the two
    counters and the indent level. Each lowering function takes the state
    before a call and returns the identifier the Java method returns (or ""
    for a `void` method) with the state after it, or the exception that aborts
    the generation. The class `Lowering.LLVMIRGenerator` is proved to compute
    exactly these results.

    Labels are compared as the Java code compares them: `getValue() ==
    NonTerminal.X` holds when the value is the enum constant `X` (`Tag(X)`),
    and `getType() == LexicalUnit.K` when the kind is `K`. */
module LoweringSpec {
  import opened Wrappers
  import opened Grammar
  import opened Text
  import opened Symbols
  import opened ParseTrees

  /** The generator's fields. The output buffer is kept as the list of the
      pieces appended to it, one per emitted line; its text is their
      concatenation. Keys of `vars` are `Option<string>` because
      `getOrNewI32(null)` is a legal `HashMap` access. */
  datatype GenState = GenState(
    code: seq<string>,
    vars: map<Option<string>, string>,
    temps: nat,
    labels: nat,
    indent: nat)

  /** The exceptions a lowering can raise. */
  datatype GenError =
    | NullPointer        // a method called on a `null` node, value or operator
    | IndexOutOfBounds   // `List.get` past the end of a child list
    | NoSuchElement      // `List.getFirst` on an empty child list
    | IllegalState       // `newInstructions` or `compOpToLlvmOp` on an unknown case
    | UnexpectedNode     // the `RuntimeException`s of the expression and loop lowerings

  /** What a lowering method returns: an identifier and the new state, or the
      exception it raised. */
  datatype Lowered = Done(id: string, st: GenState) | Failed(error: GenError)

  /** A helper that cannot fail: the identifier it returns and the new state. */
  datatype Named = Named(id: string, st: GenState)

  /** What `compOpToLlvmOp` returns or raises. */
  datatype Operator = Op(name: string) | OpError(error: GenError)

  /** `b` is a later state than `a`: the lines emitted so far are still
      there, no table entry changed or vanished, the counters only went up,
      and the indent level is back where it was. */
  predicate Grows(a: GenState, b: GenState)
  {
    && a.code <= b.code
    && (forall k :: k in a.vars ==> k in b.vars && b.vars[k] == a.vars[k])
    && a.temps <= b.temps && a.labels <= b.labels
    && a.indent == b.indent
  }

  // ---- helpers -------------------------------------------------------------

  /** One emitted line: `indent` spaces, the text, a newline. */
  function Line(indent: nat, text: string): string
  {
    Spaces(indent) + text + "\n"
  }

  /** `newLine(line)`: appends one line at the current indent level. It only
      appends: the old buffer is a prefix of the new one, the one new line
      is the indentation, the text and a newline, and nothing else changes. */
  function NewLine(st: GenState, text: string): (r: GenState)
    ensures r.code == st.code + [Spaces(st.indent) + text + "\n"]
    ensures r.vars == st.vars && r.temps == st.temps && r.labels == st.labels && r.indent == st.indent
  {
    st.(code := st.code + [Line(st.indent, text)])
  }

  /** The text of a buffer. */
  function Concat(lines: seq<string>): string
  {
    if lines == [] then "" else Concat(lines[..|lines| - 1]) + lines[|lines| - 1]
  }

  function TempName(n: nat): string
  {
    "%" + NatToString(n)
  }

  function LabelName(n: nat): string
  {
    "label" + NatToString(n)
  }

  /** `newUnamedI32Id()`: the temporary numbered by the counter, which then
      moves up by one. */
  function NewTemp(st: GenState): (r: Named)
    ensures r.id == TempName(st.temps) && r.st == st.(temps := st.temps + 1)
  {
    Named(TempName(st.temps), st.(temps := st.temps + 1))
  }

  /** `newLabel()`, the same for labels. */
  function NewLabel(st: GenState): (r: Named)
    ensures r.id == LabelName(st.labels) && r.st == st.(labels := st.labels + 1)
  {
    Named(LabelName(st.labels), st.(labels := st.labels + 1))
  }

  /** Java's string concatenation of a possibly-null string. */
  function NullText(s: Option<string>): string
  {
    if s.None? then "null" else s.value
  }

  /** The stack slot of a named variable. */
  function SlotName(name: Option<string>): string
  {
    "%var_" + NullText(name)
  }

  /** `getOrNewI32(name)`: a name seen for the first time gets the slot
      `%var_<name>` and one `alloca` line; a known name gets its slot back and
      nothing is emitted. */
  function GetOrNewI32(st: GenState, name: Option<string>): (r: Named)
    ensures r.st.temps == st.temps && r.st.labels == st.labels && r.st.indent == st.indent
    ensures name in st.vars ==> r == Named(st.vars[name], st)
    ensures name !in st.vars ==>
      && r.id == SlotName(name)
      && r.st.vars == st.vars[name := SlotName(name)]
      && r.st.code == st.code + [Line(st.indent, AllocaLine(SlotName(name)))]
  {
    if name in st.vars then Named(st.vars[name], st)
    else
      var id := SlotName(name);
      var st1 := st.(vars := st.vars[name := id]);
      Named(st1.vars[name], NewLine(st1, AllocaLine(id)))
  }

  /** `loadI32(name)`: the slot, then a fresh temporary loaded from it. */
  function LoadI32(st: GenState, name: string): (r: Named)
    ensures Grows(st, r.st) && r.st.labels == st.labels
  {
    var slot := GetOrNewI32(st, Some(name));
    var tmp := NewTemp(slot.st);
    Named(tmp.id, NewLine(tmp.st, LoadLine(tmp.id, slot.id)))
  }

  /** `storeInNamI32(name, value)`. */
  function StoreInNamI32(st: GenState, name: Option<string>, value: Option<string>): (r: GenState)
    ensures Grows(st, r) && r.temps == st.temps && r.labels == st.labels
  {
    var slot := GetOrNewI32(st, name);
    NewLine(slot.st, StoreLine(NullText(value), slot.id))
  }

  /** `compOpToLlvmOp`: a `switch` on the operator string, which throws on
      `null`. */
  function CompOpToLlvmOp(op: Option<string>): (r: Operator)
    ensures op == Some("==") <==> r == Op("eq")
    ensures op == Some("<") <==> r == Op("slt")
    ensures op == Some("<=") <==> r == Op("sle")
    ensures op.None? <==> r == OpError(NullPointer)
    ensures r.Op? || r.error in {NullPointer, IllegalState}
  {
    if op.None? then OpError(NullPointer)
    else if op.value == "==" then Op("eq")
    else if op.value == "<" then Op("slt")
    else if op.value == "<=" then Op("sle")
    else OpError(IllegalState)
  }

  const HeaderTitle := "Generated LLVM IR code frome ParseTree\n"
  const HeaderDeclarations := "; External function declarations :"
  const HeaderGetchar := "declare i32 @getchar () ; gets one character from stdin"
  const HeaderPutchar := "declare i32 @putchar ( i32 ) ; writes one character to stdout"

  /** The header's fixed lines, then the text block with the I/O helpers,
      which the model takes as given. */
  function Header(st: GenState, preamble: string): (r: GenState)
    ensures Grows(st, r)
  {
    var st1 := NewLine(st, HeaderTitle);
    var st2 := NewLine(st1, HeaderDeclarations);
    var st3 := NewLine(st2, HeaderGetchar);
    var st4 := NewLine(st3, HeaderPutchar);
    NewLine(st4, preamble)
  }

  function Indent(st: GenState): GenState
  {
    st.(indent := st.indent + 1)
  }

  function Dedent(st: GenState): GenState
    requires st.indent > 0
  {
    st.(indent := st.indent - 1)
  }

  // ---- the lines the generator emits -------------------------------------

  const MainLine := "define i32 @main() {"
  const EntryLine := "entry:"
  const RetLine := "ret i32 0"
  const CloseLine := "}"
  const WhileComment := "; while"
  const CheckComment := "; Condition check"
  const EndWhileComment := "; end while"
  /** The line `newWhile` emits where the end label belongs. */
  const BareColon := ":"
  const ArithComment := "; new ExppArith"
  const ComparisonComment := "; Comparison"
  const ImplicationComment := "; start of a left -> right"

  function AllocaLine(slot: string): string { slot + " = alloca i32" }
  function LoadLine(tmp: string, slot: string): string { tmp + " = load i32, i32 * " + slot }
  function StoreLine(value: string, slot: string): string { "store i32 " + value + ", i32* " + slot }
  function BranchLine(cond: string, yes: string, no: string): string { "br i1 " + cond + ", label %" + yes + ", label %" + no }
  function JumpLine(target: string): string { "br label %" + target }
  function LabelLine(l: string): string { l + ":" }
  function InvertLine(tmp: string, left: string): string { tmp + " = or i1 " + left + ", true ; invert left" }
  function ImplicationLine(tmp: string, notLeft: string, right: string): string
  {
    tmp + " = or i1 " + notLeft + ", " + right + "; (not left) or right"
  }
  function CompareLine(tmp: string, cmp: string, left: string, right: string): string
  {
    tmp + " = icmp " + cmp + " i32 " + left + ", " + right
  }
  /** `add`, `sub`, `mul` and `sdiv` lines. */
  function BinaryLine(tmp: string, opcode: string, left: string, right: string): string
  {
    tmp + " = " + opcode + " i32 " + left + ", " + right
  }
  function NegateLine(tmp: string, operand: string): string { tmp + " = sub i32 0, " + operand }
  function NumberLine(tmp: string, number: string): string { tmp + " = add i32 0, " + number }
  function PrintComment(name: string): string { "; print(" + name + ")" }
  function PrintCall(value: string): string { "call void @println(i32 " + value + ")" }
  function ReadComment(name: string): string { "; read(" + name + ")" }
  function ReadCall(tmp: string): string { tmp + " = call i32 @readInt()" }

  // ---- program and statements ------------------------------------------------

  /** `generateLLVMIR(root)`: the indent level reset to 0, the header, `main`
      around the lowering of the root's child 1, and the whole buffer as the
      result. */
  function GenerateLLVMIR(st: GenState, root: Tree, preamble: string): (r: Lowered)
    ensures r.Done? ==> r.id == Concat(r.st.code) && r.st.indent == 0
  {
    var st0 := Header(st.(indent := 0), preamble);
    var st1 := Indent(NewLine(NewLine(st0, MainLine), EntryLine));
    if |root.children| < 2 then Failed(IndexOutOfBounds)
    else
      match LowerCodeBranch(st1, root.children[1])
      case Failed(e) => Failed(e)
      case Done(_, st2) =>
        var st4 := NewLine(Dedent(NewLine(st2, RetLine)), CloseLine);
        Done(Concat(st4.code), st4)
  }

  /** `newCodeBranch(node)`: lowers the `INSTRUCTION` children and recurses
      into the `CODE` children, in order, skipping every other child. */
  function LowerCodeBranch(st: GenState, t: Tree): (r: Lowered)
    ensures r.Done? ==> Grows(st, r.st) && r.id == ""
    decreases t, 1, 0
  {
    CodeBranchLoop(st, t, 0)
  }

  /** The `for` loop of `newCodeBranch`, from child `i` on. */
  function CodeBranchLoop(st: GenState, t: Tree, i: nat): (r: Lowered)
    requires i <= |t.children|
    ensures r.Done? ==> Grows(st, r.st) && r.id == ""
    decreases t, 0, |t.children| - i
  {
    if i == |t.children| then Done("", st)
    else
      var c := t.children[i];
      var step :=
        if c.symbol.value == Tag(INSTRUCTION) then LowerInstructions(st, c)
        else if c.symbol.value == Tag(CODE) then LowerCodeBranch(st, c)
        else Done("", st);
      match step
      case Failed(e) => Failed(e)
      case Done(_, st1) => CodeBranchLoop(st1, t, i + 1)
  }

  /** `newInstructions(node)`: dispatches on the value of child 0's label. A
      `null` value makes the `switch` throw; a value that is none of the five
      statement tags is an `IllegalStateException`. */
  function LowerInstructions(st: GenState, t: Tree): (r: Lowered)
    ensures r.Done? ==> Grows(st, r.st) && r.id == ""
    decreases t, 2, 0
  {
    if |t.children| == 0 then Failed(IndexOutOfBounds)
    else
      var c := t.children[0];
      var v := c.symbol.value;
      var r :=
        if v == NoValue then Failed(NullPointer)
        else if v == Tag(ASSIGN_NT) then LowerAssign(st, c)
        else if v == Tag(IF_NT) then LowerIf(st, c)
        else if v == Tag(WHILE_NT) then LowerWhile(st, c)
        else if v == Tag(OUTPUT) then LowerOutput(st, c)
        else if v == Tag(INPUT_NT) then LowerInput(st, c)
        else Failed(IllegalState);
      match r
      case Failed(e) => Failed(e)
      case Done(_, st1) => Done("", st1)
  }

  /** `newAssign(node)`: the loop over the children collects the variable
      name and lowers the expression, then the value is stored. */
  function LowerAssign(st: GenState, t: Tree): (r: Lowered)
    ensures r.Done? ==> Grows(st, r.st) && r.id == ""
    decreases t, 1, 0
  {
    AssignLoop(st, t, 0, None, None)
  }

  /** The loop of `newAssign` from child `i` on, with the name and the value
      identifier found so far (`null` until found). */
  function AssignLoop(st: GenState, t: Tree, i: nat, name: Option<string>, value: Option<string>): (r: Lowered)
    requires i <= |t.children|
    ensures r.Done? ==> Grows(st, r.st) && r.id == ""
    decreases t, 0, |t.children| - i
  {
    if i == |t.children| then Done("", StoreInNamI32(st, name, value))
    else
      var c := t.children[i];
      var lbl := c.symbol;
      if IsTerminal(lbl) && lbl.kind == Some(VARNAME) then
        if lbl.value == NoValue then Failed(NullPointer)
        else AssignLoop(st, t, i + 1, Some(ValueText(lbl.value)), value)
      else if !IsExpressionChild(lbl) then AssignLoop(st, t, i + 1, name, value)
      else
        match LowerAssignValue(st, c)
        case Failed(e) => Failed(e)
        case Done(id, st1) => AssignLoop(st1, t, i + 1, name, Some(id))
  }

  /** The lowering `newAssign` picks for an expression child: `newExprArith`
      for `EXPR_ARITH`, `newExprAddSub` for `EXPR_ADDSUB`, and otherwise
      `newExprMulDiv`. */
  function LowerAssignValue(st: GenState, c: Tree): (r: Lowered)
    ensures r.Done? ==> Grows(st, r.st)
    decreases c, 4, 0
  {
    if IsNonTerminal(c.symbol) && c.symbol.value == Tag(EXPR_ARITH) then LowerExprArith(st, c)
    else if IsNonTerminal(c.symbol) && c.symbol.value == Tag(EXPR_ADDSUB) then LowerExprAddSub(st, c)
    else LowerExprMulDiv(st, c)
  }

  /** The children of an assignment that `newAssign` lowers as its value. */
  predicate IsExpressionChild(lbl: Symbol)
  {
    || (IsNonTerminal(lbl) && lbl.value == Tag(EXPR_ARITH))
    || (IsNonTerminal(lbl) && lbl.value == Tag(EXPR_ADDSUB))
    || lbl.value == Tag(EXPR_MULDIV)
  }

  /** What the scan of `newIf` over the children keeps: the last `COND_IMPL`
      child and the children after the last `THEN` and `ELSE` terminals. */
  datatype IfParts = IfParts(cond: Option<Tree>, thenPart: Option<Tree>, elsePart: Option<Tree>)

  predicate PartsIn(p: IfParts, ch: seq<Tree>)
  {
    && (p.cond.Some? ==> p.cond.value in ch)
    && (p.thenPart.Some? ==> p.thenPart.value in ch)
    && (p.elsePart.Some? ==> p.elsePart.value in ch)
  }

  /** The loop of `newIf` from child `i` on. */
  function ScanIf(ch: seq<Tree>, i: nat, acc: IfParts): (r: IfParts)
    requires PartsIn(acc, ch)
    ensures PartsIn(r, ch)
    decreases |ch| - i
  {
    if i >= |ch| then acc
    else if ch[i].symbol.value == Tag(COND_IMPL) then ScanIf(ch, i + 1, acc.(cond := Some(ch[i])))
    else if ch[i].symbol.kind == Some(THEN) && i + 1 < |ch| then ScanIf(ch, i + 1, acc.(thenPart := Some(ch[i + 1])))
    else if ch[i].symbol.kind == Some(ELSE) && i + 1 < |ch| then ScanIf(ch, i + 1, acc.(elsePart := Some(ch[i + 1])))
    else ScanIf(ch, i + 1, acc)
  }

  /** `newIf(node)`: the condition first, then the blocks. */
  function LowerIf(st: GenState, t: Tree): (r: Lowered)
    ensures r.Done? ==> Grows(st, r.st) && r.id == ""
    decreases t, 1, 0
  {
    var parts := ScanIf(t.children, 0, IfParts(None, None, None));
    if parts.cond.None? then Failed(NullPointer)
    else
      match LowerCond(st, parts.cond.value)
      case Failed(e) => Failed(e)
      case Done(cond, st1) => IfBlocks(st1, t, cond, parts)
  }

  /** The rest of `newIf` once the condition is lowered: three consecutive
      labels, the branch, the `then` block ending with a jump to the end
      label, the `else` block (its label always, its code if there is any),
      and the end label as a bare line without a colon. */
  function IfBlocks(st: GenState, t: Tree, cond: string, parts: IfParts): (r: Lowered)
    requires PartsIn(parts, t.children)
    ensures r.Done? ==> Grows(st, r.st) && r.id == ""
    decreases t, 0, 1
  {
    var thenL := LabelName(st.labels);
    var elseL := LabelName(st.labels + 1);
    var endL := LabelName(st.labels + 2);
    var st1 := NewLine(st.(labels := st.labels + 3), BranchLine(cond, thenL, elseL));
    if parts.thenPart.None? then Failed(NullPointer)
    else
      match Block(st1, t, thenL, parts.thenPart, Some(endL))
      case Failed(e) => Failed(e)
      case Done(_, st2) =>
        match Block(st2, t, elseL, parts.elsePart, None)
        case Failed(e) => Failed(e)
        case Done(_, st3) => Done("", NewLine(st3, endL))
  }

  /** A labelled block of `newIf` or `newWhile`: the line of its label `head`, then one
      level deeper the code of `body` if there is one and the jump to `exit`
      if there is one. */
  function Block(st: GenState, t: Tree, head: string, body: Option<Tree>, exit: Option<string>): (r: Lowered)
    requires body.Some? ==> body.value in t.children
    ensures r.Done? ==> Grows(st, r.st) && r.id == ""
    decreases t, 0, 0
  {
    var st1 := Indent(NewLine(st, LabelLine(head)));
    var code := if body.Some? then LowerCodeBranch(st1, body.value) else Done("", st1);
    match code
    case Failed(e) => Failed(e)
    case Done(_, st2) =>
      var st3 := if exit.Some? then NewLine(st2, JumpLine(exit.value)) else st2;
      Done("", Dedent(st3))
  }

  /** What the scan of `newWhile` keeps, or the child it rejects. */
  datatype WhileParts = WhileParts(cond: Option<Tree>, body: Option<Tree>) | BadChild

  /** The loop of `newWhile` from child `i` on: every child must be a
      `COND_IMPL` or a `CODE`. */
  function ScanWhile(ch: seq<Tree>, i: nat, cond: Option<Tree>, body: Option<Tree>): (r: WhileParts)
    requires (cond.Some? ==> cond.value in ch) && (body.Some? ==> body.value in ch)
    ensures r.WhileParts? ==> (r.cond.Some? ==> r.cond.value in ch) && (r.body.Some? ==> r.body.value in ch)
    decreases |ch| - i
  {
    if i >= |ch| then WhileParts(cond, body)
    else if ch[i].symbol.value == Tag(COND_IMPL) then ScanWhile(ch, i + 1, Some(ch[i]), body)
    else if ch[i].symbol.value == Tag(CODE) then ScanWhile(ch, i + 1, cond, Some(ch[i]))
    else BadChild
  }

  /** `newWhile(node)`: the scan of the children, the three consecutive
      labels, the condition check under the start label, the body under the
      body label ending with a jump back to the start label, and then a line
      holding only ":" where the end label was meant to go. */
  function LowerWhile(st: GenState, t: Tree): (r: Lowered)
    ensures r.Done? ==> Grows(st, r.st) && r.id == ""
    decreases t, 1, 0
  {
    match ScanWhile(t.children, 0, None, None)
    case BadChild => Failed(UnexpectedNode)
    case WhileParts(cond, body) =>
      var st1 := NewLine(st, WhileComment);
      var startL := LabelName(st1.labels);
      var bodyL := LabelName(st1.labels + 1);
      var endL := LabelName(st1.labels + 2);
      match WhileCheck(st1.(labels := st1.labels + 3), t, startL, bodyL, endL, cond)
      case Failed(e) => Failed(e)
      case Done(_, st2) =>
        if body.None? then Failed(NullPointer)
        else
          match Block(st2, t, bodyL, body, Some(startL))
          case Failed(e) => Failed(e)
          case Done(_, st3) => Done("", NewLine(NewLine(st3, BareColon), EndWhileComment))
  }

  /** The condition check of `newWhile`: a jump to the start label, the
      start label, then one level deeper the condition and the branch to the
      body or the end label. */
  function WhileCheck(st: GenState, t: Tree, startL: string, bodyL: string, endL: string,
                      cond: Option<Tree>): (r: Lowered)
    requires cond.Some? ==> cond.value in t.children
    ensures r.Done? ==> Grows(st, r.st) && r.id == ""
    decreases t, 0, 0
  {
    var st1 := CheckOpened(st, startL);
    if cond.None? then Failed(NullPointer)
    else
      match LowerCond(st1, cond.value)
      case Failed(e) => Failed(e)
      case Done(c, st2) => Done("", Dedent(NewLine(st2, BranchLine(c, bodyL, endL))))
  }

  /** The state in which `newWhile` lowers its condition: after the comment,
      the jump into the start label and the start label, one level deeper. */
  function CheckOpened(st: GenState, startL: string): GenState
  {
    Indent(NewLine(NewLine(NewLine(st, CheckComment), JumpLine(startL)), LabelLine(startL)))
  }

  /** The text of the first child's value, as `newOutput` and `newInput`
      read the variable name. */
  function FirstValueText(t: Tree): NameResult
  {
    if |t.children| == 0 then NameError(NoSuchElement)
    else if t.children[0].symbol.value == NoValue then NameError(NullPointer)
    else Name(ValueText(t.children[0].symbol.value))
  }

  datatype NameResult = Name(name: string) | NameError(error: GenError)

  /** `newOutput(node)`: a comment, the load of the variable and the call of
      `println`. */
  function LowerOutput(st: GenState, t: Tree): (r: Lowered)
    ensures r.Done? ==> Grows(st, r.st) && r.id == ""
    decreases t, 1, 0
  {
    match FirstValueText(t)
    case NameError(e) => Failed(e)
    case Name(name) =>
      var value := LoadI32(NewLine(st, PrintComment(name)), name);
      Done("", NewLine(value.st, PrintCall(value.id)))
  }

  /** `newInput(node)`: a comment and the call of `readInt` into a fresh
      temporary, which is returned and never stored. */
  function LowerInput(st: GenState, t: Tree): (r: Lowered)
    ensures r.Done? ==> Grows(st, r.st)
    decreases t, 1, 0
  {
    match FirstValueText(t)
    case NameError(e) => Failed(e)
    case Name(name) =>
      var tmp := NewTemp(NewLine(st, ReadComment(name)));
      Done(tmp.id, NewLine(tmp.st, ReadCall(tmp.id)))
  }

  // ---- conditions ----------------------------------------------------------

  /** `newCond(node)`: the implication held in child 0. */
  function LowerCond(st: GenState, t: Tree): (r: Lowered)
    ensures r.Done? ==> Grows(st, r.st) && r.st.labels == st.labels
    decreases t, 3, 0
  {
    if |t.children| == 0 then Failed(IndexOutOfBounds)
    else LowerCondImpl(st, t.children[0])
  }

  /** `newCondImpl(node)`: an atom, or "left -> right" from children 0 and 2
      as `(left or true) or right`. */
  function LowerCondImpl(st: GenState, t: Tree): (r: Lowered)
    ensures r.Done? ==> Grows(st, r.st) && r.st.labels == st.labels
    decreases t, 3, 0
  {
    if |t.children| == 0 then Failed(IndexOutOfBounds)
    else if t.symbol.value == Tag(COND_ATOM) then LowerCondAtom(st, t.children[0])
    else
      match LowerCond(st, t.children[0])
      case Failed(e) => Failed(e)
      case Done(left, st1) =>
        if |t.children| < 3 then Failed(IndexOutOfBounds)
        else
          match LowerCond(st1, t.children[2])
          case Failed(e) => Failed(e)
          case Done(right, st2) =>
            var notLeft := NewTemp(NewLine(st2, ImplicationComment));
            var impl := NewTemp(NewLine(notLeft.st, InvertLine(notLeft.id, left)));
            Done(impl.id, NewLine(impl.st, ImplicationLine(impl.id, notLeft.id, right)))
  }

  /** `newCondAtom(node)`: a nested implication yields "" and emits nothing;
      anything else is a comparison. */
  function LowerCondAtom(st: GenState, t: Tree): (r: Lowered)
    ensures r.Done? ==> Grows(st, r.st) && r.st.labels == st.labels
    decreases t, 3, 0
  {
    if |t.children| == 0 then Failed(IndexOutOfBounds)
    else if t.children[0].symbol.value == Tag(COND_IMPL) then Done("", st)
    else LowerCondComp(st, t.children[0])
  }

  /** `newCondComp(node)`: both operands, then one `icmp` on them. The
      operator is the text of child 1 when that is an `==`, `<` or `<=`
      terminal, and `null` otherwise. */
  function LowerCondComp(st: GenState, t: Tree): (r: Lowered)
    ensures r.Done? ==> Grows(st, r.st) && r.st.labels == st.labels
    decreases t, 2, 0
  {
    if |t.children| == 0 then Failed(IndexOutOfBounds)
    else
      match LowerExprArith(st, t.children[0])
      case Failed(e) => Failed(e)
      case Done(left, st1) =>
        if |t.children| < 2 then Failed(IndexOutOfBounds)
        else
          var comp := t.children[1].symbol;
          var isComparison := comp.kind in {Some(EQUAL), Some(SMALLER), Some(SMALEQ)};
          if isComparison && comp.value == NoValue then Failed(NullPointer)
          else
            var op := if isComparison then Some(ValueText(comp.value)) else None;
            if |t.children| < 3 then Failed(IndexOutOfBounds)
            else
              match LowerExprArith(st1, t.children[2])
              case Failed(e) => Failed(e)
              case Done(right, st2) =>
                match CompOpToLlvmOp(op)
                case OpError(e) => Failed(e)
                case Op(cmp) =>
                  var res := NewTemp(st2);
                  Done(res.id, NewLine(NewLine(res.st, ComparisonComment), CompareLine(res.id, cmp, left, right)))
  }

  // ---- expressions ---------------------------------------------------------

  /** `newExprArith(node)`: an `EXPR_ADDSUB` or `EXPR_MULDIV` node is lowered
      as a sum, otherwise child 0 must be one; one indent level deeper. */
  function LowerExprArith(st: GenState, t: Tree): (r: Lowered)
    ensures r.Done? ==> Grows(st, r.st) && r.st.labels == st.labels
    decreases t, 3, 0
  {
    if |t.children| == 0 then Failed(IndexOutOfBounds)
    else
      var st1 := Indent(NewLine(st, ArithComment));
      var r :=
        if t.symbol.value == Tag(EXPR_ADDSUB) then LowerExprAddSub(st1, t)
        else if t.symbol.value == Tag(EXPR_MULDIV) then LowerExprAddSub(st1, t)
        else if t.children[0].symbol.value == Tag(EXPR_ADDSUB) then LowerExprAddSub(st1, t.children[0])
        else Failed(UnexpectedNode);
      match r
      case Failed(e) => Failed(e)
      case Done(id, st2) => Done(id, Dedent(st2))
  }

  /** `newExprAddSub(node)`: child 0 as a product, then one step per
      (operator, operand) pair. */
  function LowerExprAddSub(st: GenState, t: Tree): (r: Lowered)
    ensures r.Done? ==> Grows(st, r.st) && r.st.labels == st.labels
    decreases t, 2, 0
  {
    if |t.children| == 0 then Failed(IndexOutOfBounds)
    else
      match LowerExprMulDiv(st, t.children[0])
      case Failed(e) => Failed(e)
      case Done(first, st1) => AddSubLoop(st1, t, 1, first)
  }

  /** The operand of the pair at `i` in a sum. */
  function AddSubOperand(st: GenState, t: Tree, i: nat): (r: Lowered)
    requires i + 1 < |t.children|
    ensures r.Done? ==> Grows(st, r.st) && r.st.labels == st.labels
    decreases t, 1, 0
  {
    var c := t.children[i + 1];
    if c.symbol.value == Tag(EXPR_MULDIV) then LowerExprMulDiv(st, c)
    else if c.symbol.value == Tag(EXPR_ADDSUB) then LowerExprAddSub(st, c)
    else if c.symbol.kind == Some(VARNAME) then LowerExprPrimary(st, c)
    else if i + 2 >= |t.children| then Failed(IndexOutOfBounds)
    else if t.children[i + 2].symbol.kind == Some(NUMBER) then LowerExprPrimary(st, c)
    else Failed(UnexpectedNode)
  }

  /** The loop of `newExprAddSub` from the pair at `i` on, with the
      identifier of the sum so far. Each pair takes one fresh temporary; `+`
      emits an `add`, `-` a `sub`, any other operator no line. */
  function AddSubLoop(st: GenState, t: Tree, i: nat, acc: string): (r: Lowered)
    requires i >= 1
    ensures r.Done? ==> Grows(st, r.st) && r.st.labels == st.labels
    decreases t, 1, |t.children| - i
  {
    if i >= |t.children| then Done(acc, st)
    else if i + 1 >= |t.children| then Failed(IndexOutOfBounds)
    else
      match AddSubOperand(st, t, i)
      case Failed(e) => Failed(e)
      case Done(right, st1) =>
        var op := t.children[i].symbol.kind;
        var res := NewTemp(st1);
        var st2 :=
          if op == Some(PLUS) then NewLine(res.st, BinaryLine(res.id, "add", acc, right))
          else if op == Some(MINUS) then NewLine(res.st, BinaryLine(res.id, "sub", acc, right))
          else res.st;
        AddSubLoop(st2, t, i + 2, res.id)
  }

  /** `newExprMulDiv(node)`: child 0 as a unary expression, then one step
      per (operator, operand) pair. */
  function LowerExprMulDiv(st: GenState, t: Tree): (r: Lowered)
    ensures r.Done? ==> Grows(st, r.st) && r.st.labels == st.labels
    decreases t, 2, 0
  {
    if |t.children| == 0 then Failed(IndexOutOfBounds)
    else
      match LowerExprUnary(st, t.children[0])
      case Failed(e) => Failed(e)
      case Done(first, st1) => MulDivLoop(st1, t, 1, first)
  }

  /** The operand of the pair at `i` in a product. */
  function MulDivOperand(st: GenState, t: Tree, i: nat): (r: Lowered)
    requires i + 1 < |t.children|
    ensures r.Done? ==> Grows(st, r.st) && r.st.labels == st.labels
    decreases t, 1, 0
  {
    var c := t.children[i + 1];
    if c.symbol.value == Tag(EXPR_MULDIV) then LowerExprMulDiv(st, c)
    else if c.symbol.value == Tag(EXPR_ADDSUB) then LowerExprAddSub(st, c)
    else if c.symbol.kind == Some(VARNAME) || c.symbol.kind == Some(NUMBER) then LowerExprPrimary(st, c)
    else if c.symbol.value == Tag(EXPR_UNARY) then LowerExprUnary(st, c)
    else Failed(UnexpectedNode)
  }

  /** The loop of `newExprMulDiv`: `*` emits a `mul`, `/` an `sdiv`. */
  function MulDivLoop(st: GenState, t: Tree, i: nat, acc: string): (r: Lowered)
    requires i >= 1
    ensures r.Done? ==> Grows(st, r.st) && r.st.labels == st.labels
    decreases t, 1, |t.children| - i
  {
    if i >= |t.children| then Done(acc, st)
    else if i + 1 >= |t.children| then Failed(IndexOutOfBounds)
    else
      match MulDivOperand(st, t, i)
      case Failed(e) => Failed(e)
      case Done(right, st1) =>
        var op := t.children[i].symbol.kind;
        var res := NewTemp(st1);
        var st2 :=
          if op == Some(TIMES) then NewLine(res.st, BinaryLine(res.id, "mul", acc, right))
          else if op == Some(DIVIDE) then NewLine(res.st, BinaryLine(res.id, "sdiv", acc, right))
          else res.st;
        MulDivLoop(st2, t, i + 2, res.id)
  }

  /** `newExprUnary(node)`: `- primary` as `sub i32 0, x`; otherwise a
      primary, held either in child 0 or, for a lone name or number, in the
      node itself. */
  function LowerExprUnary(st: GenState, t: Tree): (r: Lowered)
    ensures r.Done? ==> Grows(st, r.st) && r.st.labels == st.labels
    decreases t, 2, 0
  {
    if |t.children| == 0 then Failed(IndexOutOfBounds)
    else
      var first := t.children[0].symbol;
      if first.kind == Some(MINUS) then
        if |t.children| < 2 then Failed(IndexOutOfBounds)
        else
          match LowerExprPrimary(st, t.children[1])
          case Failed(e) => Failed(e)
          case Done(p, st1) =>
            var res := NewTemp(st1);
            Done(res.id, NewLine(res.st, NegateLine(res.id, p)))
      else if first.value == Tag(EXPR_PRIMARY) then LowerExprPrimary(st, t.children[0])
      else if first.kind == Some(VARNAME) || first.kind == Some(NUMBER) then LowerExprPrimary(st, t)
      else Failed(UnexpectedNode)
  }

  /** `newExprPrimary(node)`: a variable is loaded, a number is materialised
      with `add i32 0, n`, and a parenthesised expression is lowered from
      child 1. The token looked at is child 0, or the node itself when it has
      no children. */
  function LowerExprPrimary(st: GenState, t: Tree): (r: Lowered)
    ensures r.Done? ==> Grows(st, r.st) && r.st.labels == st.labels
    decreases t, 1, 0
  {
    var lbl := if |t.children| > 0 then t.children[0].symbol else t.symbol;
    if lbl.kind == Some(VARNAME) then
      if lbl.value == NoValue then Failed(NullPointer)
      else
        var value := LoadI32(st, ValueText(lbl.value));
        Done(value.id, value.st)
    else if lbl.kind == Some(NUMBER) then
      if lbl.value == NoValue then Failed(NullPointer)
      else
        var res := NewTemp(st);
        Done(res.id, NewLine(res.st, NumberLine(res.id, ValueText(lbl.value))))
    else if lbl.kind == Some(LPAREN) then
      if |t.children| < 2 then Failed(IndexOutOfBounds)
      else LowerExprArith(st, t.children[1])
    else Failed(UnexpectedNode)
  }
}
