/** src/ParseTree.java: a node with a fixed label (the field `symbol`; `label`
    is a Dafny keyword), a child list that only
    grows, and a rule number. `Tree` is the value of a node; the class
    `ParseTree` is the mutable node the parser builds. */
module ParseTrees {
  import opened Symbols

  /** The rule number of a node no production has claimed. */
  const NoRule: int := -1

  datatype Tree = Node(symbol: Symbol, children: seq<Tree>, rule: int)

  /** `new ParseTree(lbl)` as a value. */
  function Leaf(lbl: Symbol): (t: Tree)
    ensures t.symbol == lbl && t.children == [] && t.rule == NoRule
  {
    Node(lbl, [], NoRule)
  }

  class ParseTree {
    const symbol: Symbol
    var children: seq<Tree>
    var ruleNumber: int

    /** The node's current value. A child is recorded by its value at the
        moment `AddChild` attaches it. */
    function Value(): Tree
      reads this
    {
      Node(symbol, children, ruleNumber)
    }

    /** `ParseTree(Symbol lbl)`: a leaf, with rule number -1. */
    constructor (lbl: Symbol)
      ensures symbol == lbl && children == [] && ruleNumber == NoRule
      ensures Value() == Leaf(lbl)
    {
      symbol := lbl;
      children := [];
      ruleNumber := NoRule;
    }

    /** `ParseTree(Symbol lbl, List<ParseTree> chdn, int ruleNum)`. */
    constructor WithChildren(lbl: Symbol, chdn: seq<Tree>, ruleNum: int)
      ensures symbol == lbl && children == chdn && ruleNumber == ruleNum
    {
      symbol := lbl;
      children := chdn;
      ruleNumber := ruleNum;
    }

    /** Appends one child at the end; nothing else changes. */
    method AddChild(child: ParseTree)
      modifies this
      ensures children == old(children) + [old(child.Value())]
      ensures ruleNumber == old(ruleNumber)
    {
      children := children + [child.Value()];
    }

    function GetChildren(): seq<Tree>
      reads this
    {
      children
    }

    function GetRuleNumber(): int
      reads this
    {
      ruleNumber
    }

    function GetLabel(): Symbol
    {
      symbol
    }

    /** Overwrites the rule number; the children are unchanged (the label is
        a constant, fixed at construction). */
    method SetRuleNumber(r: int)
      modifies this
      ensures GetRuleNumber() == r
      ensures GetChildren() == old(GetChildren())
    {
      ruleNumber := r;
    }
  }
}
