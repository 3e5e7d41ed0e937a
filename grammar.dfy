/** The closed vocabularies of the YaLCC compiler: the terminal kinds produced
    by the lexer (the Java enum `LexicalUnit`, whose source is not part of this
    model) and the two non-terminal enums (`NonTerminal` and the parser's own
    `Parser.NonTerminal`), with the names Java's `toString` gives them. */
module Grammar {

  /** Terminal kinds, as used by the parser and the generator. */
  datatype LexicalUnit =
    | PROG | PROGNAME | IS | END | SEMI
    | VARNAME | NUMBER | ASSIGN
    | IF | THEN | ELSE | WHILE | DO | PRINT | INPUT
    | LPAREN | RPAREN | LBRACK | RBRACK | PIPE
    | PLUS | MINUS | TIMES | DIVIDE
    | EQUAL | SMALLER | SMALEQ | IMPLIES
    | EOS

  /** src/NonTerminal.java: the tags the code generator tests labels against. */
  datatype NonTerminal =
    | PROGRAM | CODE | INSTRUCTION | ASSIGN_NT | IF_NT | WHILE_NT | OUTPUT | INPUT_NT
    | COND_IMPL | COND_COMP | COND_ATOM
    | EXPR_ARITH | EXPR_ADDSUB | EXPR_MULDIV | EXPR_UNARY | EXPR_PRIMARY | UNARY_MINUS

  /** `Parser.NonTerminal`: the parser's own enum, whose names become the
      string values of the parser's non-terminal labels. */
  datatype ParserNonTerminal =
    | P_PROGRAM | P_CODE | P_INSTRUCTION | P_ASSIGN | P_IF | P_WHILE | P_OUTPUT | P_INPUT
    | P_COND | P_COND_IMPL | P_COND_BASE
    | P_EXPR_ARITH | P_EXPR_ADDSUB | P_EXPR_MULDIV | P_EXPR_UNARY | P_EXPR_PRIMARY | P_UNARY_MINUS

  /** Java's `LexicalUnit.toString()`: the constant's name. */
  function UnitName(u: LexicalUnit): string
  {
    match u
    case PROG => "PROG"
    case PROGNAME => "PROGNAME"
    case IS => "IS"
    case END => "END"
    case SEMI => "SEMI"
    case VARNAME => "VARNAME"
    case NUMBER => "NUMBER"
    case ASSIGN => "ASSIGN"
    case IF => "IF"
    case THEN => "THEN"
    case ELSE => "ELSE"
    case WHILE => "WHILE"
    case DO => "DO"
    case PRINT => "PRINT"
    case INPUT => "INPUT"
    case LPAREN => "LPAREN"
    case RPAREN => "RPAREN"
    case LBRACK => "LBRACK"
    case RBRACK => "RBRACK"
    case PIPE => "PIPE"
    case PLUS => "PLUS"
    case MINUS => "MINUS"
    case TIMES => "TIMES"
    case DIVIDE => "DIVIDE"
    case EQUAL => "EQUAL"
    case SMALLER => "SMALLER"
    case SMALEQ => "SMALEQ"
    case IMPLIES => "IMPLIES"
    case EOS => "EOS"
  }

  /** Java's `NonTerminal.toString()`. */
  function TagName(nt: NonTerminal): string
  {
    match nt
    case PROGRAM => "PROGRAM"
    case CODE => "CODE"
    case INSTRUCTION => "INSTRUCTION"
    case ASSIGN_NT => "ASSIGN"
    case IF_NT => "IF"
    case WHILE_NT => "WHILE"
    case OUTPUT => "OUTPUT"
    case INPUT_NT => "INPUT"
    case COND_IMPL => "COND_IMPL"
    case COND_COMP => "COND_COMP"
    case COND_ATOM => "COND_ATOM"
    case EXPR_ARITH => "EXPR_ARITH"
    case EXPR_ADDSUB => "EXPR_ADDSUB"
    case EXPR_MULDIV => "EXPR_MULDIV"
    case EXPR_UNARY => "EXPR_UNARY"
    case EXPR_PRIMARY => "EXPR_PRIMARY"
    case UNARY_MINUS => "UNARY_MINUS"
  }

  /** Java's `Parser.NonTerminal.toString()`. */
  function ParserTagName(nt: ParserNonTerminal): string
  {
    match nt
    case P_PROGRAM => "PROGRAM"
    case P_CODE => "CODE"
    case P_INSTRUCTION => "INSTRUCTION"
    case P_ASSIGN => "ASSIGN"
    case P_IF => "IF"
    case P_WHILE => "WHILE"
    case P_OUTPUT => "OUTPUT"
    case P_INPUT => "INPUT"
    case P_COND => "COND"
    case P_COND_IMPL => "COND_IMPL"
    case P_COND_BASE => "COND_BASE"
    case P_EXPR_ARITH => "EXPR_ARITH"
    case P_EXPR_ADDSUB => "EXPR_ADDSUB"
    case P_EXPR_MULDIV => "EXPR_MULDIV"
    case P_EXPR_UNARY => "EXPR_UNARY"
    case P_EXPR_PRIMARY => "EXPR_PRIMARY"
    case P_UNARY_MINUS => "UNARY_MINUS"
  }
}
