/** The C backend's expressions (src/compiler_c.c): an expression becomes an
    `int` initialised from calls to the `__thtml_<op>__` runtime helpers,
    with every literal first declared as a Tcl_Obj temporary in the
    statements before it and released after it.

    The operator code writes to two buffers: the statement buffer (ds) and
    the expression buffer (expr).  The unary operators and the ternary write
    their operator text to the statement buffer, as the source does. */
module CExpr {
  import opened Gen
  import opened TclParse
  import opened Scope
  import opened CVariables
  import opened CCommands
  import T = TclBackend

  // ------------------------------------------------------- operand types

  /** thtml_GetOperandType: a SUB_EXPR is named after its first component
      when that is a TEXT or a VARIABLE. */
  function OperandType(p: Parse, i: nat): Result<string>
  {
    var t := p.tokens;
    if i >= |t| then Err(TokenOutOfRange)
    else match t[i].kind
      case Text => Ok("text")
      case Variable => Ok("variable")
      case Command => Ok("command")
      case ExpandWord => Ok("expandword")
      case Word => Ok("word")
      case Bs => Ok("bs")
      case SubExpr =>
        if i + 1 >= |t| then Err(TokenOutOfRange)
        else if t[i + 1].kind == Text then Ok("text")
        else if t[i + 1].kind == Variable then Ok("variable")
        else Ok("subexpr")
      case Operator => Ok("operator")
      case _ => Ok("unknown")
  }

  // ------------------------------------------------------------ INSTR

  /** INSTR at a one-character index. */
  function Instr1(ch: char): Option<string>
  {
    match ch
    case '+' => Some("add")
    case '-' => Some("sub")
    case '*' => Some("mult")
    case '/' => Some("div")
    case '%' => Some("mod")
    case '<' => Some("lt")
    case '>' => Some("gt")
    case '&' => Some("bitand")
    case '^' => Some("bitxor")
    case '|' => Some("bitor")
    case '~' => Some("not")
    case '?' => Some("ternary")
    case _ => None
  }

  /** INSTR at the index (c1 << 8) + c2 of a two-character operator. */
  function Instr2(c1: char, c2: char): Option<string>
  {
    if c1 == '<' && c2 == '<' then Some("lshift")
    else if c1 == '>' && c2 == '>' then Some("rshift")
    else if c1 == '=' && c2 == '=' then Some("eq")
    else if c1 == '!' && c2 == '=' then Some("ne")
    else if c1 == 'e' && c2 == 'q' then Some("streq")
    else if c1 == 'n' && c2 == 'e' then Some("strneq")
    else if c1 == 'i' && c2 == 'n' then Some("in")
    else if c1 == 'n' && c2 == 'i' then Some("ni")
    else if c1 == '<' && c2 == '=' then Some("le")
    else if c1 == '>' && c2 == '=' then Some("ge")
    else None
  }

  /** INSTR for an operator's text. */
  function Instr(op: string): Option<string>
  {
    if |op| == 1 then Instr1(op[0])
    else if |op| == 2 then Instr2(op[0], op[1])
    else None
  }

  // ------------------------------------------------------------ dispatch

  /** The one-character operators called as helpers with two operands (no
      `=`, unlike the Tcl backend). */
  predicate CBinary1(ch: char)
  {
    ch in "+-*/%^&|~<>"
  }

  /** The two-character operators called as helpers (no `<=` or `>=`,
      although INSTR names them). */
  predicate CBinary2(op: string)
  {
    op in ["<<", ">>", "==", "!=", "eq", "ne", "in", "ni"]
  }

  /** The operators written infix. */
  predicate Logic(op: string)
  {
    op == "&&" || op == "||"
  }

  /** The helper a two-operand operator calls, `__thtml_<INSTR>__`. */
  function HelperName(op: string): string
  {
    match Instr(op)
    case Some(f) => f
    case None => ""
  }

  // ------------------------------------------------- literal temporaries

  /** Where a literal's temporary is referenced in the expression: as the
      source writes it, with one trailing underscore (two characters of
      `"__"` appended with length 1), or under the name it was declared
      with. */
  datatype TextRef = OneUnderscore | TwoUnderscores

  /** The temporary the k-th literal is declared as, `__<name>_text<k>__`. */
  function TextTemp(name: string, k: nat): string
  {
    "__" + name + "_text" + Decimal(k) + "__"
  }

  /** How the expression refers to it. */
  function TextRefName(ref: TextRef, name: string, k: nat): string
  {
    "__" + name + "_text" + Decimal(k) + (if ref == OneUnderscore then "_" else "__")
  }

  /** The statements that create and retain the k-th literal's temporary. */
  function TextDecl(name: string, k: nat, s: string): string
  {
    "\nTcl_Obj *" + TextTemp(name, k) + " = Tcl_NewStringObj(\"" + s + "\", -1);" +
    "\nTcl_IncrRefCount(" + TextTemp(name, k) + ");"
  }

  function TextRelease(name: string, k: nat): string
  {
    "\nTcl_DecrRefCount(" + TextTemp(name, k) + ");"
  }

  /** The releases of the temporaries numbered after `before` up to
      `after`, in increasing order. */
  function Releases(name: string, before: nat, after: nat): string
    decreases after
  {
    if after <= before then [] else Releases(name, before, after - 1) + TextRelease(name, after)
  }

  // ------------------------------------------------------------ lowering

  /** thtml_CAppendExpr_Token for the token at i. */
  function CExprToken(p: Parse, i: nat, blocks: seq<Block>, name: string, ref: TextRef, st: CState): Result<CState>
    decreases p, |p.tokens| - i, 2, 0
  {
    var t := p.tokens;
    if i >= |t| then Err(TokenOutOfRange)
    else match t[i].kind
      case SubExpr =>
        if i + 1 >= |t| then Err(TokenOutOfRange)
        else
          var open := st.(expr := st.expr + "(");
          var r := if t[i + 1].kind == Operator then CExprOperator(p, i, blocks, name, ref, open)
                   else CExprToken(p, i + 1, blocks, name, ref, open);
          (match r
           case Err(e) => Err(e)
           case Ok(s) => Ok(s.(expr := s.expr + ")")))
      case Variable => CVariable(p, i, blocks, "default", true, false, st)
      case Text =>
        var k := st.texts + 1;
        Ok(CState(st.ds + TextDecl(name, k, t[i].text), st.expr + TextRefName(ref, name, k), k, st.dicts))
      case Command =>
        (match t[i].reparse
         case ReparseFailed(m) => Err(ParserFailed(m))
         case Reparsed(q) =>
           (match CCompileCommand(q, blocks, name, st.(ds := st.ds + "["))
            case Err(e) => Err(e)
            case Ok(s) => Ok(s.(ds := s.ds + "]"))))
      case ExpandWord => Err(ExpandNotSupported)
      case Word => CExprWord(p, i, 0, blocks, name, ref, st)
      case Bs => Ok(st.(expr := st.expr + t[i].text))
      case _ => Ok(st)
  }

  /** The loop over the components of the WORD token at i. */
  function CExprWord(p: Parse, i: nat, j: nat, blocks: seq<Block>, name: string, ref: TextRef, st: CState): Result<CState>
    requires i < |p.tokens|
    decreases p, |p.tokens| - i, 0, p.tokens[i].numComponents - j
  {
    if j >= p.tokens[i].numComponents then Ok(st)
    else match CExprToken(p, i + 1 + j, blocks, name, ref, st)
      case Err(e) => Err(e)
      case Ok(s) => CExprWord(p, i, j + 1, blocks, name, ref, s)
  }

  /** thtml_CAppendExpr_Operator for the SUB_EXPR at i whose first
      component, at i+1, is an OPERATOR. */
  function CExprOperator(p: Parse, i: nat, blocks: seq<Block>, name: string, ref: TextRef, st: CState): Result<CState>
    requires i + 1 < |p.tokens|
    decreases p, |p.tokens| - i, 1, 0
  {
    var t := p.tokens;
    var off := i + 2;
    match T.CountOperands(p, off, 0, t[i].numComponents, 0)
    case Err(e) => Err(e)
    case Ok(nops) =>
      var op := t[i + 1].text;
      if |op| == 1 then
        if nops == 1 then
          if op[0] == '!' then
            (match CExprToken(p, off, blocks, name, ref, st.(ds := st.ds + op, expr := st.expr + "("))
             case Err(e) => Err(e)
             case Ok(s) => Ok(s.(expr := s.expr + ")")))
          else if op[0] == '-' || op[0] == '+' then CExprToken(p, off, blocks, name, ref, st.(ds := st.ds + op))
          else Ok(st)
        else if nops == 2 && CBinary1(op[0]) then
          CExprOperands(p, i, blocks, name, ref, " __thtml_" + HelperName(op) + "__(", ", ", st)
        else if op[0] == '?' then
          if off >= |t| then Err(TokenOutOfRange)
          else
            var second := off + t[off].numComponents + 1;
            if second >= |t| then Err(TokenOutOfRange)
            else
              var third := second + t[second].numComponents + 1;
              match CExprToken(p, off, blocks, name, ref, st)
              case Err(e) => Err(e)
              case Ok(a) =>
                match CExprToken(p, second, blocks, name, ref, a.(ds := a.ds + " " + op + " "))
                case Err(e) => Err(e)
                case Ok(b) => CExprToken(p, third, blocks, name, ref, b.(ds := b.ds + " : "))
        else Err(UnsupportedOperator)
      else if |op| == 2 && Logic(op) then CExprOperands(p, i, blocks, name, ref, "(", " " + op + " ", st)
      else if |op| == 2 && CBinary2(op) then
        CExprOperands(p, i, blocks, name, ref, " __thtml_" + HelperName(op) + "__(", ", ", st)
      else Err(UnsupportedOperator)
  }

  /** The two operands of the operator at i+1, after `open`, separated by
      `sep`, and closed by `)`, all in the expression buffer. */
  function CExprOperands(p: Parse, i: nat, blocks: seq<Block>, name: string, ref: TextRef,
                         open: string, sep: string, st: CState): Result<CState>
    requires i + 1 < |p.tokens|
    decreases p, |p.tokens| - i, 0, 0
  {
    var t := p.tokens;
    var off := i + 2;
    if off >= |t| then Err(TokenOutOfRange)
    else match CExprToken(p, off, blocks, name, ref, st.(expr := st.expr + open))
      case Err(e) => Err(e)
      case Ok(a) =>
        match CExprToken(p, off + t[off].numComponents + 1, blocks, name, ref, a.(expr := a.expr + sep))
        case Err(e) => Err(e)
        case Ok(b) => Ok(b.(expr := b.expr + ")"))
  }

  /** The expression's own declaration, `\nint __<name>__ = `. */
  function ExprHeader(name: string): string
  {
    "\nint __" + name + "__ = "
  }

  /** thtml_CCompileExpr: the expression is built in a buffer of its own
      that starts with ExprHeader; the statements the operands need come
      first, then the expression and `;`, then the release of every literal
      temporary declared during the call.  The caller's expression buffer is
      untouched. */
  function CCompileExpr(p: Parse, blocks: seq<Block>, name: string, ref: TextRef, st: CState): Result<CState>
  {
    match CExprToken(p, 0, blocks, name, ref, st.(expr := ExprHeader(name)))
    case Err(e) => Err(e)
    case Ok(s) => Ok(CState(s.ds + s.expr + ";" + Releases(name, st.texts, s.texts), st.expr, s.texts, s.dicts))
  }
}
