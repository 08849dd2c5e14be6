/** The Tcl backend (src/compiler_tcl.c): variable references, expressions,
    quoted strings, template text and commands lowered to Tcl source text.

    Every generator here is a state transformer on the text emitted so far
    (`acc`).  An error discards that text: the callers free the buffer and
    leave only the message, so a failed run is just its Error. */
module TclBackend {
  import opened Gen
  import opened TclParse
  import opened Scope

  // ------------------------------------------------------------- variables

  /** thtml_TclAppendVariable_Dict: `[dict get $v {k1 k2 ...}]`. */
  function DictGet(v: string, keys: seq<string>): string
  {
    "[dict get $" + v + " {" + Join(keys, " ") + "}]"
  }

  /** What a split variable path becomes once the blocks are scanned: `$x`
      for a declared one-segment path, a dict lookup in the declaring
      variable keyed by every segment (the first one included) for a
      declared dotted path, and a lookup in `__data__` keyed by every segment
      otherwise. */
  function VarRef(parts: seq<string>, blocks: seq<Block>): Result<string>
  {
    match Resolve(parts, blocks)
    case NoFirstSegment => Err(EmptyPath)
    case TopLevel => Ok(DictGet("__data__", parts))
    case Declared =>
      if parts == [] then Err(EmptyPath)
      else if |parts| == 1 then Ok("$" + parts[0])
      else Ok(DictGet(parts[0], parts))
  }

  /** thtml_TclAppendVariable for the VARIABLE token at i, whose name is the
      TEXT token after it. */
  function VariableToken(p: Parse, i: nat, blocks: seq<Block>, acc: string): Result<string>
  {
    var t := p.tokens;
    if i >= |t| then Err(TokenOutOfRange)
    else if t[i].numComponents != 1 then Err(ArrayVariable)
    else if i + 1 >= |t| then Err(TokenOutOfRange)
    else match VarRef(SplitPath(t[i + 1].text), blocks)
      case Err(e) => Err(e)
      case Ok(v) => Ok(acc + v)
  }

  // ------------------------------------------------------------ expressions

  predicate UnaryOp(ch: char)
  {
    ch == '!' || ch == '-' || ch == '+'
  }

  /** The one-character operators lowered with two operands. */
  predicate BinaryOp1(ch: char)
  {
    ch in "+-*/%^&|~<>="
  }

  /** The two-character operators lowered with two operands. */
  predicate BinaryOp2(op: string)
  {
    op in ["&&", "||", "<<", ">>", "==", "!=", "eq", "ne", "in", "ni"]
  }

  /** The arity loop: operands are the SUB_EXPR tokens found from `off`,
      each followed by its own components, while j < n - 2 for the
      operator's SUB_EXPR with n components. */
  function CountOperands(p: Parse, off: nat, j: nat, n: nat, count: nat): Result<nat>
    decreases n - j
  {
    var t := p.tokens;
    if j + 2 >= n then Ok(count)
    else if off + j >= |t| then Err(TokenOutOfRange)
    else if t[off + j].kind != SubExpr then Err(NotEnoughOperands)
    else CountOperands(p, off, j + 1 + t[off + j].numComponents, n, count + 1)
  }

  /** thtml_TclAppendExpr_Token for the token at i. */
  function ExprToken(p: Parse, i: nat, blocks: seq<Block>, acc: string): Result<string>
    decreases |p.tokens| - i, 2, 0
  {
    var t := p.tokens;
    if i >= |t| then Err(TokenOutOfRange)
    else match t[i].kind
      case SubExpr =>
        if i + 1 >= |t| then Err(TokenOutOfRange)
        else if t[i + 1].kind == Operator then ExprOperator(p, i, blocks, acc)
        else if t[i + 1].kind == Text then
          (match ExprToken(p, i + 1, blocks, acc + "{")
           case Err(e) => Err(e)
           case Ok(a) => Ok(a + "}"))
        else ExprToken(p, i + 1, blocks, acc)
      case Variable => VariableToken(p, i, blocks, acc)
      case Text => Ok(acc + t[i].text)
      case Command => Err(ExprCommandSubst)
      case ExpandWord => Err(ExpandNotSupported)
      case Word =>
        (match ExprWord(p, i, 0, blocks, acc + "\"")
         case Err(e) => Err(e)
         case Ok(a) => Ok(a + "\""))
      case Bs => Ok(acc + t[i].text)
      case _ => Ok(acc)
  }

  /** The loop over the components of the WORD token at i: every token
      i+1+j for j below its numComponents. */
  function ExprWord(p: Parse, i: nat, j: nat, blocks: seq<Block>, acc: string): Result<string>
    requires i < |p.tokens|
    decreases |p.tokens| - i, 0, p.tokens[i].numComponents - j
  {
    if j >= p.tokens[i].numComponents then Ok(acc)
    else match ExprToken(p, i + 1 + j, blocks, acc)
      case Err(e) => Err(e)
      case Ok(a) => ExprWord(p, i, j + 1, blocks, a)
  }

  /** thtml_TclAppendExpr_Operator for the SUB_EXPR at i whose first
      component, at i+1, is an OPERATOR. */
  function ExprOperator(p: Parse, i: nat, blocks: seq<Block>, acc: string): Result<string>
    requires i + 1 < |p.tokens|
    decreases |p.tokens| - i, 1, 0
  {
    var t := p.tokens;
    var off := i + 2;
    match CountOperands(p, off, 0, t[i].numComponents, 0)
    case Err(e) => Err(e)
    case Ok(nops) =>
      var op := t[i + 1].text;
      if |op| == 1 && nops == 1 && UnaryOp(op[0]) then ExprToken(p, off, blocks, acc + op)
      else if (|op| == 1 && nops == 2 && BinaryOp1(op[0])) || (|op| == 2 && BinaryOp2(op)) then
        if off >= |t| then Err(TokenOutOfRange)
        else match ExprToken(p, off, blocks, acc)
          case Err(e) => Err(e)
          case Ok(a) => ExprToken(p, off + t[off].numComponents + 1, blocks, a + " " + op + " ")
      else if |op| == 1 && op[0] == '?' then
        if off >= |t| then Err(TokenOutOfRange)
        else
          var second := off + t[off].numComponents + 1;
          if second >= |t| then Err(TokenOutOfRange)
          else
            var third := second + t[second].numComponents + 1;
            match ExprToken(p, off, blocks, acc)
            case Err(e) => Err(e)
            case Ok(a) =>
              match ExprToken(p, second, blocks, a + " " + op + " ")
              case Err(e) => Err(e)
              case Ok(b) => ExprToken(p, third, blocks, b + " : ")
      else Err(UnsupportedOperator)
  }

  /** thtml_TclCompileExpr: the expression starts at its first token. */
  function CompileExpr(p: Parse, blocks: seq<Block>, acc: string): Result<string>
  {
    ExprToken(p, 0, blocks, acc)
  }

  // --------------------------------------------------- quoted and template text

  /** thtml_TclCompileQuotedString from token i on. */
  function QuotedFrom(p: Parse, i: nat, blocks: seq<Block>, acc: string): Result<string>
    decreases |p.tokens| - i
  {
    var t := p.tokens;
    if i >= |t| then Ok(acc)
    else match t[i].kind
      case Text => QuotedFrom(p, i + 1, blocks, acc + t[i].text)
      case Bs => QuotedFrom(p, i + 1, blocks, acc + t[i].text)
      case Command => Err(QuotedCommandSubst)
      case Variable =>
        (match VariableToken(p, i, blocks, acc)
         case Err(e) => Err(e)
         case Ok(a) => QuotedFrom(p, i + 2, blocks, a))
      case _ => Err(UnsupportedTokenType)
  }

  function CompileQuotedString(p: Parse, blocks: seq<Block>, acc: string): Result<string>
  {
    QuotedFrom(p, 0, blocks, acc)
  }


  /** What a variable of template text becomes: it closes the text region,
      appends the value in code, and opens the next text region. */
  function TemplateVarOpen(): string
  {
    [ETX] + "\nappend ds "
  }

  function TemplateVarClose(): string
  {
    "\n" + [STX]
  }

  /** thtml_TclCompileTemplateText from token i on. */
  function TemplateFrom(p: Parse, i: nat, blocks: seq<Block>, acc: string): Result<string>
    decreases |p.tokens| - i
  {
    var t := p.tokens;
    if i >= |t| then Ok(acc)
    else match t[i].kind
      case Text => TemplateFrom(p, i + 1, blocks, acc + t[i].text)
      case Bs => TemplateFrom(p, i + 1, blocks, acc + t[i].text)
      case Command => Err(QuotedCommandSubst)
      case Variable =>
        (match VariableToken(p, i, blocks, acc + TemplateVarOpen())
         case Err(e) => Err(e)
         case Ok(a) => TemplateFrom(p, i + 2, blocks, a + TemplateVarClose()))
      case _ => Err(UnsupportedTokenType)
  }

  function CompileTemplateText(p: Parse, blocks: seq<Block>, acc: string): Result<string>
  {
    TemplateFrom(p, 0, blocks, acc)
  }

  // --------------------------------------------------------------- commands

  /** A command token's output and the index the caller continues at
      (out_i). */
  datatype Emit = Emit(text: string, next: nat)

  /** The first word turns on substitution of the later TEXT words when it
      starts with `expr` (strncmp against the word's bytes). */
  predicate StartsWithExpr(w: string)
  {
    |w| >= 4 && w[..4] == "expr"
  }

  /** thtml_TclAppendCommand_Token for the token at i. */
  function CommandToken(p: Parse, subst: bool, i: nat, blocks: seq<Block>, acc: string): (r: Result<Emit>)
    ensures r.Ok? ==> r.value.next > i
    decreases p, |p.tokens| - i, 1
  {
    var t := p.tokens;
    if i >= |t| then Err(TokenOutOfRange)
    else match t[i].kind
      case Variable =>
        (match VariableToken(p, i, blocks, acc)
         case Err(e) => Err(e)
         case Ok(a) => Ok(Emit(a, i + 2)))
      case SimpleWord =>
        (match CommandToken(p, subst, i + 1, blocks, acc)
         case Err(e) => Err(e)
         case Ok(w) => Ok(Emit(w.text, w.next + 1)))
      case Text =>
        if subst then
          (match t[i].reparse
           case ReparseFailed(m) => Err(ParserFailed(m))
           case Reparsed(q) =>
             (match QuotedFrom(q, 0, blocks, acc + "{")
              case Err(e) => Err(e)
              case Ok(a) => Ok(Emit(a + "}", i + 1))))
        else Ok(Emit(acc + t[i].text, i + 1))
      case Command =>
        (match t[i].reparse
         case ReparseFailed(m) => Err(ParserFailed(m))
         case Reparsed(q) =>
           (match CompileCommand(q, blocks, acc + "[")
            case Err(e) => Err(e)
            case Ok(a) => Ok(Emit(a + "]", i + 1))))
      case ExpandWord => Err(ExpandNotSupported)
      case Word =>
        (match WordLoop(p, subst, i, i, blocks, acc)
         case Err(e) => Err(e)
         case Ok(w) => Ok(Emit(w.text, w.next + 1)))
      case Bs => Ok(Emit(acc + t[i].text, i + 1))
      case _ => Ok(Emit(acc, i + 1))
  }

  /** The loop of a WORD token at `start`: while fewer than numComponents
      tokens lie between `start` and k, lower the token at k+1 and continue
      at its out_i. */
  function WordLoop(p: Parse, subst: bool, start: nat, k: nat, blocks: seq<Block>, acc: string): (r: Result<Emit>)
    requires start < |p.tokens|
    ensures r.Ok? ==> r.value.next >= k
    decreases p, |p.tokens| - k, 0
  {
    var t := p.tokens;
    if k - start >= t[start].numComponents then Ok(Emit(acc, k))
    else if k + 1 >= |t| then Err(TokenOutOfRange)
    else match CommandToken(p, subst, k + 1, blocks, acc)
      case Err(e) => Err(e)
      case Ok(w) => WordLoop(p, subst, start, w.next, blocks, w.text)
  }

  /** thtml_TclCompileCommand: words lowered one at a time into a word
      buffer, separated by one space. */
  function CompileCommand(p: Parse, blocks: seq<Block>, acc: string): Result<string>
    decreases p, |p.tokens| + 1, 3
  {
    CommandLoop(p, 0, true, false, blocks, acc)
  }

  function CommandLoop(p: Parse, i: nat, first: bool, subst: bool, blocks: seq<Block>, acc: string): Result<string>
    decreases p, |p.tokens| - i + 1, 2
  {
    if i >= |p.tokens| then Ok(acc)
    else
      var acc' := if first then acc else acc + " ";
      match CommandToken(p, subst, i, blocks, [])
      case Err(e) => Err(e)
      case Ok(w) =>
        var subst' := if first then StartsWithExpr(w.text) else subst;
        CommandLoop(p, w.next, false, subst', blocks, acc' + w.text)
  }
}
