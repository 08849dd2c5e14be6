/** The C backend's text and command generators (src/compiler_c.c): quoted
    strings, template text, commands, foreach lists and quoted arguments,
    lowered to C statements that build the output in a Tcl_DString named
    `__ds_<name>__`.

    These never write to the expression buffer.  An error discards the
    generated text (every caller frees its buffer and keeps only the
    message), so a failed run is just its Error. */
module CCommands {
  import opened Gen
  import opened TclParse
  import opened Scope
  import opened CVariables

  /** `Tcl_DStringAppend(__ds_<name>__, "<s>", -1);`, the statement that
      appends literal text to the output buffer. */
  function AppendLiteral(name: string, s: string): string
  {
    "Tcl_DStringAppend(__ds_" + name + "__, \"" + s + "\", -1);"
  }

  // ------------------------------------------------- quoted and template text

  /** The loop of thtml_CCompileQuotedString from token i on: TEXT and BS
      copied, a variable lowered to its statements, command substitution
      refused. */
  function CQuotedFrom(p: Parse, i: nat, blocks: seq<Block>, name: string, st: CState): Result<CState>
    decreases |p.tokens| - i
  {
    var t := p.tokens;
    if i >= |t| then Ok(st)
    else match t[i].kind
      case Text => CQuotedFrom(p, i + 1, blocks, name, st.(ds := st.ds + t[i].text))
      case Bs => CQuotedFrom(p, i + 1, blocks, name, st.(ds := st.ds + t[i].text))
      case Command => Err(QuotedCommandSubst)
      case Variable =>
        (match CVariable(p, i, blocks, name, false, false, st)
         case Err(e) => Err(e)
         case Ok(s) => CQuotedFrom(p, i + 2, blocks, name, s))
      case _ => Err(UnsupportedTokenType)
  }

  function CCompileQuotedString(p: Parse, blocks: seq<Block>, name: string, st: CState): Result<CState>
  {
    CQuotedFrom(p, 0, blocks, name, st)
  }

  /** The loop of thtml_CCompileTemplateText from token i on: a nested
      command or a variable closes the text region, is lowered as code under
      the name "TODO" or "default", and opens the next text region. */
  function CTemplateFrom(p: Parse, i: nat, blocks: seq<Block>, st: CState): Result<CState>
    decreases p, |p.tokens| - i, 4
  {
    var t := p.tokens;
    if i >= |t| then Ok(st)
    else match t[i].kind
      case Text => CTemplateFrom(p, i + 1, blocks, st.(ds := st.ds + t[i].text))
      case Bs => CTemplateFrom(p, i + 1, blocks, st.(ds := st.ds + t[i].text))
      case Command =>
        (match t[i].reparse
         case ReparseFailed(m) => Err(ParserFailed(m))
         case Reparsed(q) =>
           (match CCompileCommand(q, blocks, "TODO", st.(ds := st.ds + [ETX] + "\nappend ds " + "["))
            case Err(e) => Err(e)
            case Ok(s) => CTemplateFrom(p, i + 1, blocks, s.(ds := s.ds + "]" + "\n" + [STX]))))
      case Variable =>
        (match CVariable(p, i, blocks, "default", false, false, st.(ds := st.ds + [ETX]))
         case Err(e) => Err(e)
         case Ok(s) => CTemplateFrom(p, i + 2, blocks, s.(ds := s.ds + "\n" + [STX])))
      case _ => Err(UnsupportedTokenType)
  }

  function CCompileTemplateText(p: Parse, blocks: seq<Block>, st: CState): Result<CState>
  {
    CTemplateFrom(p, 0, blocks, st)
  }

  // --------------------------------------------------------------- commands

  /** A command token's new state and the index the caller continues at
      (out_i). */
  datatype CEmit = CEmit(st: CState, next: nat)

  /** thtml_CAppendCommand_Token for the token at i. */
  function CCommandToken(p: Parse, subst: bool, i: nat, blocks: seq<Block>, name: string, st: CState): (r: Result<CEmit>)
    ensures r.Ok? ==> r.value.next > i
    decreases p, |p.tokens| - i, 1
  {
    var t := p.tokens;
    if i >= |t| then Err(TokenOutOfRange)
    else match t[i].kind
      case Variable =>
        (match CVariable(p, i, blocks, name, false, true, st)
         case Err(e) => Err(e)
         case Ok(s) => Ok(CEmit(s, i + 2)))
      case SimpleWord =>
        (match CCommandToken(p, subst, i + 1, blocks, name, st)
         case Err(e) => Err(e)
         case Ok(w) => Ok(CEmit(w.st, w.next + 1)))
      case Text =>
        if subst then
          (match t[i].reparse
           case ReparseFailed(m) => Err(ParserFailed(m))
           case Reparsed(q) =>
             (match CQuotedFrom(q, 0, blocks, name, st)
              case Err(e) => Err(e)
              case Ok(s) => Ok(CEmit(s, i + 1))))
        else Ok(CEmit(st.(ds := st.ds + "\n" + AppendLiteral(name, t[i].text)), i + 1))
      case Command =>
        (match t[i].reparse
         case ReparseFailed(m) => Err(ParserFailed(m))
         case Reparsed(q) =>
           (match CCompileCommand(q, blocks, name, st.(ds := st.ds + "["))
            case Err(e) => Err(e)
            case Ok(s) => Ok(CEmit(s.(ds := s.ds + "]"), i + 1))))
      case ExpandWord => Err(ExpandNotSupported)
      case Word =>
        (match CWordLoop(p, subst, i, i, blocks, name, st.(ds := st.ds + "Tcl_DStringAppend(__ds_" + name + "__, \""))
         case Err(e) => Err(e)
         case Ok(w) => Ok(CEmit(w.st.(ds := w.st.ds + "\", -1);"), w.next + 1)))
      case Bs => Ok(CEmit(st.(ds := st.ds + t[i].text), i + 1))
      case _ => Ok(CEmit(st, i + 1))
  }

  /** The loop of a WORD token at `start`: while fewer than numComponents
      tokens lie between `start` and k, lower the token at k+1 and continue
      at its out_i. */
  function CWordLoop(p: Parse, subst: bool, start: nat, k: nat, blocks: seq<Block>, name: string, st: CState): (r: Result<CEmit>)
    requires start < |p.tokens|
    ensures r.Ok? ==> r.value.next >= k
    decreases p, |p.tokens| - k, 0
  {
    var t := p.tokens;
    if k - start >= t[start].numComponents then Ok(CEmit(st, k))
    else if k + 1 >= |t| then Err(TokenOutOfRange)
    else match CCommandToken(p, subst, k + 1, blocks, name, st)
      case Err(e) => Err(e)
      case Ok(w) => CWordLoop(p, subst, start, w.next, blocks, name, w.st)
  }

  /** The statement after the first word: the output gets ` "`. */
  function OpenQuote(name: string): string
  {
    "\nTcl_DStringAppend(__ds_" + name + "__, \" \\\"\", -1);"
  }

  /** The statement after the last word of a command of several tokens: the
      output gets `"`. */
  function CloseQuote(name: string): string
  {
    "\nTcl_DStringAppend(__ds_" + name + "__, \"\\\"\", -1);"
  }

  /** thtml_CCompileCommand: every word is lowered into an emptied word
      buffer and then copied out; the first word is followed by OpenQuote,
      and a command of more than one token ends with CloseQuote.  The
      `expr`/`eval`/`subst` test on the first word reads the word buffer
      after it was emptied, so it never fires and no word is substituted. */
  function CCompileCommand(p: Parse, blocks: seq<Block>, name: string, st: CState): Result<CState>
    decreases p, |p.tokens| + 1, 3
  {
    match CCommandLoop(p, 0, true, blocks, name, st)
    case Err(e) => Err(e)
    case Ok(s) => Ok(if |p.tokens| > 1 then s.(ds := s.ds + CloseQuote(name)) else s)
  }

  function CCommandLoop(p: Parse, i: nat, first: bool, blocks: seq<Block>, name: string, st: CState): Result<CState>
    decreases p, |p.tokens| - i + 1, 2
  {
    if i >= |p.tokens| then Ok(st)
    else match CCommandToken(p, false, i, blocks, name, st.(ds := []))
      case Err(e) => Err(e)
      case Ok(w) =>
        var ds := st.ds + w.st.ds + if first then OpenQuote(name) else "";
        CCommandLoop(p, w.next, false, blocks, name, w.st.(ds := ds))
  }

  // ------------------------------------------------ foreach lists, arguments

  /** The declaration and initialisation of `__ds_<name>__`. */
  function DeclareBuffer(name: string): string
  {
    "Tcl_DString __ds_" + name + "__;\nTcl_DStringInit(&__ds_" + name + "__);\n"
  }

  /** The Tcl_Obj `__<name>__` made from the buffer, and the buffer freed. */
  function BufferToObj(name: string): string
  {
    "\nTcl_Obj *__" + name + "__ = Tcl_NewStringObj(Tcl_DStringValue(__ds_" + name +
    "__), Tcl_DStringLength(__ds_" + name + "__));" +
    "\nTcl_DStringFree(&__ds_" + name + "__);\n"
  }

  /** thtml_CCompileForeachList: the quoted-string loop between the
      buffer's declaration and its conversion to an object. */
  function CCompileForeachList(p: Parse, blocks: seq<Block>, name: string, st: CState): Result<CState>
  {
    match CQuotedFrom(p, 0, blocks, name, st.(ds := st.ds + DeclareBuffer(name)))
    case Err(e) => Err(e)
    case Ok(s) => Ok(s.(ds := s.ds + BufferToObj(name)))
  }

  /** The loop of thtml_CCompileQuotedArg from token i on: TEXT and BS each
      become an AppendLiteral statement. */
  function CArgFrom(p: Parse, i: nat, blocks: seq<Block>, name: string, st: CState): Result<CState>
    decreases |p.tokens| - i
  {
    var t := p.tokens;
    if i >= |t| then Ok(st)
    else match t[i].kind
      case Text => CArgFrom(p, i + 1, blocks, name, st.(ds := st.ds + "\n" + AppendLiteral(name, t[i].text)))
      case Bs => CArgFrom(p, i + 1, blocks, name, st.(ds := st.ds + "\n" + AppendLiteral(name, t[i].text)))
      case Command => Err(QuotedCommandSubst)
      case Variable =>
        (match CVariable(p, i, blocks, name, false, false, st)
         case Err(e) => Err(e)
         case Ok(s) => CArgFrom(p, i + 2, blocks, name, s))
      case _ => Err(UnsupportedTokenType)
  }

  /** thtml_CCompileQuotedArg. */
  function CCompileQuotedArg(p: Parse, blocks: seq<Block>, name: string, st: CState): Result<CState>
  {
    match CArgFrom(p, 0, blocks, name, st.(ds := st.ds + "\n" + DeclareBuffer(name)))
    case Err(e) => Err(e)
    case Ok(s) => Ok(s.(ds := s.ds + BufferToObj(name)))
  }
}
