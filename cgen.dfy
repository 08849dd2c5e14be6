/** The C backend as src/compiler_c.c runs it: the generators append to
    Tcl_DStrings (`DString`s) and bump two global counters, and report an
    error instead of returning TCL_ERROR.  Each method is proved to end
    exactly as its specification function in CVariables, CExpr or
    CCommands says.

    Every method gets the statement buffer `ds`, the expression buffer
    `ex` and the counters.  The command and text generators never write to
    `ex` (the source passes NULL there); they carry it only so that a
    command nested in an expression is lowered with the expression's state
    as its specification states it. */
module CGen {
  import opened Gen
  import opened TclParse
  import opened Scope
  import opened CVariables
  import opened CCommands
  import opened CExpr
  import T = TclBackend

  /** count_text_subst and count_var_dict_subst, the file's globals. */
  class Counters {
    var texts: nat
    var dicts: nat

    constructor ()
      ensures texts == 0 && dicts == 0
    {
      texts := 0;
      dicts := 0;
    }
  }

  /** The generator state the specification functions speak of. */
  function State(ds: DString, ex: DString, c: Counters): CState
    reads ds, ex, c
  {
    CState(ds.text, ex.text, c.texts, c.dicts)
  }

  /** A generator method ends as its specification says: in the specified
      state on success, with the specified error otherwise. */
  predicate CReports(r: Result<CState>, err: Option<Error>, s: CState)
  {
    match r
    case Ok(v) => err == None && s == v
    case Err(e) => err == Some(e)
  }

  /** ... and a command-token method also returns out_i as specified. */
  predicate CLowers(r: Result<CEmit>, err: Option<Error>, s: CState, out: nat)
  {
    match r
    case Ok(w) => err == None && s == w.st && out == w.next
    case Err(e) => err == Some(e)
  }

  // ------------------------------------------------------------- variables

  /** thtml_CAppendVariable_Simple; `inExpr` says whether the caller passed
      an expression buffer. */
  method AppendSimple(x: string, name: string, inExpr: bool, inEval: bool, ds: DString, ex: DString, c: Counters)
    requires ds != ex
    modifies ds, ex
    ensures State(ds, ex, c) == CSimple(x, name, inExpr, inEval, old(State(ds, ex, c)))
  {
    if !inExpr {
      if inEval {
        ds.Append(EvalStatements(x, name));
      } else {
        ds.Append(AppendStatement(x, name));
      }
    } else {
      if inEval {
        ex.Append("$" + x);
      } else {
        ex.Append(x);
      }
    }
  }

  /** The separator before a step, unless it is the first, and the step's
      statements. */
  function StepText(v: string, part: string, cs: string, name: string, inExpr: bool, first: bool): string
  {
    (if first then "" else " ") + DictEntry(v, part, cs, name, inExpr)
  }

  /** Joining one more string with single spaces adds the space, unless it
      is the first, and the string. */
  lemma {:induction false} JoinSpaced(xs: seq<string>, x: string)
    ensures Join(xs + [x], " ") == Join(xs, " ") + ((if xs == [] then "" else " ") + x)
  {
    JoinSnoc(xs, x, " ");
    if xs == [] {
      assert Join(xs, " ") == [];
    } else {
      ConcatAssoc(Join(xs, " "), " ", x);
    }
  }

  /** Joining one more string with nothing between adds the string. */
  lemma {:induction false} JoinAdjacent(xs: seq<string>, x: string)
    ensures Join(xs + [x], "") == Join(xs, "") + x
  {
    JoinSnoc(xs, x, "");
    if xs == [] {
      assert Join(xs, "") == [];
    } else {
      assert Join(xs, "") + "" == Join(xs, "");
    }
  }

  /** The joined steps and names grow by one piece per step. */
  lemma {:induction false} DictJoinSnoc(v: string, parts: seq<string>, cs: string, name: string, inExpr: bool, k: nat)
    requires k < |parts|
    ensures Join(DictEntries(v, parts[..k + 1], cs, name, inExpr), " ") ==
      Join(DictEntries(v, parts[..k], cs, name, inExpr), " ") + StepText(v, parts[k], cs, name, inExpr, k == 0)
    ensures Join(DictResults(parts[..k + 1], cs), "") == Join(DictResults(parts[..k], cs), "") + (parts[k] + cs)
  {
    var ps := parts[..k + 1];
    assert ps[..k] == parts[..k] && ps[k] == parts[k];
    var es := DictEntries(v, parts[..k], cs, name, inExpr);
    JoinSpaced(es, DictEntry(v, parts[k], cs, name, inExpr));
    JoinAdjacent(DictResults(parts[..k], cs), parts[k] + cs);
  }

  /** One step of the dict loop: the separator unless it is the first, the
      step's statements, and with an expression buffer the step's name. */
  method DictStep(v: string, part: string, cs: string, name: string, inExpr: bool, first: bool, ds: DString, ex: DString)
    requires ds != ex
    modifies ds, ex
    ensures ds.text == old(ds.text) + StepText(v, part, cs, name, inExpr, first)
    ensures ex.text == if inExpr then old(ex.text) + (part + cs) else old(ex.text)
  {
    var e := DictEntry(v, part, cs, name, inExpr);
    if !first {
      ds.Append(" ");
      ConcatAssoc(old(ds.text), " ", e);
    } else {
      assert old(ds.text) + ("" + e) == old(ds.text) + e;
    }
    ds.Append(e);
    if inExpr {
      ex.Append(part + cs);
    }
  }

  /** thtml_CAppendVariable_Dict: the dict counter advances first and
      numbers every step. */
  method AppendDict(v: string, parts: seq<string>, name: string, inExpr: bool, ds: DString, ex: DString, c: Counters)
    requires ds != ex
    modifies ds, ex, c
    ensures State(ds, ex, c) == CDict(v, parts, name, inExpr, old(State(ds, ex, c)))
  {
    c.dicts := c.dicts + 1;
    var cs := Decimal(c.dicts);
    DictSteps(v, parts, cs, name, inExpr, ds, ex);
  }

  /** The loop of thtml_CAppendVariable_Dict: the steps are separated by a
      space, and their names go to the expression buffer back to back. */
  method DictSteps(v: string, parts: seq<string>, cs: string, name: string, inExpr: bool, ds: DString, ex: DString)
    requires ds != ex
    modifies ds, ex
    ensures ds.text == old(ds.text) + Join(DictEntries(v, parts, cs, name, inExpr), " ")
    ensures ex.text == if inExpr then old(ex.text) + Join(DictResults(parts, cs), "") else old(ex.text)
  {
    ghost var head, exHead := ds.text, ex.text;
    var first := true;
    var k := 0;
    while k < |parts|
      invariant 0 <= k <= |parts|
      invariant first <==> k == 0
      invariant ds.text == head + Join(DictEntries(v, parts[..k], cs, name, inExpr), " ")
      invariant ex.text == if inExpr then exHead + Join(DictResults(parts[..k], cs), "") else exHead
    {
      DictStep(v, parts[k], cs, name, inExpr, first, ds, ex);
      DictJoinSnoc(v, parts, cs, name, inExpr, k);
      ConcatAssoc(head, Join(DictEntries(v, parts[..k], cs, name, inExpr), " "), StepText(v, parts[k], cs, name, inExpr, first));
      ConcatAssoc(exHead, Join(DictResults(parts[..k], cs), ""), parts[k] + cs);
      first := false;
      k := k + 1;
    }
    assert parts[..k] == parts;
  }

  /** thtml_CAppendVariable for the VARIABLE token at i: split the name at
      the dots, scan the blocks for the first segment, then emit the bare
      variable or a dict lookup. */
  method AppendVariable(p: Parse, i: nat, blocks: seq<Block>, name: string, inExpr: bool, inEval: bool,
                        ds: DString, ex: DString, c: Counters) returns (err: Option<Error>)
    requires ds != ex
    modifies ds, ex, c
    ensures CReports(CVariable(p, i, blocks, name, inExpr, inEval, old(State(ds, ex, c))), err, State(ds, ex, c))
  {
    var t := p.tokens;
    if i >= |t| {
      return Some(TokenOutOfRange);
    }
    if t[i].numComponents != 1 {
      return Some(ArrayVariable);
    }
    if i + 1 >= |t| {
      return Some(TokenOutOfRange);
    }
    var parts := SplitPathLoop(t[i + 1].text);
    var b := ScanBlocks(parts, blocks);
    match b {
      case NoFirstSegment =>
        return Some(EmptyPath);
      case TopLevel =>
        AppendDict("__data__", parts, name, inExpr, ds, ex, c);
      case Declared =>
        if parts == [] {
          return Some(EmptyPath);
        } else if |parts| == 1 {
          AppendSimple(parts[0], name, inExpr, inEval, ds, ex, c);
        } else {
          AppendDict(parts[0], parts[1..], name, inExpr, ds, ex, c);
        }
    }
    return None;
  }

  // ------------------------------------------------------------ expressions

  /** The operand-counting loop of thtml_CAppendExpr_Operator: it changes
      nothing and gives the number of operands or the error. */
  method CountOperands(p: Parse, off: nat, n: nat) returns (r: Result<nat>)
    ensures r == T.CountOperands(p, off, 0, n, 0)
  {
    var t := p.tokens;
    var nops := 0;
    var j := 0;
    while j < n - 2
      invariant T.CountOperands(p, off, j, n, nops) == T.CountOperands(p, off, 0, n, 0)
      decreases n - j
    {
      if off + j >= |t| {
        return Err(TokenOutOfRange);
      }
      if t[off + j].kind != SubExpr {
        return Err(NotEnoughOperands);
      }
      nops := nops + 1;
      j := j + 1 + t[off + j].numComponents;
    }
    return Ok(nops);
  }

  /** thtml_CAppendExpr_Token. */
  method AppendExprToken(p: Parse, i: nat, blocks: seq<Block>, name: string, ref: TextRef,
                         ds: DString, ex: DString, c: Counters) returns (err: Option<Error>)
    requires ds != ex
    modifies ds, ex, c
    ensures CReports(CExprToken(p, i, blocks, name, ref, old(State(ds, ex, c))), err, State(ds, ex, c))
    decreases p, |p.tokens| - i, 2, 0
  {
    var t := p.tokens;
    if i >= |t| {
      return Some(TokenOutOfRange);
    }
    match t[i].kind {
      case SubExpr =>
        if i + 1 >= |t| {
          return Some(TokenOutOfRange);
        }
        ex.Append("(");
        if t[i + 1].kind == Operator {
          err := AppendExprOperator(p, i, blocks, name, ref, ds, ex, c);
        } else {
          err := AppendExprToken(p, i + 1, blocks, name, ref, ds, ex, c);
        }
        if err == None {
          ex.Append(")");
        }
      case Variable =>
        err := AppendVariable(p, i, blocks, "default", true, false, ds, ex, c);
      case Text =>
        c.texts := c.texts + 1;
        ds.Append(TextDecl(name, c.texts, t[i].text));
        ex.Append(TextRefName(ref, name, c.texts));
        err := None;
      case Command =>
        match t[i].reparse {
          case ReparseFailed(m) =>
            err := Some(ParserFailed(m));
          case Reparsed(q) =>
            ds.Append("[");
            err := CompileCommand(q, blocks, name, ds, ex, c);
            if err == None {
              ds.Append("]");
            }
        }
      case ExpandWord =>
        err := Some(ExpandNotSupported);
      case Word =>
        err := AppendExprWord(p, i, blocks, name, ref, ds, ex, c);
      case Bs =>
        ex.Append(t[i].text);
        err := None;
      case _ =>
        err := None;
    }
  }

  /** The components of the WORD at i, each lowered in turn. */
  method AppendExprWord(p: Parse, i: nat, blocks: seq<Block>, name: string, ref: TextRef,
                        ds: DString, ex: DString, c: Counters) returns (err: Option<Error>)
    requires i < |p.tokens| && ds != ex
    modifies ds, ex, c
    ensures CReports(CExprWord(p, i, 0, blocks, name, ref, old(State(ds, ex, c))), err, State(ds, ex, c))
    decreases p, |p.tokens| - i, 1, 1
  {
    var j := 0;
    while j < p.tokens[i].numComponents
      invariant CExprWord(p, i, j, blocks, name, ref, State(ds, ex, c)) ==
                CExprWord(p, i, 0, blocks, name, ref, old(State(ds, ex, c)))
      decreases p.tokens[i].numComponents - j
    {
      err := AppendExprToken(p, i + 1 + j, blocks, name, ref, ds, ex, c);
      if err != None {
        return;
      }
      j := j + 1;
    }
    return None;
  }

  /** thtml_CAppendExpr_Operator: count the operands, then lower by the
      operator's spelling and arity. */
  method AppendExprOperator(p: Parse, i: nat, blocks: seq<Block>, name: string, ref: TextRef,
                            ds: DString, ex: DString, c: Counters) returns (err: Option<Error>)
    requires i + 1 < |p.tokens| && ds != ex
    modifies ds, ex, c
    ensures CReports(CExprOperator(p, i, blocks, name, ref, old(State(ds, ex, c))), err, State(ds, ex, c))
    decreases p, |p.tokens| - i, 1, 0
  {
    var t := p.tokens;
    var off := i + 2;
    var count := CountOperands(p, off, t[i].numComponents);
    if count.Err? {
      return Some(count.error);
    }
    var nops := count.value;
    var op := t[i + 1].text;
    if |op| == 1 {
      if nops == 1 {
        if op[0] == '!' {
          ds.Append(op);
          ex.Append("(");
          err := AppendExprToken(p, off, blocks, name, ref, ds, ex, c);
          if err == None {
            ex.Append(")");
          }
        } else if op[0] == '-' || op[0] == '+' {
          ds.Append(op);
          err := AppendExprToken(p, off, blocks, name, ref, ds, ex, c);
        } else {
          err := None;
        }
      } else if nops == 2 && CBinary1(op[0]) {
        err := AppendOperands(p, i, blocks, name, ref, " __thtml_" + HelperName(op) + "__(", ", ", ds, ex, c);
      } else if op[0] == '?' {
        err := AppendTernary(p, i, blocks, name, ref, ds, ex, c);
      } else {
        err := Some(UnsupportedOperator);
      }
    } else if |op| == 2 && Logic(op) {
      err := AppendOperands(p, i, blocks, name, ref, "(", " " + op + " ", ds, ex, c);
    } else if |op| == 2 && CBinary2(op) {
      err := AppendOperands(p, i, blocks, name, ref, " __thtml_" + HelperName(op) + "__(", ", ", ds, ex, c);
    } else {
      err := Some(UnsupportedOperator);
    }
  }

  /** The three operands of `?`, separated by ` ? ` and ` : ` in the
      statement buffer. */
  method AppendTernary(p: Parse, i: nat, blocks: seq<Block>, name: string, ref: TextRef,
                       ds: DString, ex: DString, c: Counters) returns (err: Option<Error>)
    requires i + 1 < |p.tokens| && ds != ex
    modifies ds, ex, c
    ensures var t := p.tokens;
      var off := i + 2;
      var st := old(State(ds, ex, c));
      var r :=
        if off >= |t| then Err(TokenOutOfRange)
        else
          var second := off + t[off].numComponents + 1;
          if second >= |t| then Err(TokenOutOfRange)
          else
            var third := second + t[second].numComponents + 1;
            match CExprToken(p, off, blocks, name, ref, st)
            case Err(e) => Err(e)
            case Ok(a) =>
              match CExprToken(p, second, blocks, name, ref, a.(ds := a.ds + " " + t[i + 1].text + " "))
              case Err(e) => Err(e)
              case Ok(b) => CExprToken(p, third, blocks, name, ref, b.(ds := b.ds + " : "));
      CReports(r, err, State(ds, ex, c))
    decreases p, |p.tokens| - i, 0, 1
  {
    var t := p.tokens;
    var off := i + 2;
    if off >= |t| {
      return Some(TokenOutOfRange);
    }
    var second := off + t[off].numComponents + 1;
    if second >= |t| {
      return Some(TokenOutOfRange);
    }
    var third := second + t[second].numComponents + 1;
    err := AppendExprToken(p, off, blocks, name, ref, ds, ex, c);
    if err != None {
      return;
    }
    ds.Append(" ");
    ds.Append(t[i + 1].text);
    ds.Append(" ");
    err := AppendExprToken(p, second, blocks, name, ref, ds, ex, c);
    if err != None {
      return;
    }
    ds.Append(" : ");
    err := AppendExprToken(p, third, blocks, name, ref, ds, ex, c);
  }

  /** Two operands after `open`, separated by `sep` and closed by `)`, all
      in the expression buffer. */
  method AppendOperands(p: Parse, i: nat, blocks: seq<Block>, name: string, ref: TextRef, open: string, sep: string,
                        ds: DString, ex: DString, c: Counters) returns (err: Option<Error>)
    requires i + 1 < |p.tokens| && ds != ex
    modifies ds, ex, c
    ensures CReports(CExprOperands(p, i, blocks, name, ref, open, sep, old(State(ds, ex, c))), err, State(ds, ex, c))
    decreases p, |p.tokens| - i, 0, 0
  {
    var t := p.tokens;
    var off := i + 2;
    if off >= |t| {
      return Some(TokenOutOfRange);
    }
    ex.Append(open);
    err := AppendExprToken(p, off, blocks, name, ref, ds, ex, c);
    if err != None {
      return;
    }
    ex.Append(sep);
    err := AppendExprToken(p, off + t[off].numComponents + 1, blocks, name, ref, ds, ex, c);
    if err == None {
      ex.Append(")");
    }
  }

  /** thtml_CCompileExpr: the expression goes to a buffer of its own that
      starts with ExprHeader; then it is copied after the statements with
      `;`, and every literal temporary made meanwhile is released. */
  method CompileExpr(p: Parse, blocks: seq<Block>, name: string, ref: TextRef, ds: DString, ex: DString, c: Counters)
      returns (err: Option<Error>)
    requires ds != ex
    modifies ds, ex, c
    ensures CReports(CCompileExpr(p, blocks, name, ref, old(State(ds, ex, c))), err, State(ds, ex, c))
  {
    var buf := new DString();
    buf.Append(ExprHeader(name));
    ghost var start := State(ds, buf, c);
    assert start == old(State(ds, ex, c)).(expr := ExprHeader(name));
    var before := c.texts;
    err := AppendExprToken(p, 0, blocks, name, ref, ds, buf, c);
    if err != None {
      return;
    }
    ghost var s := State(ds, buf, c);
    buf.Append(";");
    ds.Append(buf.text);
    ConcatAssoc(s.ds, s.expr, ";");
    ReleaseLoop(name, before, ds, c);
  }

  /** The release loop of thtml_CCompileExpr, over the counter values after
      `before`. */
  method ReleaseLoop(name: string, before: nat, ds: DString, c: Counters)
    modifies ds
    ensures ds.text == old(ds.text) + Releases(name, before, c.texts)
  {
    ghost var head := ds.text;
    var k := before + 1;
    while k <= c.texts
      invariant before + 1 <= k && (k <= c.texts + 1 || k == before + 1)
      invariant ds.text == head + Releases(name, before, k - 1)
    {
      ds.Append(TextRelease(name, k));
      ConcatAssoc(head, Releases(name, before, k - 1), TextRelease(name, k));
      k := k + 1;
    }
  }

  // --------------------------------------------------- quoted and template text

  /** thtml_CCompileQuotedString. */
  method CompileQuotedString(p: Parse, blocks: seq<Block>, name: string, ds: DString, ex: DString, c: Counters)
      returns (err: Option<Error>)
    requires ds != ex
    modifies ds, ex, c
    ensures CReports(CCompileQuotedString(p, blocks, name, old(State(ds, ex, c))), err, State(ds, ex, c))
  {
    var t := p.tokens;
    var i := 0;
    while i < |t|
      invariant CQuotedFrom(p, i, blocks, name, State(ds, ex, c)) == CQuotedFrom(p, 0, blocks, name, old(State(ds, ex, c)))
      decreases |t| - i
    {
      match t[i].kind {
        case Text =>
          ds.Append(t[i].text);
        case Bs =>
          ds.Append(t[i].text);
        case Command =>
          return Some(QuotedCommandSubst);
        case Variable =>
          err := AppendVariable(p, i, blocks, name, false, false, ds, ex, c);
          if err != None {
            return;
          }
          i := i + 1;
        case _ =>
          return Some(UnsupportedTokenType);
      }
      i := i + 1;
    }
    return None;
  }

  /** thtml_CCompileTemplateText: a nested command or a variable closes the
      text region, is lowered as code, and reopens text. */
  method CompileTemplateText(p: Parse, blocks: seq<Block>, ds: DString, ex: DString, c: Counters)
      returns (err: Option<Error>)
    requires ds != ex
    modifies ds, ex, c
    ensures CReports(CCompileTemplateText(p, blocks, old(State(ds, ex, c))), err, State(ds, ex, c))
  {
    var t := p.tokens;
    var i := 0;
    while i < |t|
      invariant CTemplateFrom(p, i, blocks, State(ds, ex, c)) == CTemplateFrom(p, 0, blocks, old(State(ds, ex, c)))
      decreases |t| - i
    {
      match t[i].kind {
        case Text =>
          ds.Append(t[i].text);
        case Bs =>
          ds.Append(t[i].text);
        case Command =>
          match t[i].reparse {
            case ReparseFailed(m) =>
              return Some(ParserFailed(m));
            case Reparsed(q) =>
              err := TemplateCommand(q, blocks, ds, ex, c);
              if err != None {
                return;
              }
          }
        case Variable =>
          err := TemplateVariable(p, i, blocks, ds, ex, c);
          if err != None {
            return;
          }
          i := i + 1;
        case _ =>
          return Some(UnsupportedTokenType);
      }
      i := i + 1;
    }
    return None;
  }

  /** A nested command in template text: the text region is closed, the
      command's result appended to `ds`, and the next region opened. */
  method TemplateCommand(q: Parse, blocks: seq<Block>, ds: DString, ex: DString, c: Counters)
      returns (err: Option<Error>)
    requires ds != ex
    modifies ds, ex, c
    ensures var st := old(State(ds, ex, c));
      var r := match CCompileCommand(q, blocks, "TODO", st.(ds := st.ds + [ETX] + "\nappend ds " + "["))
        case Err(e) => Err(e)
        case Ok(s) => Ok(s.(ds := s.ds + "]" + "\n" + [STX]));
      CReports(r, err, State(ds, ex, c))
  {
    ds.Append([ETX]);
    ds.Append("\nappend ds ");
    ds.Append("[");
    err := CompileCommand(q, blocks, "TODO", ds, ex, c);
    if err != None {
      return;
    }
    ds.Append("]");
    ds.Append("\n");
    ds.Append([STX]);
  }

  /** A variable in template text: the text region is closed, the value
      appended, and the next region opened. */
  method TemplateVariable(p: Parse, i: nat, blocks: seq<Block>, ds: DString, ex: DString, c: Counters)
      returns (err: Option<Error>)
    requires ds != ex
    modifies ds, ex, c
    ensures var st := old(State(ds, ex, c));
      var r := match CVariable(p, i, blocks, "default", false, false, st.(ds := st.ds + [ETX]))
        case Err(e) => Err(e)
        case Ok(s) => Ok(s.(ds := s.ds + "\n" + [STX]));
      CReports(r, err, State(ds, ex, c))
  {
    ds.Append([ETX]);
    err := AppendVariable(p, i, blocks, "default", false, false, ds, ex, c);
    if err != None {
      return;
    }
    ds.Append("\n");
    ds.Append([STX]);
  }

  // --------------------------------------------------------------- commands

  /** thtml_CAppendCommand_Token: lowers the token at i and returns out_i,
      the index the caller continues at. */
  method AppendCommandToken(p: Parse, subst: bool, i: nat, blocks: seq<Block>, name: string,
                            ds: DString, ex: DString, c: Counters) returns (out: nat, err: Option<Error>)
    requires ds != ex
    modifies ds, ex, c
    ensures CLowers(CCommandToken(p, subst, i, blocks, name, old(State(ds, ex, c))), err, State(ds, ex, c), out)
    decreases p, |p.tokens| - i, 1
  {
    var t := p.tokens;
    out := i + 1;
    if i >= |t| {
      return out, Some(TokenOutOfRange);
    }
    match t[i].kind {
      case Variable =>
        err := AppendVariable(p, i, blocks, name, false, true, ds, ex, c);
        out := i + 2;
      case SimpleWord =>
        var k;
        k, err := AppendCommandToken(p, subst, i + 1, blocks, name, ds, ex, c);
        out := k + 1;
      case Text =>
        if subst {
          match t[i].reparse {
            case ReparseFailed(m) =>
              err := Some(ParserFailed(m));
            case Reparsed(q) =>
              err := CompileQuotedString(q, blocks, name, ds, ex, c);
          }
        } else {
          ds.Append("\n");
          ds.Append(AppendLiteral(name, t[i].text));
          err := None;
        }
      case Command =>
        match t[i].reparse {
          case ReparseFailed(m) =>
            err := Some(ParserFailed(m));
          case Reparsed(q) =>
            ds.Append("[");
            err := CompileCommand(q, blocks, name, ds, ex, c);
            if err == None {
              ds.Append("]");
            }
        }
      case ExpandWord =>
        err := Some(ExpandNotSupported);
      case Word =>
        ds.Append("Tcl_DStringAppend(__ds_");
        ds.Append(name);
        ds.Append("__, \"");
        var k;
        k, err := AppendCommandWord(p, subst, i, blocks, name, ds, ex, c);
        if err != None {
          return;
        }
        ds.Append("\", -1);");
        out := k + 1;
      case Bs =>
        ds.Append(t[i].text);
        err := None;
      case _ =>
        err := None;
    }
  }

  /** The components of the WORD at i, each lowered in turn; k is where
      the last one ended. */
  method AppendCommandWord(p: Parse, subst: bool, i: nat, blocks: seq<Block>, name: string,
                           ds: DString, ex: DString, c: Counters) returns (k: nat, err: Option<Error>)
    requires i < |p.tokens| && ds != ex
    modifies ds, ex, c
    ensures CLowers(CWordLoop(p, subst, i, i, blocks, name, old(State(ds, ex, c))), err, State(ds, ex, c), k)
    decreases p, |p.tokens| - i, 0
  {
    var t := p.tokens;
    k := i;
    while k - i < t[i].numComponents
      invariant k >= i
      invariant CWordLoop(p, subst, i, k, blocks, name, State(ds, ex, c)) ==
                CWordLoop(p, subst, i, i, blocks, name, old(State(ds, ex, c)))
      decreases |t| - k
    {
      if k + 1 >= |t| {
        return k, Some(TokenOutOfRange);
      }
      var next;
      next, err := AppendCommandToken(p, subst, k + 1, blocks, name, ds, ex, c);
      if err != None {
        return;
      }
      k := next;
    }
    err := None;
  }

  /** thtml_CCompileCommand: every word is lowered into a word buffer, which
      is copied out and emptied; the first word is followed by OpenQuote,
      and a command of more than one token ends with CloseQuote.  The
      source's `expr`/`eval`/`subst` test reads the word buffer after it was
      emptied and never fires, so it is not written here. */
  method CompileCommand(p: Parse, blocks: seq<Block>, name: string, ds: DString, ex: DString, c: Counters)
      returns (err: Option<Error>)
    requires ds != ex
    modifies ds, ex, c
    ensures CReports(CCompileCommand(p, blocks, name, old(State(ds, ex, c))), err, State(ds, ex, c))
    decreases p, |p.tokens| + 1, 3
  {
    var word := new DString();
    var i := 0;
    var first := true;
    while i < |p.tokens|
      invariant fresh(word) && word.text == []
      invariant CCommandLoop(p, i, first, blocks, name, State(ds, ex, c)) ==
                CCommandLoop(p, 0, true, blocks, name, old(State(ds, ex, c)))
      decreases |p.tokens| - i
    {
      ghost var st := State(ds, ex, c);
      var next;
      next, err := AppendCommandToken(p, false, i, blocks, name, word, ex, c);
      if err != None {
        return;
      }
      ds.Append(word.text);
      word.Reset();
      if first {
        ds.Append(OpenQuote(name));
        first := false;
      } else {
        assert ds.text == ds.text + "";
      }
      i := next;
    }
    if |p.tokens| > 1 {
      ds.Append(CloseQuote(name));
    }
    return None;
  }

  // ------------------------------------------------ foreach lists, arguments

  /** thtml_CCompileForeachList: the buffer declared, the quoted-string
      loop, the buffer made into an object. */
  method CompileForeachList(p: Parse, blocks: seq<Block>, name: string, ds: DString, ex: DString, c: Counters)
      returns (err: Option<Error>)
    requires ds != ex
    modifies ds, ex, c
    ensures CReports(CCompileForeachList(p, blocks, name, old(State(ds, ex, c))), err, State(ds, ex, c))
  {
    ds.Append(DeclareBuffer(name));
    err := CompileQuotedString(p, blocks, name, ds, ex, c);
    if err == None {
      ds.Append(BufferToObj(name));
    }
  }

  /** thtml_CCompileQuotedArg: as a foreach list, but literal text becomes
      append statements. */
  method CompileQuotedArg(p: Parse, blocks: seq<Block>, name: string, ds: DString, ex: DString, c: Counters)
      returns (err: Option<Error>)
    requires ds != ex
    modifies ds, ex, c
    ensures CReports(CCompileQuotedArg(p, blocks, name, old(State(ds, ex, c))), err, State(ds, ex, c))
  {
    ds.Append("\n");
    ds.Append(DeclareBuffer(name));
    ghost var start := State(ds, ex, c);
    var t := p.tokens;
    var i := 0;
    while i < |t|
      invariant CArgFrom(p, i, blocks, name, State(ds, ex, c)) == CArgFrom(p, 0, blocks, name, start)
      decreases |t| - i
    {
      match t[i].kind {
        case Text =>
          ds.Append("\n");
          ds.Append(AppendLiteral(name, t[i].text));
        case Bs =>
          ds.Append("\n");
          ds.Append(AppendLiteral(name, t[i].text));
        case Command =>
          return Some(QuotedCommandSubst);
        case Variable =>
          err := AppendVariable(p, i, blocks, name, false, false, ds, ex, c);
          if err != None {
            return;
          }
          i := i + 1;
        case _ =>
          return Some(UnsupportedTokenType);
      }
      i := i + 1;
    }
    ds.Append(BufferToObj(name));
    return None;
  }
}
