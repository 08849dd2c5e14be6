/** The Tcl backend as the C code runs it: each generator appends to a
    Tcl_DString (a `DString`) step by step and reports an error instead of
    returning TCL_ERROR.  Every method is proved to end exactly as its
    specification function in TclBackend says. */
module TclGen {
  import opened Gen
  import opened TclParse
  import opened Scope
  import T = TclBackend

  /** A command-token method ends as its specification says, including the
      index out_i the caller continues at. */
  predicate Lowers(r: Result<T.Emit>, err: Option<Error>, text: string, out: nat)
  {
    match r
    case Ok(w) => err == None && text == w.text && out == w.next
    case Err(e) => err == Some(e)
  }

  // ------------------------------------------------------------- variables

  /** thtml_TclAppendVariable_Dict: the keys are joined by single spaces,
      the first one without a leading space. */
  method AppendDict(v: string, keys: seq<string>, ds: DString)
    modifies ds
    ensures ds.text == old(ds.text) + T.DictGet(v, keys)
  {
    ds.Append("[dict get $");
    ds.Append(v);
    ds.Append(" {");
    ghost var head := ds.text;
    var first := true;
    var k := 0;
    while k < |keys|
      invariant 0 <= k <= |keys|
      invariant first <==> k == 0
      invariant ds.text == head + Join(keys[..k], " ")
    {
      if first {
        first := false;
      } else {
        ds.Append(" ");
      }
      ds.Append(keys[k]);
      JoinSnoc(keys[..k], keys[k], " ");
      assert keys[..k + 1] == keys[..k] + [keys[k]];
      k := k + 1;
    }
    assert keys[..k] == keys;
    ds.Append("}]");
  }

  /** thtml_TclAppendVariable: split the name at the dots, scan the blocks
      for the first segment, then emit `$x` or a dict lookup. */
  method AppendVariable(p: Parse, i: nat, blocks: seq<Block>, ds: DString) returns (err: Option<Error>)
    modifies ds
    ensures Reports(T.VariableToken(p, i, blocks, old(ds.text)), err, ds.text)
  {
    var t := p.tokens;
    if i >= |t| {
      return Some(TokenOutOfRange);
    }
    if t[i].numComponents != 1 {
      return Some(ArrayVariable);
    }
    if i + 1 >= |t| {
      return Some(TokenOutOfRange);
    }
    var parts := SplitPathLoop(t[i + 1].text);
    var b := ScanBlocks(parts, blocks);
    match b {
      case NoFirstSegment =>
        return Some(EmptyPath);
      case TopLevel =>
        AppendDict("__data__", parts, ds);
      case Declared =>
        if parts == [] {
          return Some(EmptyPath);
        } else if |parts| == 1 {
          ds.Append("$");
          ds.Append(parts[0]);
        } else {
          AppendDict(parts[0], parts, ds);
        }
    }
    return None;
  }

  // ------------------------------------------------------------ expressions

  /** thtml_TclAppendExpr_Token. */
  method AppendExprToken(p: Parse, i: nat, blocks: seq<Block>, ds: DString) returns (err: Option<Error>)
    modifies ds
    ensures Reports(T.ExprToken(p, i, blocks, old(ds.text)), err, ds.text)
    decreases |p.tokens| - i, 2, 0
  {
    var t := p.tokens;
    if i >= |t| {
      return Some(TokenOutOfRange);
    }
    match t[i].kind {
      case SubExpr =>
        if i + 1 >= |t| {
          return Some(TokenOutOfRange);
        }
        if t[i + 1].kind == Operator {
          err := AppendExprOperator(p, i, blocks, ds);
        } else if t[i + 1].kind == Text {
          ds.Append("{");
          err := AppendExprToken(p, i + 1, blocks, ds);
          if err == None {
            ds.Append("}");
          }
        } else {
          err := AppendExprToken(p, i + 1, blocks, ds);
        }
      case Variable =>
        err := AppendVariable(p, i, blocks, ds);
      case Text =>
        ds.Append(t[i].text);
        err := None;
      case Command =>
        err := Some(ExprCommandSubst);
      case ExpandWord =>
        err := Some(ExpandNotSupported);
      case Word =>
        ds.Append("\"");
        ghost var start := ds.text;
        var j := 0;
        while j < t[i].numComponents
          invariant j <= t[i].numComponents
          invariant T.ExprWord(p, i, j, blocks, ds.text) == T.ExprWord(p, i, 0, blocks, start)
        {
          err := AppendExprToken(p, i + 1 + j, blocks, ds);
          if err != None {
            return;
          }
          j := j + 1;
        }
        ds.Append("\"");
        err := None;
      case Bs =>
        ds.Append(t[i].text);
        err := None;
      case _ =>
        err := None;
    }
  }

  /** thtml_TclAppendExpr_Operator: count the operands, then lower by the
      operator's spelling and arity. */
  method AppendExprOperator(p: Parse, i: nat, blocks: seq<Block>, ds: DString) returns (err: Option<Error>)
    requires i + 1 < |p.tokens|
    modifies ds
    ensures Reports(T.ExprOperator(p, i, blocks, old(ds.text)), err, ds.text)
    decreases |p.tokens| - i, 1, 0
  {
    var t := p.tokens;
    var off := i + 2;
    var n := t[i].numComponents;
    var nops := 0;
    var j := 0;
    while j < n - 2
      invariant T.CountOperands(p, off, j, n, nops) == T.CountOperands(p, off, 0, n, 0)
      decreases n - j
    {
      if off + j >= |t| {
        return Some(TokenOutOfRange);
      }
      if t[off + j].kind != SubExpr {
        return Some(NotEnoughOperands);
      }
      nops := nops + 1;
      j := j + 1 + t[off + j].numComponents;
    }
    var op := t[i + 1].text;
    if |op| == 1 && nops == 1 && T.UnaryOp(op[0]) {
      ds.Append(op);
      err := AppendExprToken(p, off, blocks, ds);
    } else if (|op| == 1 && nops == 2 && T.BinaryOp1(op[0])) || (|op| == 2 && T.BinaryOp2(op)) {
      if off >= |t| {
        return Some(TokenOutOfRange);
      }
      var second := off + t[off].numComponents + 1;
      err := AppendExprToken(p, off, blocks, ds);
      if err != None {
        return;
      }
      ds.Append(" ");
      ds.Append(op);
      ds.Append(" ");
      err := AppendExprToken(p, second, blocks, ds);
    } else if |op| == 1 && op[0] == '?' {
      if off >= |t| {
        return Some(TokenOutOfRange);
      }
      var second := off + t[off].numComponents + 1;
      if second >= |t| {
        return Some(TokenOutOfRange);
      }
      var third := second + t[second].numComponents + 1;
      err := AppendExprToken(p, off, blocks, ds);
      if err != None {
        return;
      }
      ds.Append(" ");
      ds.Append(op);
      ds.Append(" ");
      err := AppendExprToken(p, second, blocks, ds);
      if err != None {
        return;
      }
      ds.Append(" : ");
      err := AppendExprToken(p, third, blocks, ds);
    } else {
      err := Some(UnsupportedOperator);
    }
  }

  /** thtml_TclCompileExpr. */
  method CompileExpr(p: Parse, blocks: seq<Block>, ds: DString) returns (err: Option<Error>)
    modifies ds
    ensures Reports(T.CompileExpr(p, blocks, old(ds.text)), err, ds.text)
  {
    err := AppendExprToken(p, 0, blocks, ds);
  }

  // --------------------------------------------------- quoted and template text

  /** thtml_TclCompileQuotedString. */
  method CompileQuotedString(p: Parse, blocks: seq<Block>, ds: DString) returns (err: Option<Error>)
    modifies ds
    ensures Reports(T.CompileQuotedString(p, blocks, old(ds.text)), err, ds.text)
  {
    var t := p.tokens;
    var i := 0;
    while i < |t|
      invariant T.QuotedFrom(p, i, blocks, ds.text) == T.QuotedFrom(p, 0, blocks, old(ds.text))
      decreases |t| - i
    {
      match t[i].kind {
        case Text =>
          ds.Append(t[i].text);
        case Bs =>
          ds.Append(t[i].text);
        case Command =>
          return Some(QuotedCommandSubst);
        case Variable =>
          err := AppendVariable(p, i, blocks, ds);
          if err != None {
            return;
          }
          i := i + 1;
        case _ =>
          return Some(UnsupportedTokenType);
      }
      i := i + 1;
    }
    return None;
  }

  /** thtml_TclCompileTemplateText. */
  method CompileTemplateText(p: Parse, blocks: seq<Block>, ds: DString) returns (err: Option<Error>)
    modifies ds
    ensures Reports(T.CompileTemplateText(p, blocks, old(ds.text)), err, ds.text)
  {
    var t := p.tokens;
    var i := 0;
    while i < |t|
      invariant T.TemplateFrom(p, i, blocks, ds.text) == T.TemplateFrom(p, 0, blocks, old(ds.text))
      decreases |t| - i
    {
      match t[i].kind {
        case Text =>
          ds.Append(t[i].text);
        case Bs =>
          ds.Append(t[i].text);
        case Command =>
          return Some(QuotedCommandSubst);
        case Variable =>
          ds.Append(T.TemplateVarOpen());
          err := AppendVariable(p, i, blocks, ds);
          if err != None {
            return;
          }
          ds.Append(T.TemplateVarClose());
          i := i + 1;
        case _ =>
          return Some(UnsupportedTokenType);
      }
      i := i + 1;
    }
    return None;
  }

  // --------------------------------------------------------------- commands

  /** thtml_TclAppendCommand_Token: lowers the token at i and returns out_i,
      the index the caller continues at. */
  method AppendCommandToken(p: Parse, subst: bool, i: nat, blocks: seq<Block>, ds: DString)
      returns (out: nat, err: Option<Error>)
    modifies ds
    ensures Lowers(T.CommandToken(p, subst, i, blocks, old(ds.text)), err, ds.text, out)
    decreases p, |p.tokens| - i, 1
  {
    var t := p.tokens;
    out := i + 1;
    if i >= |t| {
      return out, Some(TokenOutOfRange);
    }
    match t[i].kind {
      case Variable =>
        err := AppendVariable(p, i, blocks, ds);
        out := i + 2;
      case SimpleWord =>
        var k;
        k, err := AppendCommandToken(p, subst, i + 1, blocks, ds);
        out := k + 1;
      case Text =>
        if subst {
          match t[i].reparse {
            case ReparseFailed(m) =>
              err := Some(ParserFailed(m));
            case Reparsed(q) =>
              ds.Append("{");
              err := CompileQuotedString(q, blocks, ds);
              if err == None {
                ds.Append("}");
              }
          }
        } else {
          ds.Append(t[i].text);
          err := None;
        }
      case Command =>
        ds.Append("[");
        match t[i].reparse {
          case ReparseFailed(m) =>
            err := Some(ParserFailed(m));
          case Reparsed(q) =>
            err := CompileCommand(q, blocks, ds);
            if err == None {
              ds.Append("]");
            }
        }
      case ExpandWord =>
        err := Some(ExpandNotSupported);
      case Word =>
        var k := i;
        while k - i < t[i].numComponents
          invariant k >= i
          invariant T.WordLoop(p, subst, i, k, blocks, ds.text) == T.WordLoop(p, subst, i, i, blocks, old(ds.text))
          decreases |t| - k
        {
          var next;
          next, err := AppendCommandToken(p, subst, k + 1, blocks, ds);
          if err != None {
            return;
          }
          k := next;
        }
        out := k + 1;
        err := None;
      case Bs =>
        ds.Append(t[i].text);
        err := None;
      case _ =>
        err := None;
    }
  }

  /** thtml_TclCompileCommand: each word goes through a word buffer; the
      first word decides whether later TEXT words are substituted. */
  method CompileCommand(p: Parse, blocks: seq<Block>, ds: DString) returns (err: Option<Error>)
    modifies ds
    ensures Reports(T.CompileCommand(p, blocks, old(ds.text)), err, ds.text)
    decreases p, |p.tokens| + 1, 3
  {
    var word := new DString();
    var subst := false;
    var i := 0;
    var first := true;
    while i < |p.tokens|
      invariant fresh(word)
      invariant word.text == []
      invariant first ==> !subst
      invariant T.CommandLoop(p, i, first, subst, blocks, ds.text) == T.CommandLoop(p, 0, true, false, blocks, old(ds.text))
      decreases |p.tokens| - i
    {
      ghost var acc := ds.text;
      ghost var wasFirst := first;
      ghost var wasSubst := subst;
      if !first {
        ds.Append(" ");
      }
      var next;
      next, err := AppendCommandToken(p, subst, i, blocks, word);
      if err != None {
        return;
      }
      var bytes := word.text;
      assert T.CommandToken(p, subst, i, blocks, []) == Ok(T.Emit(bytes, next));
      if first {
        if T.StartsWithExpr(bytes) {
          subst := true;
        }
        first := false;
      }
      ds.Append(bytes);
      word.Reset();
      assert subst == if wasFirst then T.StartsWithExpr(bytes) else wasSubst;
      assert ds.text == (if wasFirst then acc else acc + " ") + bytes;
      i := next;
    }
    return None;
  }
}
