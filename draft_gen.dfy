/** The draft expression compiler (src/expr.c) as the C code runs it, over
    a Tcl_DString, proved to end as Draft specifies, text and error alike.
    The second-operand index is a parameter, so the same methods run the
    code as written and as corrected. */
module DraftGen {
  import opened Gen
  import opened TclParse
  import opened TclBackend
  import opened Draft

  /** thtml_TclAppendExpr_Variable. */
  method AppendDraftVariable(p: Parse, i: nat, ds: DString) returns (err: Option<Error>)
    requires i < |p.tokens|
    modifies ds
    ensures RunReports(DraftVariable(p, i, old(ds.text)), err, ds.text)
  {
    var t := p.tokens;
    if t[i].numComponents != 1 {
      return Some(ArrayVariable);
    }
    if i + 1 >= |t| {
      return Some(TokenOutOfRange);
    }
    ds.Append("$");
    ds.Append(t[i + 1].text);
    return None;
  }

  /** thtml_TclAppendExprToken. */
  method AppendDraftToken(p: Parse, i: nat, mode: SecondOperand, ds: DString) returns (err: Option<Error>)
    modifies ds
    ensures RunReports(DraftToken(p, i, mode, old(ds.text)), err, ds.text)
    decreases |p.tokens| - i, 2
  {
    var t := p.tokens;
    if i >= |t| {
      return Some(TokenOutOfRange);
    }
    match t[i].kind {
      case SubExpr =>
        if i + 1 >= |t| {
          return Some(TokenOutOfRange);
        }
        if t[i + 1].kind == Operator {
          err := AppendDraftOperator(p, i, mode, ds);
        } else {
          err := None;
        }
      case Variable =>
        err := AppendDraftVariable(p, i, ds);
      case Text =>
        ds.Append(t[i].text);
        err := None;
      case _ =>
        err := None;
    }
  }

  /** thtml_TclAppendExpr_Operator: count the operands, then lower the
      two-operand operators, ignoring what the operands report. */
  method AppendDraftOperator(p: Parse, i: nat, mode: SecondOperand, ds: DString) returns (err: Option<Error>)
    requires i + 1 < |p.tokens|
    modifies ds
    ensures RunReports(DraftOperator(p, i, mode, old(ds.text)), err, ds.text)
    decreases |p.tokens| - i, 1
  {
    var t := p.tokens;
    var off := i + 2;
    var n := t[i].numComponents;
    var nops := 0;
    var j := 0;
    while j < n - 2
      invariant CountOperands(p, off, j, n, nops) == CountOperands(p, off, 0, n, 0)
      decreases n - j
    {
      if off + j >= |t| {
        return Some(TokenOutOfRange);
      }
      if t[off + j].kind != SubExpr {
        return Some(NotEnoughOperands);
      }
      nops := nops + 1;
      j := j + 1 + t[off + j].numComponents;
    }
    var op := t[i + 1].text;
    if |op| == 1 {
      if nops == 1 && UnaryOp(op[0]) {
        err := None;
      } else if nops == 2 && BinaryOp1(op[0]) {
        err := AppendDraftOperands(p, i, mode, ds);
      } else if op[0] == '?' {
        err := None;
      } else {
        err := Some(UnsupportedOperator);
      }
    } else if |op| == 2 && DraftOp2(op) {
      err := AppendDraftOperands(p, i, mode, ds);
    } else {
      err := Some(UnsupportedOperator);
    }
  }

  /** Both operands with the operator between single spaces. */
  method AppendDraftOperands(p: Parse, i: nat, mode: SecondOperand, ds: DString) returns (err: Option<Error>)
    requires i + 1 < |p.tokens|
    modifies ds
    ensures RunReports(DraftOperands(p, i, mode, old(ds.text)), err, ds.text)
    decreases |p.tokens| - i, 0
  {
    var t := p.tokens;
    var off := i + 2;
    if off >= |t| {
      return Some(TokenOutOfRange);
    }
    var second := SecondIndex(mode, off, t[off].numComponents);
    var ignored := AppendDraftToken(p, off, mode, ds);
    ds.Append(" ");
    ds.Append(t[i + 1].text);
    ds.Append(" ");
    ignored := AppendDraftToken(p, second, mode, ds);
    return None;
  }

  /** thtml_TclCompileExpr. */
  method CompileDraftExpr(p: Parse, mode: SecondOperand, ds: DString) returns (err: Option<Error>)
    modifies ds
    ensures RunReports(CompileDraft(p, mode, old(ds.text)), err, ds.text)
  {
    err := AppendDraftToken(p, 0, mode, ds);
  }
}
