/** The draft expression compiler (src/expr.c), an earlier version of the
    Tcl backend's expression lowering: operators only, no variable
    resolution, literals and one- and three-operand operators left out, and
    operand errors ignored.

    Because the callers ignore operand errors and keep the buffer, a step
    here keeps its text on failure too (Run). */
module Draft {
  import opened Gen
  import opened TclParse
  import opened TclBackend
  import opened TclProps

  /** Where the two-operand branches read their second operand: as written,
      at i + 2 + numComponents of the first operand, which is the last token
      of the first operand; or just after the first operand, as the arity
      loop and the later Tcl backend count it. */
  datatype SecondOperand = AsWritten | AfterFirst

  function SecondIndex(mode: SecondOperand, off: nat, firstComponents: nat): nat
  {
    match mode
    case AsWritten => off + firstComponents
    case AfterFirst => off + firstComponents + 1
  }

  /** The two-character operators of the draft: no `eq ne in ni`. */
  predicate DraftOp2(op: string)
  {
    op == "&&" || op == "||" || op == "<<" || op == ">>" || op == "==" || op == "!="
  }

  /** thtml_TclAppendExpr_Variable: `$` and the raw name, no splitting. */
  function DraftVariable(p: Parse, i: nat, acc: string): Run<string>
    requires i < |p.tokens|
  {
    var t := p.tokens;
    if t[i].numComponents != 1 then Failed(ArrayVariable, acc)
    else if i + 1 >= |t| then Failed(TokenOutOfRange, acc)
    else Done(acc + "$" + t[i + 1].text)
  }

  /** thtml_TclAppendExprToken for the token at i. */
  function DraftToken(p: Parse, i: nat, mode: SecondOperand, acc: string): (r: Run<string>)
    ensures r.Failed? ==> r.state == acc
    ensures acc <= r.state
    decreases |p.tokens| - i, 2
  {
    var t := p.tokens;
    if i >= |t| then Failed(TokenOutOfRange, acc)
    else match t[i].kind
      case SubExpr =>
        if i + 1 >= |t| then Failed(TokenOutOfRange, acc)
        else if t[i + 1].kind == Operator then DraftOperator(p, i, mode, acc)
        else Done(acc)
      case Variable => DraftVariable(p, i, acc)
      case Text => Done(acc + t[i].text)
      case _ => Done(acc)
  }

  /** thtml_TclAppendExpr_Operator for the SUB_EXPR at i. */
  function DraftOperator(p: Parse, i: nat, mode: SecondOperand, acc: string): (r: Run<string>)
    requires i + 1 < |p.tokens|
    ensures r.Failed? ==> r.state == acc
    ensures acc <= r.state
    decreases |p.tokens| - i, 1
  {
    var t := p.tokens;
    var op := t[i + 1].text;
    match CountOperands(p, i + 2, 0, t[i].numComponents, 0)
    case Err(e) => Failed(e, acc)
    case Ok(nops) =>
      if |op| == 1 then
        if nops == 1 && UnaryOp(op[0]) then Done(acc)
        else if nops == 2 && BinaryOp1(op[0]) then DraftOperands(p, i, mode, acc)
        else if op[0] == '?' then Done(acc)
        else Failed(UnsupportedOperator, acc)
      else if |op| == 2 && DraftOp2(op) then DraftOperands(p, i, mode, acc)
      else Failed(UnsupportedOperator, acc)
  }

  /** Both operands, whatever either of them reports, with the operator
      between single spaces. */
  function DraftOperands(p: Parse, i: nat, mode: SecondOperand, acc: string): (r: Run<string>)
    requires i + 1 < |p.tokens|
    ensures r.Failed? ==> r.state == acc
    ensures acc <= r.state
    decreases |p.tokens| - i, 0
  {
    var t := p.tokens;
    var off := i + 2;
    if off >= |t| then Failed(TokenOutOfRange, acc)
    else
      var left := DraftToken(p, off, mode, acc).state;
      var right := DraftToken(p, SecondIndex(mode, off, t[off].numComponents), mode,
        left + " " + t[i + 1].text + " ").state;
      PrefixTrans(acc, left, left + " " + t[i + 1].text + " ", right);
      Done(right)
  }

  function CompileDraft(p: Parse, mode: SecondOperand, acc: string): Run<string>
  {
    DraftToken(p, 0, mode, acc)
  }

  lemma {:induction false} PrefixTrans(a: string, b: string, c: string, d: string)
    requires a <= b && b <= c && c <= d
    ensures a <= d
  {
  }

  /** The two-operand operators the draft lowers. */
  predicate DraftBinary(op: string)
  {
    (|op| == 1 && BinaryOp1(op[0])) || DraftOp2(op)
  }

  /** Every operator the draft visits is one it accepts; the operands of
      unary and ternary operators are never visited. */
  predicate DraftSupported(e: Expr)
  {
    match e
    case Lit(_) => true
    case Var(_) => true
    case Unary(op, _) => UnaryOp(op)
    case Binary(op, a, b) => DraftBinary(op) && DraftSupported(a) && DraftSupported(b)
    case Ternary(_, _, _) => true
  }

  /** What the draft is meant to produce for a tree: only the two-operand
      operators, each between single spaces and between its operands'
      text; leaves, unary and ternary operators are still to be written
      and contribute nothing. */
  function DraftRender(e: Expr): string
  {
    match e
    case Binary(op, a, b) => DraftRender(a) + " " + op + " " + DraftRender(b)
    case _ => ""
  }

  /** A tree the draft lowers, laid out from i. */
  predicate DraftLaid(e: Expr, t: seq<Token>, i: nat)
  {
    DraftSupported(e) && Laid(e, t, i)
  }

  /** With the second operand read after the first, the draft lowers every
      supported tree laid out from i to its DraftRender. */
  lemma {:induction false} DraftLowering(e: Expr, t: seq<Token>, i: nat, acc: string)
    requires DraftLaid(e, t, i)
    ensures DraftToken(Parse(t), i, AfterFirst, acc) == Done(acc + DraftRender(e))
    decreases e
  {
    match e {
      case Lit(_) =>
        assert acc + DraftRender(e) == acc;
      case Var(_) =>
        assert acc + DraftRender(e) == acc;
      case Unary(op, a) =>
        DraftUnaryCase(op, a, t, i, acc);
      case Binary(op, a, b) =>
        var sa, sb := LaidPair(op, a, b, t, i);
        var ra := DraftRender(a);
        DraftLowering(a, t, i + 2, acc);
        DraftLowering(b, t, i + 2 + sa, acc + ra + " " + op + " ");
        DraftBinaryCase(op, sa, sb, t, i, acc, ra, DraftRender(b));
      case Ternary(a, b, c) =>
        DraftTernaryCase(a, b, c, t, i, acc);
    }
  }

  /** A unary operator is accepted and nothing is written for it. */
  lemma {:induction false} DraftUnaryCase(op: char, a: Expr, t: seq<Token>, i: nat, acc: string)
    requires UnaryOp(op) && Laid(Unary(op, a), t, i)
    ensures DraftToken(Parse(t), i, AfterFirst, acc) == Done(acc + DraftRender(Unary(op, a)))
  {
    LaidHead(a, t, i + 2);
    OneOperand(Parse(t), i + 2, Size(a));
    assert acc + DraftRender(Unary(op, a)) == acc;
  }

  /** `?` is accepted and nothing is written for it. */
  lemma {:induction false} DraftTernaryCase(a: Expr, b: Expr, c: Expr, t: seq<Token>, i: nat, acc: string)
    requires Laid(Ternary(a, b, c), t, i)
    ensures DraftToken(Parse(t), i, AfterFirst, acc) == Done(acc + DraftRender(Ternary(a, b, c)))
  {
    var sa, sb, sc := LaidTriple(a, b, c, t, i);
    ThreeOperands(Parse(t), i + 2, sa, sb, sc);
    assert !UnaryOp('?') && !BinaryOp1('?');
    assert acc + DraftRender(Ternary(a, b, c)) == acc;
  }

  /** DraftToken on a SUB_EXPR over an accepted two-operand operator. */
  lemma {:induction false} DraftOperatorStep(p: Parse, i: nat, mode: SecondOperand, acc: string)
    requires i + 2 < |p.tokens|
    requires p.tokens[i].kind == SubExpr && p.tokens[i + 1].kind == Operator
    requires DraftBinary(p.tokens[i + 1].text)
    requires CountOperands(p, i + 2, 0, p.tokens[i].numComponents, 0) == Ok(2)
    ensures DraftToken(p, i, mode, acc) == DraftOperands(p, i, mode, acc)
  {
  }

  /** DraftOperands keeps whatever text its operands leave. */
  lemma {:induction false} DraftOperandsStep(p: Parse, i: nat, mode: SecondOperand, acc: string, left: string,
                          second: nat, op: string, out: string)
    requires i + 2 < |p.tokens|
    requires second == SecondIndex(mode, i + 2, p.tokens[i + 2].numComponents)
    requires op == p.tokens[i + 1].text
    requires DraftToken(p, i + 2, mode, acc).state == left
    requires DraftToken(p, second, mode, left + " " + op + " ").state == out
    ensures DraftOperands(p, i, mode, acc) == Done(out)
  {
  }

  /** The two-operand case, for operands of layout sizes sa and sb and any
      texts ra and rb of theirs. */
  lemma {:induction false} DraftBinaryCase(op: string, sa: nat, sb: nat, t: seq<Token>, i: nat, acc: string,
                        ra: string, rb: string)
    requires DraftBinary(op) && PairHead(sa, sb, t, i) && t[i + 1].text == op
    requires DraftToken(Parse(t), i + 2, AfterFirst, acc) == Done(acc + ra)
    requires DraftToken(Parse(t), i + 2 + sa, AfterFirst, acc + ra + " " + op + " ") ==
      Done(acc + ra + " " + op + " " + rb)
    ensures DraftToken(Parse(t), i, AfterFirst, acc) == Done(acc + (ra + " " + op + " " + rb))
  {
    var p := Parse(t);
    TwoOperands(p, i + 2, sa, sb);
    DraftOperatorStep(p, i, AfterFirst, acc);
    DraftOperandsStep(p, i, AfterFirst, acc, acc + ra, i + 2 + sa, op, acc + ra + " " + op + " " + rb);
    Assoc5(acc, ra, " ", op, " ", rb);
  }

  /** Operand errors are swallowed: whatever the operands of an accepted
      operator report, the operator itself succeeds. */
  lemma {:induction false} OperandErrorIgnored(op: string, a: Expr, b: Expr, t: seq<Token>, i: nat, mode: SecondOperand, acc: string)
    requires DraftBinary(op) && Laid(Binary(op, a, b), t, i)
    ensures DraftToken(Parse(t), i, mode, acc).Done?
  {
    var p := Parse(t);
    var sa, sb := LaidPair(op, a, b, t, i);
    TwoOperands(p, i + 2, sa, sb);
    DraftOperatorStep(p, i, mode, acc);
  }

  /** An operator the draft does not list fails with nothing written. */
  lemma {:induction false} DraftUnsupportedRejected(op: string, a: Expr, b: Expr, t: seq<Token>, i: nat, mode: SecondOperand, acc: string)
    requires !DraftBinary(op) && op != "?" && Laid(Binary(op, a, b), t, i)
    ensures DraftToken(Parse(t), i, mode, acc) == Failed(UnsupportedOperator, acc)
  {
    var sa, sb := LaidPair(op, a, b, t, i);
    TwoOperands(Parse(t), i + 2, sa, sb);
  }

  /** `1 + 2` as Tcl_ParseExpr lays it out. */
  function OnePlusTwo(): seq<Token>
  {
    [Tok(SubExpr, "1 + 2", 5), Tok(Operator, "+", 0),
     Tok(SubExpr, "1", 1), Tok(Text, "1", 0),
     Tok(SubExpr, "2", 1), Tok(Text, "2", 0)]
  }

  /** The layout above is that of the tree `1 + 2`. */
  lemma {:induction false} OnePlusTwoLaid()
    ensures Laid(Binary("+", Lit("1"), Lit("2")), OnePlusTwo(), 0)
  {
    assert Laid(Lit("1"), OnePlusTwo(), 2);
    assert Laid(Lit("2"), OnePlusTwo(), 4);
  }

  /** As written, the second operand of `1 + 2` is read at the TEXT token of
      the first operand, so its literal `1` is emitted where the second
      operand's text belongs, and the result is not the tree's DraftRender,
      which CompileDraftRenders gives once the operand is read after the
      first. */
  lemma {:induction false} SecondOperandMisread()
    ensures Laid(Binary("+", Lit("1"), Lit("2")), OnePlusTwo(), 0)
    ensures DraftSupported(Binary("+", Lit("1"), Lit("2")))
    ensures CompileDraft(Parse(OnePlusTwo()), AsWritten, []) == Done(" + 1")
    ensures DraftRender(Binary("+", Lit("1"), Lit("2"))) == " + "
  {
    var t := OnePlusTwo();
    var p := Parse(t);
    OnePlusTwoLaid();
    TwoOperands(p, 2, 2, 2);
    assert [] + " " + "+" + " " == " + ";
    assert " + " + "1" == " + 1";
    DraftOperatorStep(p, 0, AsWritten, []);
    DraftOperandsStep(p, 0, AsWritten, [], [], 3, "+", " + 1");
  }

  /** thtml_TclCompileExpr, corrected: a supported tree laid out from the
      first token compiles to its DraftRender. */
  lemma {:induction false} CompileDraftRenders(e: Expr, t: seq<Token>)
    requires DraftLaid(e, t, 0)
    ensures CompileDraft(Parse(t), AfterFirst, []) == Done(DraftRender(e))
  {
    DraftLowering(e, t, 0, []);
    assert [] + DraftRender(e) == DraftRender(e);
  }

  /** An operator whose first operand slot does not hold a SUB_EXPR fails
      with "not enough operands" and nothing written. */
  lemma {:induction false} DraftNotEnoughOperands(t: seq<Token>, i: nat, mode: SecondOperand, acc: string)
    requires i + 2 < |t| && t[i].kind == SubExpr && t[i + 1].kind == Operator
    requires t[i].numComponents >= 3 && t[i + 2].kind != SubExpr
    ensures DraftToken(Parse(t), i, mode, acc) == Failed(NotEnoughOperands, acc)
  {
    var p := Parse(t);
    assert CountOperands(p, i + 2, 0, t[i].numComponents, 0) == Err(NotEnoughOperands);
    assert DraftOperator(p, i, mode, acc) == Failed(NotEnoughOperands, acc);
  }
}
