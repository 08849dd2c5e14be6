/** What the C backend's expression lowering means, stated against
    expression trees laid out the way Tcl_ParseExpr lays them out (the
    trees and the layout of TclProps): the statements and the C expression
    a tree becomes, the temporaries it numbers, and their release. */
module CExprProps {
  import opened Gen
  import opened TclParse
  import opened Scope
  import opened CVariables
  import opened CExpr
  import opened TclProps
  import T = TclBackend

  // ------------------------------------------------------------ operands

  /** thtml_GetOperandType names a laid-out literal "text", a variable
      "variable", and every operator node "subexpr". */
  lemma {:induction false} OperandTypeOfLaid(e: Expr, t: seq<Token>, i: nat)
    requires Laid(e, t, i)
    ensures OperandType(Parse(t), i) ==
      match e
      case Lit(_) => Ok("text")
      case Var(_) => Ok("variable")
      case _ => Ok("subexpr")
  {
  }

  // --------------------------------------------------------------- INSTR

  /** No two entries of INSTR share a helper name, so the helper called
      identifies the operator: within the one-character entries ... */
  lemma {:induction false} Instr1Injective(a: char, b: char)
    requires Instr1(a).Some? && Instr1(a) == Instr1(b)
    ensures a == b
  {
  }

  /** ... within the two-character entries ... */
  lemma {:induction false} Instr2Injective(a1: char, a2: char, b1: char, b2: char)
    requires Instr2(a1, a2).Some? && Instr2(a1, a2) == Instr2(b1, b2)
    ensures a1 == b1 && a2 == b2
  {
  }

  /** ... and across the two. */
  lemma {:induction false} InstrTablesDisjoint(a: char, b1: char, b2: char)
    requires Instr1(a).Some?
    ensures Instr1(a) != Instr2(b1, b2)
  {
  }

  /** Every operator the backend calls a helper for has an INSTR entry. */
  lemma {:induction false} DispatchedHaveHelpers(op: string)
    requires (|op| == 1 && CBinary1(op[0])) || CBinary2(op)
    ensures Instr(op).Some? && HelperName(op) != []
  {
  }

  // ------------------------------------------------------------- trees

  /** The two-operand operators the C backend lowers: those it calls a
      helper for, and `&&` and `||`, which it writes infix. */
  predicate CBinaryOp(op: string)
  {
    (|op| == 1 && CBinary1(op[0])) || (|op| == 2 && (CBinary2(op) || Logic(op)))
  }

  /** The trees the C backend lowers: `!`, `-` and `+` as unary operators,
      the helper-called and the infix operators with two operands, `?`,
      and non-empty variable names. */
  predicate CSupported(e: Expr)
  {
    match e
    case Lit(_) => true
    case Var(n) => n != []
    case Unary(op, a) => (op == '!' || op == '-' || op == '+') && CSupported(a)
    case Binary(op, a, b) => CBinaryOp(op) && CSupported(a) && CSupported(b)
    case Ternary(a, b, c) => CSupported(a) && CSupported(b) && CSupported(c)
  }

  /** A tree the C backend lowers, laid out from i.  The comparison with
      `true` keeps the solver from splitting the conjunction wherever CLaid
      is unfolded; the binary and ternary lowering lemmas run out of
      resources without it. */
  predicate CLaid(e: Expr, t: seq<Token>, i: nat)
  {
    (CSupported(e) && Laid(e, t, i)) == true
  }

  /** What an operator node's operands are preceded by in the expression:
      a helper call, or a parenthesis for an infix operator. */
  function OperandsOpen(op: string): string
  {
    if Logic(op) then "(" else " __thtml_" + HelperName(op) + "__("
  }

  /** ... and separated by. */
  function OperandsSep(op: string): string
  {
    if Logic(op) then " " + op + " " else ", "
  }

  /** What a variable reference contributes when it is lowered: the text
      appended to the statement buffer, the text appended to the expression
      buffer, and the dict counter value it leaves. */
  datatype Piece = Piece(ds: string, expr: string, dicts: nat)

  /** A state with a piece appended. */
  function Apply(st: CState, pc: Piece): CState
  {
    CState(st.ds + pc.ds, st.expr + pc.expr, st.texts, pc.dicts)
  }

  /** What a variable reference in an expression contributes: a name whose
      first segment a block declares (Resolve; CVariables.CVarRefCases
      characterises it as the first deciding block declaring it) is the
      bare variable when it has one segment and a lookup of the other
      segments in that variable when it has several; any other name is a
      lookup of all its segments in `__data__`.  A lookup numbers its steps
      with the next dict counter value. */
  function VarPiece(n: string, blocks: seq<Block>, dicts: nat): Piece
  {
    var parts := SplitPath(n);
    if parts == [] then Piece([], [], dicts)
    else if Resolve(parts, blocks) == Declared then
      if |parts| == 1 then Piece([], parts[0], dicts) else DictPiece(parts[0], parts[1..], dicts)
    else DictPiece("__data__", parts, dicts)
  }

  /** A lookup of the segments ps in the variable x: one lookup statement
      per segment, and their results side by side in the expression. */
  function DictPiece(x: string, ps: seq<string>, dicts: nat): Piece
  {
    var cs := Decimal(dicts + 1);
    Piece(Join(DictEntries(x, ps, cs, "default", true), " "), Join(DictResults(ps, cs), ""), dicts + 1)
  }

  /** The number of variables in a tree. */
  function VarCount(e: Expr): nat
  {
    match e
    case Lit(_) => 0
    case Var(_) => 1
    case Unary(_, a) => VarCount(a)
    case Binary(_, a, b) => VarCount(a) + VarCount(b)
    case Ternary(a, b, c) => VarCount(a) + VarCount(b) + VarCount(c)
  }

  /** The number of literals in a tree. */
  function LitCount(e: Expr): nat
  {
    match e
    case Lit(_) => 1
    case Var(_) => 0
    case Unary(_, a) => LitCount(a)
    case Binary(_, a, b) => LitCount(a) + LitCount(b)
    case Ternary(a, b, c) => LitCount(a) + LitCount(b) + LitCount(c)
  }

  // ------------------------------------------------------- state edits

  /** Text appended to the expression buffer. */
  function AppendExpr(st: CState, y: string): CState
  {
    st.(expr := st.expr + y)
  }

  /** Text appended to the statement buffer. */
  function AppendDs(st: CState, x: string): CState
  {
    st.(ds := st.ds + x)
  }

  /** A literal token: its temporary declared as the next text temporary,
      and referenced in the expression. */
  function LitState(name: string, ref: TextRef, s: string, st: CState): CState
  {
    var k := st.texts + 1;
    CState(st.ds + TextDecl(name, k, s), st.expr + TextRefName(ref, name, k), k, st.dicts)
  }

  /** What `!`, `-` and `+` write before their operand: the sign in the
      statements, and for `!` a parenthesis in the expression. */
  function UnaryInner(op: char, st: CState): CState
  {
    if op == '!' then AppendExpr(AppendDs(st, [op]), "(") else AppendDs(st, [op])
  }

  /** ... and after it. */
  function UnaryOuter(op: char, r: CState): CState
  {
    if op == '!' then AppendExpr(r, ")") else r
  }

  /** What lowering a tree does to the buffers and counters, read off the
      tree: every node is parenthesised in the expression; a literal is
      declared as the next text temporary and referenced in the
      expression; a variable reference appends its VarPiece; `!` and unary
      `-`/`+` leave their sign in the statements (`!` doubly parenthesised);
      an operator with two operands calls its helper or is written infix
      around its operands; `?` leaves ` ? ` and ` : ` in the statements
      between its operands' statements, and its operands side by side in
      the expression. */
  function CTree(e: Expr, blocks: seq<Block>, name: string, ref: TextRef, st: CState): CState
    decreases e
  {
    var open := AppendExpr(st, "(");
    match e
    case Lit(s) => AppendExpr(LitState(name, ref, s, open), ")")
    case Var(n) => AppendExpr(Apply(open, VarPiece(n, blocks, open.dicts)), ")")
    case Unary(op, a) => AppendExpr(UnaryOuter(op, CTree(a, blocks, name, ref, UnaryInner(op, open))), ")")
    case Binary(op, a, b) =>
      var ra := CTree(a, blocks, name, ref, AppendExpr(open, OperandsOpen(op)));
      var rb := CTree(b, blocks, name, ref, AppendExpr(ra, OperandsSep(op)));
      AppendExpr(AppendExpr(rb, ")"), ")")
    case Ternary(a, b, c) =>
      var ra := CTree(a, blocks, name, ref, open);
      var rb := CTree(b, blocks, name, ref, AppendDs(ra, " ? "));
      var rc := CTree(c, blocks, name, ref, AppendDs(rb, " : "));
      AppendExpr(rc, ")")
  }

  /** A non-empty variable name in an expression always lowers, and lowers
      to the same text whatever the buffers held before. */
  lemma {:induction false} CVarFrame(n: string, blocks: seq<Block>, st: CState)
    requires n != []
    ensures CVarRef(SplitPath(n), blocks, "default", true, false, st) ==
      Ok(Apply(st, VarPiece(n, blocks, st.dicts)))
  {
    var parts := SplitPath(n);
    NameParts(n);
    ResolveDeclaredIff(parts, blocks);
    if Resolve(parts, blocks) == Declared && |parts| == 1 {
      assert st.ds + [] == st.ds;
    } else if Resolve(parts, blocks) == Declared {
      VarDictFrame(parts[0], parts[1..], st);
    } else {
      VarDictFrame("__data__", parts, st);
    }
  }

  lemma {:induction false} VarDictFrame(x: string, ps: seq<string>, st: CState)
    ensures CDict(x, ps, "default", true, st) == Apply(st, DictPiece(x, ps, st.dicts))
  {
    var cs := Decimal(st.dicts + 1);
    var ds := Join(DictEntries(x, ps, cs, "default", true), " ");
    var ex := Join(DictResults(ps, cs), "");
    assert DictPiece(x, ps, st.dicts) == Piece(ds, ex, st.dicts + 1);
    assert CDict(x, ps, "default", true, st) == CState(st.ds + ds, st.expr + ex, st.texts, st.dicts + 1);
  }

  // ----------------------------------------------------- the lowering

  /** Lowering the token at i from st. */
  function Lowering(t: seq<Token>, i: nat, blocks: seq<Block>, name: string, ref: TextRef, st: CState): Result<CState>
  {
    CExprToken(Parse(t), i, blocks, name, ref, st)
  }

  /** Lowering the token at i from st gives what CTree reads off e. */
  predicate LowersToTree(e: Expr, t: seq<Token>, i: nat, blocks: seq<Block>, name: string, ref: TextRef, st: CState)
  {
    Lowering(t, i, blocks, name, ref, st) == Ok(CTree(e, blocks, name, ref, st))
  }

  /** A SUB_EXPR over an operand token (not an operator): the operand,
      parenthesised. */
  lemma {:induction false} CSubExprStep(p: Parse, i: nat, blocks: seq<Block>, name: string, ref: TextRef, st: CState, out: CState)
    requires i + 1 < |p.tokens| && p.tokens[i].kind == SubExpr && p.tokens[i + 1].kind != Operator
    requires CExprToken(p, i + 1, blocks, name, ref, AppendExpr(st, "(")) == Ok(out)
    ensures CExprToken(p, i, blocks, name, ref, st) == Ok(AppendExpr(out, ")"))
  {
  }

  /** A SUB_EXPR over a TEXT token. */
  lemma {:induction false} CLiteralStep(s: string, t: seq<Token>, i: nat, blocks: seq<Block>, name: string, ref: TextRef, st: CState)
    requires Laid(Lit(s), t, i)
    ensures LowersToTree(Lit(s), t, i, blocks, name, ref, st)
  {
    var open := AppendExpr(st, "(");
    assert CExprToken(Parse(t), i + 1, blocks, name, ref, open) == Ok(LitState(name, ref, s, open));
    CSubExprStep(Parse(t), i, blocks, name, ref, st, LitState(name, ref, s, open));
  }

  /** A VARIABLE token over its name: its VarPiece. */
  lemma {:induction false} CVariableToken(p: Parse, j: nat, n: string, blocks: seq<Block>, name: string, ref: TextRef, st: CState)
    requires n != [] && j + 1 < |p.tokens| && p.tokens[j] == Tok(Variable, "$" + n, 1) && p.tokens[j + 1] == Tok(Text, n, 0)
    ensures CExprToken(p, j, blocks, name, ref, st) == Ok(Apply(st, VarPiece(n, blocks, st.dicts)))
  {
    assert CExprToken(p, j, blocks, name, ref, st) == CVariable(p, j, blocks, "default", true, false, st);
    assert CVariable(p, j, blocks, "default", true, false, st) == CVarRef(SplitPath(n), blocks, "default", true, false, st);
    CVarFrame(n, blocks, st);
  }

  /** A SUB_EXPR over a VARIABLE token and its name. */
  lemma {:induction false} CVariableStep(n: string, t: seq<Token>, i: nat, blocks: seq<Block>, name: string, ref: TextRef, st: CState)
    requires n != [] && Laid(Var(n), t, i)
    ensures LowersToTree(Var(n), t, i, blocks, name, ref, st)
  {
    var open := AppendExpr(st, "(");
    CVariableToken(Parse(t), i + 1, n, blocks, name, ref, open);
    CSubExprStep(Parse(t), i, blocks, name, ref, st, Apply(open, VarPiece(n, blocks, open.dicts)));
  }

  /** The SUB_EXPR of an operator node, around whatever its operator part
      gives. */
  lemma {:induction false} COperatorStep(p: Parse, i: nat, blocks: seq<Block>, name: string, ref: TextRef, st: CState, out: CState)
    requires i + 1 < |p.tokens|
    requires p.tokens[i].kind == SubExpr && p.tokens[i + 1].kind == Operator
    requires CExprOperator(p, i, blocks, name, ref, AppendExpr(st, "(")) == Ok(out)
    ensures CExprToken(p, i, blocks, name, ref, st) == Ok(AppendExpr(out, ")"))
  {
  }

  /** `!`, `-` or `+` over one laid-out operand, from the state its operand
      lowers to. */
  lemma {:induction false} CUnaryCase(op: char, a: Expr, t: seq<Token>, i: nat, blocks: seq<Block>, name: string, ref: TextRef,
                   st: CState, ra: CState)
    requires (op == '!' || op == '-' || op == '+') && Laid(Unary(op, a), t, i)
    requires Lowering(t, i + 2, blocks, name, ref, UnaryInner(op, AppendExpr(st, "("))) == Ok(ra)
    ensures Lowering(t, i, blocks, name, ref, st) == Ok(AppendExpr(UnaryOuter(op, ra), ")"))
  {
    var p := Parse(t);
    assert Laid(a, t, i + 2);
    LaidHead(a, t, i + 2);
    OneOperand(p, i + 2, Size(a));
    assert t[i + 1].text == [op];
    var open := AppendExpr(st, "(");
    assert CExprOperator(p, i, blocks, name, ref, open) == Ok(UnaryOuter(op, ra));
    COperatorStep(p, i, blocks, name, ref, st, UnaryOuter(op, ra));
  }

  lemma {:induction false} CLaidUnary(op: char, a: Expr, t: seq<Token>, i: nat)
    requires CLaid(Unary(op, a), t, i)
    ensures (op == '!' || op == '-' || op == '+') && Laid(Unary(op, a), t, i) && CLaid(a, t, i + 2)
  {
  }

  /** The two operands of a node, from the states their lowering gives. */
  lemma {:induction false} COperandsStep(p: Parse, i: nat, blocks: seq<Block>, name: string, ref: TextRef, open: string, sep: string,
                      st: CState, second: nat, sa: CState, sb: CState)
    requires i + 2 < |p.tokens| && second == i + 2 + p.tokens[i + 2].numComponents + 1
    requires CExprToken(p, i + 2, blocks, name, ref, AppendExpr(st, open)) == Ok(sa)
    requires CExprToken(p, second, blocks, name, ref, AppendExpr(sa, sep)) == Ok(sb)
    ensures CExprOperands(p, i, blocks, name, ref, open, sep, st) == Ok(AppendExpr(sb, ")"))
  {
  }

  /** A two-operand node whose operator the backend lowers calls its helper
      or writes its operator infix between the operands. */
  lemma {:induction false} BinaryDispatch(p: Parse, i: nat, op: string, blocks: seq<Block>, name: string, ref: TextRef, st: CState)
    requires i + 1 < |p.tokens| && p.tokens[i + 1].text == op
    requires T.CountOperands(p, i + 2, 0, p.tokens[i].numComponents, 0) == Ok(2)
    requires CBinaryOp(op)
    ensures CExprOperator(p, i, blocks, name, ref, st) ==
      CExprOperands(p, i, blocks, name, ref, OperandsOpen(op), OperandsSep(op), st)
  {
    if |op| == 1 {
      assert !Logic(op);
    }
  }

  /** The head of a laid-out two-operand node with operand layouts of
      sizes sa and sb, for an operator the backend lowers. */
  predicate BinaryHead(op: string, sa: nat, sb: nat, t: seq<Token>, i: nat)
  {
    CBinaryOp(op) && PairHead(sa, sb, t, i) && t[i + 1].text == op
  }

  /** The operands of a laid-out node the backend lowers are lowered too. */
  lemma {:induction false} CLaidBinary(op: string, a: Expr, b: Expr, t: seq<Token>, i: nat) returns (sa: nat, sb: nat)
    requires CLaid(Binary(op, a, b), t, i)
    ensures sa == Size(a) && sb == Size(b) && BinaryHead(op, sa, sb, t, i)
    ensures CLaid(a, t, i + 2) && CLaid(b, t, i + 2 + sa)
  {
    sa, sb := LaidPair(op, a, b, t, i);
  }

  /** The operands of a laid-out `?` node the backend lowers are lowered
      too. */
  lemma {:induction false} CLaidTernary(a: Expr, b: Expr, c: Expr, t: seq<Token>, i: nat) returns (sa: nat, sb: nat, sc: nat)
    requires CLaid(Ternary(a, b, c), t, i)
    ensures sa == Size(a) && sb == Size(b) && sc == Size(c) && TripleHead(sa, sb, sc, t, i)
    ensures CLaid(a, t, i + 2) && CLaid(b, t, i + 2 + sa) && CLaid(c, t, i + 2 + sa + sb)
  {
    sa, sb, sc := LaidTriple(a, b, c, t, i);
  }

  /** A helper-called or infix operator over two laid-out operands, from
      the states its operands lower to. */
  lemma {:induction false} CBinaryCase(op: string, sa: nat, sb: nat, t: seq<Token>, i: nat, blocks: seq<Block>, name: string,
                    ref: TextRef, st: CState, ra: CState, rb: CState)
    requires BinaryHead(op, sa, sb, t, i)
    requires Lowering(t, i + 2, blocks, name, ref, AppendExpr(AppendExpr(st, "("), OperandsOpen(op))) == Ok(ra)
    requires Lowering(t, i + 2 + sa, blocks, name, ref, AppendExpr(ra, OperandsSep(op))) == Ok(rb)
    ensures Lowering(t, i, blocks, name, ref, st) == Ok(AppendExpr(AppendExpr(rb, ")"), ")"))
  {
    var p := Parse(t);
    var open := AppendExpr(st, "(");
    TwoOperands(p, i + 2, sa, sb);
    COperandsStep(p, i, blocks, name, ref, OperandsOpen(op), OperandsSep(op), open, i + 2 + sa, ra, rb);
    BinaryDispatch(p, i, op, blocks, name, ref, open);
    COperatorStep(p, i, blocks, name, ref, st, AppendExpr(rb, ")"));
  }

  /** `?` over three laid-out operands, from the states they lower to. */
  lemma {:induction false} CTernaryCase(sa: nat, sb: nat, sc: nat, t: seq<Token>, i: nat, blocks: seq<Block>, name: string,
                     ref: TextRef, st: CState, ra: CState, rb: CState, rc: CState)
    requires TripleHead(sa, sb, sc, t, i)
    requires Lowering(t, i + 2, blocks, name, ref, AppendExpr(st, "(")) == Ok(ra)
    requires Lowering(t, i + 2 + sa, blocks, name, ref, AppendDs(ra, " ? ")) == Ok(rb)
    requires Lowering(t, i + 2 + sa + sb, blocks, name, ref, AppendDs(rb, " : ")) == Ok(rc)
    ensures Lowering(t, i, blocks, name, ref, st) == Ok(AppendExpr(rc, ")"))
  {
    var p := Parse(t);
    var open := AppendExpr(st, "(");
    ThreeOperands(p, i + 2, sa, sb, sc);
    assert ra.ds + " " + "?" + " " == ra.ds + " ? ";
    assert !CBinary1('?');
    assert CExprOperator(p, i, blocks, name, ref, open) == Ok(rc);
    COperatorStep(p, i, blocks, name, ref, st, rc);
  }

  /** Lowering a supported tree laid out from i, wherever that is in the
      token array, succeeds and does what CTree reads off the tree. */
  lemma {:induction false} CExprLowering(e: Expr, t: seq<Token>, i: nat, blocks: seq<Block>, name: string,
                                         ref: TextRef, st: CState)
    requires CLaid(e, t, i)
    ensures LowersToTree(e, t, i, blocks, name, ref, st)
    decreases e, 2
  {
    match e {
      case Lit(s) => CLiteralStep(s, t, i, blocks, name, ref, st);
      case Var(n) => CVariableStep(n, t, i, blocks, name, ref, st);
      case Unary(op, a) => CUnaryLowering(op, a, t, i, blocks, name, ref, st);
      case Binary(op, a, b) => CBinaryLowering(op, a, b, t, i, blocks, name, ref, st);
      case Ternary(a, b, c) => CTernaryLowering(a, b, c, t, i, blocks, name, ref, st);
    }
  }

  /** The unary case of CExprLowering. */
  lemma {:induction false} CUnaryLowering(op: char, a: Expr, t: seq<Token>, i: nat, blocks: seq<Block>,
                                          name: string, ref: TextRef, st: CState)
    requires CLaid(Unary(op, a), t, i)
    ensures LowersToTree(Unary(op, a), t, i, blocks, name, ref, st)
    decreases Unary(op, a), 1
  {
    var inner := UnaryInner(op, AppendExpr(st, "("));
    CLaidUnary(op, a, t, i);
    CExprLowering(a, t, i + 2, blocks, name, ref, inner);
    CUnaryCase(op, a, t, i, blocks, name, ref, st, CTree(a, blocks, name, ref, inner));
  }

  /** The two-operand case of CExprLowering. */
  lemma {:induction false} CBinaryLowering(op: string, a: Expr, b: Expr, t: seq<Token>, i: nat, blocks: seq<Block>,
                                           name: string, ref: TextRef, st: CState)
    requires CLaid(Binary(op, a, b), t, i)
    ensures LowersToTree(Binary(op, a, b), t, i, blocks, name, ref, st)
    decreases Binary(op, a, b), 1
  {
    var sa, sb := CLaidBinary(op, a, b, t, i);
    var s0 := AppendExpr(AppendExpr(st, "("), OperandsOpen(op));
    CExprLowering(a, t, i + 2, blocks, name, ref, s0);
    var ra := CTree(a, blocks, name, ref, s0);
    var s1 := AppendExpr(ra, OperandsSep(op));
    CExprLowering(b, t, i + 2 + sa, blocks, name, ref, s1);
    CBinaryCase(op, sa, sb, t, i, blocks, name, ref, st, ra, CTree(b, blocks, name, ref, s1));
  }

  /** The `?` case of CExprLowering. */
  lemma {:induction false} CTernaryLowering(a: Expr, b: Expr, c: Expr, t: seq<Token>, i: nat, blocks: seq<Block>,
                                            name: string, ref: TextRef, st: CState)
    requires CLaid(Ternary(a, b, c), t, i)
    ensures LowersToTree(Ternary(a, b, c), t, i, blocks, name, ref, st)
    decreases Ternary(a, b, c), 1
  {
    var sa, sb, sc := CLaidTernary(a, b, c, t, i);
    var s0 := AppendExpr(st, "(");
    CExprLowering(a, t, i + 2, blocks, name, ref, s0);
    var ra := CTree(a, blocks, name, ref, s0);
    var s1 := AppendDs(ra, " ? ");
    CExprLowering(b, t, i + 2 + sa, blocks, name, ref, s1);
    var rb := CTree(b, blocks, name, ref, s1);
    var s2 := AppendDs(rb, " : ");
    CExprLowering(c, t, i + 2 + sa + sb, blocks, name, ref, s2);
    CTernaryTree(a, b, c, sa, sb, sc, t, i, blocks, name, ref, st);
  }

  /** The `?` node lowers as CTree says once its three operands do. */
  lemma {:induction false} CTernaryTree(a: Expr, b: Expr, c: Expr, sa: nat, sb: nat, sc: nat, t: seq<Token>, i: nat,
                                        blocks: seq<Block>, name: string, ref: TextRef, st: CState)
    requires TripleHead(sa, sb, sc, t, i)
    requires LowersToTree(a, t, i + 2, blocks, name, ref, AppendExpr(st, "("))
    requires LowersToTree(b, t, i + 2 + sa, blocks, name, ref, AppendDs(CTree(a, blocks, name, ref, AppendExpr(st, "(")), " ? "))
    requires LowersToTree(c, t, i + 2 + sa + sb, blocks, name, ref,
                          AppendDs(CTree(b, blocks, name, ref, AppendDs(CTree(a, blocks, name, ref, AppendExpr(st, "(")), " ? ")), " : "))
    ensures LowersToTree(Ternary(a, b, c), t, i, blocks, name, ref, st)
  {
    var ra := CTree(a, blocks, name, ref, AppendExpr(st, "("));
    var rb := CTree(b, blocks, name, ref, AppendDs(ra, " ? "));
    CTernaryCase(sa, sb, sc, t, i, blocks, name, ref, st, ra, rb, CTree(c, blocks, name, ref, AppendDs(rb, " : ")));
    CTreeTernary(a, b, c, blocks, name, ref, st);
  }

  /** CTree of a `?` node, from its operands' CTree. */
  lemma {:induction false} CTreeTernary(a: Expr, b: Expr, c: Expr, blocks: seq<Block>, name: string, ref: TextRef, st: CState)
    ensures var ra := CTree(a, blocks, name, ref, AppendExpr(st, "("));
      var rb := CTree(b, blocks, name, ref, AppendDs(ra, " ? "));
      CTree(Ternary(a, b, c), blocks, name, ref, st) == AppendExpr(CTree(c, blocks, name, ref, AppendDs(rb, " : ")), ")")
  {
  }

  // ------------------------------------------------------ the frame

  /** Empty buffers, with the counters at texts and dicts. */
  function Fresh(texts: nat, dicts: nat): CState
  {
    CState([], [], texts, dicts)
  }

  /** The state st with the buffers of z appended to its own, and z's
      counters. */
  function Then(st: CState, z: CState): CState
  {
    CState(st.ds + z.ds, st.expr + z.expr, z.texts, z.dicts)
  }

  /** What a tree appends does not depend on what the buffers held: it is
      what the tree gives from empty buffers and the same counters. */
  lemma {:induction false} CTreeFrame(e: Expr, blocks: seq<Block>, name: string, ref: TextRef, st: CState)
    ensures CTree(e, blocks, name, ref, st) == Then(st, CTree(e, blocks, name, ref, Fresh(st.texts, st.dicts)))
    decreases e, 1
  {
    var f := Fresh(st.texts, st.dicts);
    ThenFresh(st);
    ThenExpr(st, st, f, "(");
    var open := AppendExpr(st, "(");
    var open' := AppendExpr(f, "(");
    match e {
      case Lit(s) =>
        LitThen(name, ref, s, st, open, open');
        ThenExpr(st, LitState(name, ref, s, open), LitState(name, ref, s, open'), ")");
      case Var(n) =>
        ApplyThen(st, open, open', VarPiece(n, blocks, open.dicts));
        ThenExpr(st, Apply(open, VarPiece(n, blocks, open.dicts)), Apply(open', VarPiece(n, blocks, open.dicts)), ")");
      case Unary(op, a) => CTreeFrameUnary(op, a, blocks, name, ref, st, open, open');
      case Binary(op, a, b) => CTreeFrameBinary(op, a, b, blocks, name, ref, st, open, open');
      case Ternary(a, b, c) => CTreeFrameTernary(a, b, c, blocks, name, ref, st, open, open');
    }
  }

  lemma {:induction false} CTreeFrameUnary(op: char, a: Expr, blocks: seq<Block>, name: string, ref: TextRef,
                                           st: CState, open: CState, open': CState)
    requires open == Then(st, open')
    ensures AppendExpr(UnaryOuter(op, CTree(a, blocks, name, ref, UnaryInner(op, open))), ")") ==
      Then(st, AppendExpr(UnaryOuter(op, CTree(a, blocks, name, ref, UnaryInner(op, open'))), ")"))
    decreases Unary(op, a), 0
  {
    ThenDs(st, open, open', [op]);
    if op == '!' {
      ThenExpr(st, AppendDs(open, [op]), AppendDs(open', [op]), "(");
    }
    ThenOperand(a, blocks, name, ref, st, UnaryInner(op, open), UnaryInner(op, open'));
    var r := CTree(a, blocks, name, ref, UnaryInner(op, open));
    var r' := CTree(a, blocks, name, ref, UnaryInner(op, open'));
    if op == '!' {
      ThenExpr(st, r, r', ")");
    }
    ThenExpr(st, UnaryOuter(op, r), UnaryOuter(op, r'), ")");
  }

  lemma {:induction false} CTreeFrameBinary(op: string, a: Expr, b: Expr, blocks: seq<Block>, name: string,
                                            ref: TextRef, st: CState, open: CState, open': CState)
    requires open == Then(st, open')
    ensures var ra := CTree(a, blocks, name, ref, AppendExpr(open, OperandsOpen(op)));
      var ra' := CTree(a, blocks, name, ref, AppendExpr(open', OperandsOpen(op)));
      AppendExpr(AppendExpr(CTree(b, blocks, name, ref, AppendExpr(ra, OperandsSep(op))), ")"), ")") ==
      Then(st, AppendExpr(AppendExpr(CTree(b, blocks, name, ref, AppendExpr(ra', OperandsSep(op))), ")"), ")"))
    decreases Binary(op, a, b), 0
  {
    ThenExpr(st, open, open', OperandsOpen(op));
    var s0 := AppendExpr(open, OperandsOpen(op));
    var f0 := AppendExpr(open', OperandsOpen(op));
    ThenOperand(a, blocks, name, ref, st, s0, f0);
    var ra := CTree(a, blocks, name, ref, s0);
    var ra' := CTree(a, blocks, name, ref, f0);
    ThenExpr(st, ra, ra', OperandsSep(op));
    var s1 := AppendExpr(ra, OperandsSep(op));
    var f1 := AppendExpr(ra', OperandsSep(op));
    ThenOperand(b, blocks, name, ref, st, s1, f1);
    var rb := CTree(b, blocks, name, ref, s1);
    var rb' := CTree(b, blocks, name, ref, f1);
    ThenExpr(st, rb, rb', ")");
    ThenExpr(st, AppendExpr(rb, ")"), AppendExpr(rb', ")"), ")");
  }

  lemma {:induction false} CTreeFrameTernary(a: Expr, b: Expr, c: Expr, blocks: seq<Block>, name: string,
                                             ref: TextRef, st: CState, open: CState, open': CState)
    requires open == Then(st, open')
    ensures var rb := CTree(b, blocks, name, ref, AppendDs(CTree(a, blocks, name, ref, open), " ? "));
      var rb' := CTree(b, blocks, name, ref, AppendDs(CTree(a, blocks, name, ref, open'), " ? "));
      AppendExpr(CTree(c, blocks, name, ref, AppendDs(rb, " : ")), ")") ==
      Then(st, AppendExpr(CTree(c, blocks, name, ref, AppendDs(rb', " : ")), ")"))
    decreases Ternary(a, b, c), 0
  {
    ThenOperand(a, blocks, name, ref, st, open, open');
    var ra := CTree(a, blocks, name, ref, open);
    var ra' := CTree(a, blocks, name, ref, open');
    ThenDs(st, ra, ra', " ? ");
    ThenOperand(b, blocks, name, ref, st, AppendDs(ra, " ? "), AppendDs(ra', " ? "));
    var rb := CTree(b, blocks, name, ref, AppendDs(ra, " ? "));
    var rb' := CTree(b, blocks, name, ref, AppendDs(ra', " ? "));
    ThenDs(st, rb, rb', " : ");
    ThenOperand(c, blocks, name, ref, st, AppendDs(rb, " : "), AppendDs(rb', " : "));
    var rc := CTree(c, blocks, name, ref, AppendDs(rb, " : "));
    var rc' := CTree(c, blocks, name, ref, AppendDs(rb', " : "));
    ThenExpr(st, rc, rc', ")");
  }

  /** An operand lowered from a state that is st followed by f is st
      followed by the operand lowered from f. */
  lemma {:induction false} ThenOperand(x: Expr, blocks: seq<Block>, name: string, ref: TextRef,
                                       st: CState, s: CState, f: CState)
    requires s == Then(st, f)
    ensures CTree(x, blocks, name, ref, s) == Then(st, CTree(x, blocks, name, ref, f))
    decreases x, 2
  {
    CTreeFrame(x, blocks, name, ref, s);
    CTreeFrame(x, blocks, name, ref, f);
    ThenAssoc(st, f, CTree(x, blocks, name, ref, Fresh(f.texts, f.dicts)));
  }

  lemma {:induction false} ThenFresh(st: CState)
    ensures st == Then(st, Fresh(st.texts, st.dicts))
  {
    assert st.ds + [] == st.ds && st.expr + [] == st.expr;
  }

  lemma {:induction false} ThenAssoc(st: CState, f: CState, z: CState)
    ensures Then(Then(st, f), z) == Then(st, Then(f, z))
  {
    assert st.ds + f.ds + z.ds == st.ds + (f.ds + z.ds);
    assert st.expr + f.expr + z.expr == st.expr + (f.expr + z.expr);
  }

  lemma {:induction false} ThenExpr(st: CState, s: CState, f: CState, y: string)
    requires s == Then(st, f)
    ensures AppendExpr(s, y) == Then(st, AppendExpr(f, y))
  {
    assert st.expr + f.expr + y == st.expr + (f.expr + y);
  }

  lemma {:induction false} ThenDs(st: CState, s: CState, f: CState, x: string)
    requires s == Then(st, f)
    ensures AppendDs(s, x) == Then(st, AppendDs(f, x))
  {
    assert st.ds + f.ds + x == st.ds + (f.ds + x);
  }

  lemma {:induction false} LitThen(name: string, ref: TextRef, lit: string, st: CState, s: CState, f: CState)
    requires s == Then(st, f)
    ensures LitState(name, ref, lit, s) == Then(st, LitState(name, ref, lit, f))
  {
    var k := f.texts + 1;
    ConcatAssoc(st.ds, f.ds, TextDecl(name, k, lit));
    ConcatAssoc(st.expr, f.expr, TextRefName(ref, name, k));
  }

  lemma {:induction false} ApplyThen(st: CState, s: CState, f: CState, v: Piece)
    requires s == Then(st, f)
    ensures Apply(s, v) == Then(st, Apply(f, v))
  {
    assert st.ds + f.ds + v.ds == st.ds + (f.ds + v.ds);
    assert st.expr + f.expr + v.expr == st.expr + (f.expr + v.expr);
  }

  /** Lowering a tree advances the text counter by its number of literals,
      and the dict counter by at most its number of variables. */
  lemma {:induction false} CTreeCounts(e: Expr, blocks: seq<Block>, name: string, ref: TextRef, st: CState)
    ensures var r := CTree(e, blocks, name, ref, st);
      r.texts == st.texts + LitCount(e) && st.dicts <= r.dicts <= st.dicts + VarCount(e)
    decreases e
  {
    var open := AppendExpr(st, "(");
    match e {
      case Lit(_) =>
      case Var(_) =>
      case Unary(op, a) =>
        CTreeCounts(a, blocks, name, ref, UnaryInner(op, open));
      case Binary(op, a, b) =>
        var s0 := AppendExpr(open, OperandsOpen(op));
        CTreeCounts(a, blocks, name, ref, s0);
        CTreeCounts(b, blocks, name, ref, AppendExpr(CTree(a, blocks, name, ref, s0), OperandsSep(op)));
      case Ternary(a, b, c) =>
        CTreeCounts(a, blocks, name, ref, open);
        var s1 := AppendDs(CTree(a, blocks, name, ref, open), " ? ");
        CTreeCounts(b, blocks, name, ref, s1);
        CTreeCounts(c, blocks, name, ref, AppendDs(CTree(b, blocks, name, ref, s1), " : "));
    }
  }

  /** thtml_CCompileExpr on a whole laid-out tree: the tree's statements,
      then `int __<name>__ = <expression>;`, then one release per literal,
      numbered on from the text counter; the counter advances by the number
      of literals and the caller's expression buffer is kept. */
  lemma {:induction false} CCompileExprRenders(e: Expr, t: seq<Token>, blocks: seq<Block>, name: string, ref: TextRef, st: CState)
    requires CLaid(e, t, 0)
    ensures var z := CTree(e, blocks, name, ref, Fresh(st.texts, st.dicts));
      CCompileExpr(Parse(t), blocks, name, ref, st) ==
        Ok(CState(st.ds + z.ds + ExprHeader(name) + z.expr + ";" + Releases(name, st.texts, st.texts + LitCount(e)),
                  st.expr, st.texts + LitCount(e), z.dicts))
  {
    LoweredFromHeader(e, t, blocks, name, ref, st);
    CompileAssembled(Parse(t), blocks, name, ref, st, CTree(e, blocks, name, ref, Fresh(st.texts, st.dicts)));
  }

  /** The expression buffer's header is kept in front of what the tree
      appends, and the text counter advances by the tree's literals. */
  lemma {:induction false} LoweredFromHeader(e: Expr, t: seq<Token>, blocks: seq<Block>, name: string, ref: TextRef,
                                             st: CState)
    requires CLaid(e, t, 0)
    ensures var z := CTree(e, blocks, name, ref, Fresh(st.texts, st.dicts));
      CExprToken(Parse(t), 0, blocks, name, ref, st.(expr := ExprHeader(name))) ==
        Ok(Then(st.(expr := ExprHeader(name)), z)) &&
      z.texts == st.texts + LitCount(e)
  {
    var s0 := st.(expr := ExprHeader(name));
    CExprLowering(e, t, 0, blocks, name, ref, s0);
    CTreeFrame(e, blocks, name, ref, s0);
    CTreeCounts(e, blocks, name, ref, s0);
  }

  /** thtml_CCompileExpr once its token is known to lower to the tree's
      statements and expression z: the statements, the header, the
      expression and `;`, then the releases. */
  lemma {:induction false} CompileAssembled(p: Parse, blocks: seq<Block>, name: string, ref: TextRef, st: CState,
                                            z: CState)
    requires CExprToken(p, 0, blocks, name, ref, st.(expr := ExprHeader(name))) ==
      Ok(Then(st.(expr := ExprHeader(name)), z))
    ensures CCompileExpr(p, blocks, name, ref, st) ==
      Ok(CState(st.ds + z.ds + ExprHeader(name) + z.expr + ";" + Releases(name, st.texts, z.texts),
                st.expr, z.texts, z.dicts))
  {
    ConcatAssoc(st.ds + z.ds, ExprHeader(name), z.expr);
  }

  lemma {:induction false} EmptyAppend(a: string)
    ensures [] + a == a
  {
  }

  // ------------------------------------------------------ the releases

  /** The releases of consecutive ranges concatenate. */
  lemma {:induction false} ReleasesSplit(name: string, before: nat, mid: nat, after: nat)
    requires before <= mid <= after
    ensures Releases(name, before, after) == Releases(name, before, mid) + Releases(name, mid, after)
    decreases after
  {
    if after > mid {
      ReleasesSplit(name, before, mid, after - 1);
      ConcatAssoc(Releases(name, before, mid), Releases(name, mid, after - 1), TextRelease(name, after));
    }
  }

  /** One release statement per temporary: the k-th one of a range releases
      the temporary numbered before+k+1. */
  lemma {:induction false} ReleasesEach(name: string, before: nat, n: nat)
    ensures Releases(name, before, before + n) ==
      if n == 0 then [] else Releases(name, before, before + n - 1) + TextRelease(name, before + n)
  {
  }

  // ---------------------------------------------- the literal temporaries

  /** As written, the expression refers to a literal by a name that ends in
      a digit and one underscore, which no declared temporary of any
      expression name or number does: every literal in a C expression
      refers to an undeclared identifier. */
  lemma {:induction false} AsWrittenTextRefUndeclared(name: string, k: nat, name2: string, j: nat)
    ensures TextRefName(OneUnderscore, name, k) != TextTemp(name2, j)
  {
    var r := TextRefName(OneUnderscore, name, k);
    var d := TextTemp(name2, j);
    var dk := Decimal(k);
    assert r == ("__" + name + "_text" + dk[..|dk| - 1]) + [dk[|dk| - 1]] + "_";
    assert d[|d| - 2] == '_';
    if |r| == |d| {
      assert r[|r| - 2] == dk[|dk| - 1];
      assert '0' <= r[|r| - 2] <= '9';
    }
  }

  /** Corrected, the expression refers to a literal by the name it was
      declared with. */
  lemma {:induction false} CorrectedTextRefDeclared(name: string, k: nat)
    ensures TextRefName(TwoUnderscores, name, k) == TextTemp(name, k)
  {
  }

  /** The tokens of `expr {<s>}`: a SUB_EXPR over one TEXT. */
  function LiteralTokens(s: string): seq<Token>
  {
    [Tok(SubExpr, s, 1), Tok(Text, s, 0)]
  }

  /** A literal expression: its temporary's declaration, the expression
      referring to it, and its release. */
  lemma {:induction false} LiteralExpr(s: string, blocks: seq<Block>, name: string, ref: TextRef, st: CState)
    ensures var k := st.texts + 1;
      CCompileExpr(Parse(LiteralTokens(s)), blocks, name, ref, st) ==
        Ok(CState(st.ds + TextDecl(name, k, s) + (ExprHeader(name) + "(" + TextRefName(ref, name, k) + ")") + ";" +
                  TextRelease(name, k), st.expr, k, st.dicts))
  {
    var k := st.texts + 1;
    CLiteralStep(s, LiteralTokens(s), 0, blocks, name, ref, st.(expr := ExprHeader(name)));
    assert Releases(name, st.texts, st.texts) == [];
    EmptyAppend(TextRelease(name, k));
  }

  /** A literal expression, as written: the temporary is declared, retained
      and released under one name, while the expression between them uses
      another, undeclared one. */
  lemma {:induction false} LiteralExprAsWritten(s: string, blocks: seq<Block>, name: string, st: CState)
    ensures var k := st.texts + 1;
      CCompileExpr(Parse(LiteralTokens(s)), blocks, name, OneUnderscore, st) ==
        Ok(CState(st.ds + TextDecl(name, k, s) + (ExprHeader(name) + "(" + TextRefName(OneUnderscore, name, k) + ")") +
                  ";" + TextRelease(name, k), st.expr, k, st.dicts))
    ensures forall name2: string, j: nat :: TextRefName(OneUnderscore, name, st.texts + 1) != TextTemp(name2, j)
  {
    LiteralExpr(s, blocks, name, OneUnderscore, st);
    forall name2: string, j: nat ensures TextRefName(OneUnderscore, name, st.texts + 1) != TextTemp(name2, j) {
      AsWrittenTextRefUndeclared(name, st.texts + 1, name2, j);
    }
  }

  /** A literal expression, corrected: one temporary is declared, used in
      the expression, and released. */
  lemma {:induction false} LiteralExprCorrected(s: string, blocks: seq<Block>, name: string, st: CState)
    ensures var k := st.texts + 1;
      CCompileExpr(Parse(LiteralTokens(s)), blocks, name, TwoUnderscores, st) ==
        Ok(CState(st.ds + TextDecl(name, k, s) + (ExprHeader(name) + "(" + TextTemp(name, k) + ")") + ";" +
                  TextRelease(name, k), st.expr, k, st.dicts))
  {
    LiteralExpr(s, blocks, name, TwoUnderscores, st);
    CorrectedTextRefDeclared(name, st.texts + 1);
  }

  /** Distinct literals of one expression get distinct temporaries. */
  lemma {:induction false} TextTempsDistinct(name: string, j: nat, k: nat)
    requires j != k
    ensures TextTemp(name, j) != TextTemp(name, k)
  {
    if TextTemp(name, j) == TextTemp(name, k) {
      var n := |"__" + name + "_text"|;
      assert |Decimal(j)| == |Decimal(k)|;
      assert Decimal(j) == TextTemp(name, j)[n..n + |Decimal(j)|];
      assert Decimal(k) == TextTemp(name, k)[n..n + |Decimal(k)|];
      DecimalInjective(j, k);
    }
  }

  // ------------------------------------------------------------ quirks

  /** A one-operand operator other than `!`, `-` and `+` (`~` say) is
      accepted and lowers to an empty pair of parentheses: its operand is
      dropped. */
  lemma {:induction false} OtherUnaryDropsOperand(op: char, a: Expr, t: seq<Token>, i: nat, blocks: seq<Block>, name: string,
                               ref: TextRef, st: CState)
    requires op != '!' && op != '-' && op != '+' && Laid(Unary(op, a), t, i)
    ensures CExprToken(Parse(t), i, blocks, name, ref, st) == Ok(st.(expr := st.expr + "()"))
  {
    var p := Parse(t);
    LaidHead(a, t, i + 2);
    OneOperand(p, i + 2, Size(a));
    assert t[i + 1].text == [op];
    var open := st.(expr := st.expr + "(");
    assert CExprOperator(p, i, blocks, name, ref, open) == Ok(open);
    COperatorStep(p, i, blocks, name, ref, st, open);
    assert st.expr + "(" + ")" == st.expr + "()";
  }

  /** `<=` and `>=` have INSTR entries but are not dispatched: an expression
      using them is refused. */
  lemma {:induction false} LeGeRejected(op: string, a: Expr, b: Expr, t: seq<Token>, i: nat, blocks: seq<Block>, name: string,
                     ref: TextRef, st: CState)
    requires (op == "<=" || op == ">=") && Laid(Binary(op, a, b), t, i)
    ensures Instr(op).Some?
    ensures CExprToken(Parse(t), i, blocks, name, ref, st) == Err(UnsupportedOperator)
  {
    var sa, sb := LaidPair(op, a, b, t, i);
    TwoOperands(Parse(t), i + 2, sa, sb);
    LeGeDispatch(Parse(t), i, op, blocks, name, ref, st);
  }

  lemma {:induction false} LeGeDispatch(p: Parse, i: nat, op: string, blocks: seq<Block>, name: string, ref: TextRef, st: CState)
    requires i + 1 < |p.tokens| && p.tokens[i].kind == SubExpr && p.tokens[i + 1].kind == Operator
    requires p.tokens[i + 1].text == op && (op == "<=" || op == ">=")
    requires T.CountOperands(p, i + 2, 0, p.tokens[i].numComponents, 0) == Ok(2)
    ensures Instr(op).Some?
    ensures CExprToken(p, i, blocks, name, ref, st) == Err(UnsupportedOperator)
  {
    assert CExprOperator(p, i, blocks, name, ref, AppendExpr(st, "(")) == Err(UnsupportedOperator);
  }

  /** Any two-operand operator that is neither dispatched to a helper, nor
      written infix, nor `?`, is refused with "unsupported operator". */
  lemma {:induction false} CUnsupportedRejected(op: string, a: Expr, b: Expr, t: seq<Token>, i: nat, blocks: seq<Block>,
                             name: string, ref: TextRef, st: CState)
    requires !CBinaryOp(op) && op != "?" && Laid(Binary(op, a, b), t, i)
    ensures CExprToken(Parse(t), i, blocks, name, ref, st) == Err(UnsupportedOperator)
  {
    var p := Parse(t);
    var sa, sb := LaidPair(op, a, b, t, i);
    TwoOperands(p, i + 2, sa, sb);
    assert CExprOperator(p, i, blocks, name, ref, AppendExpr(st, "(")) == Err(UnsupportedOperator);
  }

  /** An operator whose first operand slot does not hold a SUB_EXPR is
      refused with "not enough operands" before anything is written. */
  lemma {:induction false} CNotEnoughOperands(t: seq<Token>, i: nat, blocks: seq<Block>, name: string, ref: TextRef, st: CState)
    requires i + 2 < |t| && t[i].kind == SubExpr && t[i + 1].kind == Operator
    requires t[i].numComponents >= 3 && t[i + 2].kind != SubExpr
    ensures CExprToken(Parse(t), i, blocks, name, ref, st) == Err(NotEnoughOperands)
  {
    var p := Parse(t);
    assert T.CountOperands(p, i + 2, 0, t[i].numComponents, 0) == Err(NotEnoughOperands);
    assert CExprOperator(p, i, blocks, name, ref, AppendExpr(st, "(")) == Err(NotEnoughOperands);
  }
}
