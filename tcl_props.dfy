/** What the Tcl backend's lowering means, stated against independent
    descriptions of its inputs: variable names as strings, expressions as
    trees laid out the way Tcl_ParseExpr lays them out, commands as lists of
    words, and quoted text as lists of pieces. */
module TclProps {
  import opened Gen
  import opened TclParse
  import opened Scope
  import opened TclBackend

  // ------------------------------------------------------------- variables

  /** The first segment of a variable name: everything before its first dot. */
  function FirstSegment(name: string): string
  {
    name[..IndexOf(name, '.')]
  }

  /** The dict keys a name becomes: its dots turned into spaces, a trailing
      dot dropped. */
  function Keys(name: string): string
  {
    DotsTo(DropTrailingDot(name), ' ')
  }

  /** A non-empty name always lowers.  It is declared exactly when the first
      block that has `varnames` and either lists its first segment or carries
      `stop` lists it; then it becomes `$head` when it has one segment and a
      dict lookup in `head` otherwise.  An undeclared name becomes a dict
      lookup in `__data__`.  The keys are the name with its dots turned into
      spaces. */
  lemma {:induction false} VarRefOfName(name: string, blocks: seq<Block>)
    requires name != []
    ensures SplitPath(name) != [] && SplitPath(name)[0] == FirstSegment(name)
    ensures Resolve(SplitPath(name), blocks) == Declared <==>
      exists m :: 0 <= m < |blocks| && Declares(blocks[m], FirstSegment(name)) &&
        forall k :: 0 <= k < m ==> !Decides(blocks[k], FirstSegment(name))
    ensures Resolve(SplitPath(name), blocks) != Declared ==>
      VarRef(SplitPath(name), blocks) == Ok("[dict get $__data__ {" + Keys(name) + "}]")
    ensures Resolve(SplitPath(name), blocks) == Declared && IndexOf(name, '.') + 1 >= |name| ==>
      VarRef(SplitPath(name), blocks) == Ok("$" + FirstSegment(name))
    ensures Resolve(SplitPath(name), blocks) == Declared && IndexOf(name, '.') + 1 < |name| ==>
      VarRef(SplitPath(name), blocks) == Ok("[dict get $" + FirstSegment(name) + " {" + Keys(name) + "}]")
  {
    NameParts(name);
    var parts := SplitPath(name);
    ResolveDeclaredIff(parts, blocks);
    DataGetText(parts, Keys(name));
    DictGetText(FirstSegment(name), parts, Keys(name));
  }

  /** The segments of a non-empty name: the first is its first segment,
      there is just one exactly when no dot is followed by more text, and
      joined with spaces they are its keys. */
  lemma {:induction false} NameParts(name: string)
    requires name != []
    ensures SplitPath(name) != [] && SplitPath(name)[0] == FirstSegment(name)
    ensures |SplitPath(name)| == 1 <==> IndexOf(name, '.') + 1 >= |name|
    ensures Join(SplitPath(name), " ") == Keys(name)
  {
    var k := IndexOf(name, '.');
    SplitPathStep(name, k);
    var parts := SplitPath(name);
    if k + 1 < |name| {
      assert SplitPath(name[k + 1..]) != [];
      assert |parts| >= 2;
    } else if k < |name| {
      assert name[k + 1..] == [];
      assert parts == [name[..k]];
    } else {
      assert name[..k] == name;
    }
    JoinSplitPath(name, ' ');
  }

  lemma {:induction false} DataGetText(parts: seq<string>, keys: string)
    requires Join(parts, " ") == keys
    ensures DictGet("__data__", parts) == "[dict get $__data__ {" + keys + "}]"
  {
    assert "[dict get $" + "__data__" + " {" == "[dict get $__data__ {";
  }

  lemma {:induction false} DictGetText(v: string, parts: seq<string>, keys: string)
    requires Join(parts, " ") == keys
    ensures DictGet(v, parts) == "[dict get $" + v + " {" + keys + "}]"
  {
  }

  /** An empty name fails exactly when some block has `varnames` (its first
      segment would be compared); otherwise it is `__data__` itself. */
  lemma {:induction false} VarRefOfEmptyName(blocks: seq<Block>)
    ensures VarRef(SplitPath([]), blocks) ==
      if exists m :: 0 <= m < |blocks| && blocks[m].varnames.Some? then Err(EmptyPath)
      else Ok("[dict get $__data__ {}]")
  {
    ResolveEmptyPath(blocks);
    assert Join([], " ") == [];
    assert "[dict get $" + "__data__" + " {" + [] + "}]" == "[dict get $__data__ {}]";
  }

  /** The text a non-empty variable name lowers to. */
  function VarText(name: string, blocks: seq<Block>): string
  {
    match VarRef(SplitPath(name), blocks)
    case Ok(v) => v
    case Err(_) => []
  }

  lemma {:induction false} VarTextLowers(name: string, blocks: seq<Block>)
    requires name != []
    ensures VarRef(SplitPath(name), blocks) == Ok(VarText(name, blocks))
  {
    VarRefOfName(name, blocks);
  }

  lemma {:induction false} VariableLowers(t: seq<Token>, i: nat, name: string, blocks: seq<Block>, acc: string)
    requires name != [] && i + 1 < |t|
    requires t[i] == Tok(Variable, "$" + name, 1) && t[i + 1] == Tok(Text, name, 0)
    ensures VariableToken(Parse(t), i, blocks, acc) == Ok(acc + VarText(name, blocks))
  {
    VarTextLowers(name, blocks);
  }

  // ------------------------------------------------------------ expressions

  /** An expression tree of the forms the backend lowers. */
  datatype Expr =
    | Lit(text: string)
    | Var(name: string)
    | Unary(uop: char, arg: Expr)
    | Binary(bop: string, left: Expr, right: Expr)
    | Ternary(cond: Expr, yes: Expr, no: Expr)

  predicate BinarySupported(op: string)
  {
    (|op| == 1 && BinaryOp1(op[0])) || (|op| == 2 && BinaryOp2(op))
  }

  /** Every operator is one the backend lowers and every variable name is
      non-empty. */
  predicate Supported(e: Expr)
  {
    match e
    case Lit(_) => true
    case Var(n) => n != []
    case Unary(op, a) => UnaryOp(op) && Supported(a)
    case Binary(op, a, b) => BinarySupported(op) && Supported(a) && Supported(b)
    case Ternary(a, b, c) => Supported(a) && Supported(b) && Supported(c)
  }

  /** The Tcl expression a tree stands for: literals braced, operators
      between single spaces, the ternary as `c ? a : b`. */
  function Render(e: Expr, blocks: seq<Block>): string
  {
    match e
    case Lit(s) => "{" + s + "}"
    case Var(n) => VarText(n, blocks)
    case Unary(op, a) => [op] + Render(a, blocks)
    case Binary(op, a, b) => Render(a, blocks) + " " + op + " " + Render(b, blocks)
    case Ternary(a, b, c) => Render(a, blocks) + " ? " + Render(b, blocks) + " : " + Render(c, blocks)
  }

  /** The number of tokens in a tree's layout. */
  function Size(e: Expr): (n: nat)
    ensures n >= 2
  {
    match e
    case Lit(_) => 2
    case Var(_) => 3
    case Unary(_, a) => 2 + Size(a)
    case Binary(_, a, b) => 2 + Size(a) + Size(b)
    case Ternary(a, b, c) => 2 + Size(a) + Size(b) + Size(c)
  }

  /** Tcl_ParseExpr's layout of a tree, placed at index i of a token array:
      each subexpression is a SUB_EXPR token whose numComponents counts
      every token below it (Size(e) - 1); an operator node continues with
      its OPERATOR token and its operands' layouts back to back; a literal
      is a SUB_EXPR over one TEXT token, a variable a SUB_EXPR over a scalar
      VARIABLE token and the TEXT token of its name. */
  predicate Laid(e: Expr, t: seq<Token>, i: nat)
    decreases e
  {
    i + 1 < |t| && t[i].kind == SubExpr && t[i].numComponents == Size(e) - 1 &&
    match e
    case Lit(s) => t[i + 1].kind == Text && t[i + 1].text == s
    case Var(n) => i + 2 < |t| && t[i + 1] == Tok(Variable, "$" + n, 1) && t[i + 2] == Tok(Text, n, 0)
    case Unary(op, a) =>
      t[i + 1].kind == Operator && t[i + 1].text == [op] && Laid(a, t, i + 2)
    case Binary(op, a, b) =>
      t[i + 1].kind == Operator && t[i + 1].text == op &&
      Laid(a, t, i + 2) && Laid(b, t, i + 2 + Size(a))
    case Ternary(a, b, c) =>
      t[i + 1].kind == Operator && t[i + 1].text == "?" &&
      Laid(a, t, i + 2) && Laid(b, t, i + 2 + Size(a)) && Laid(c, t, i + 2 + Size(a) + Size(b))
  }

  /** The arity loop counts one operand of layout size a laid from off. */
  lemma {:induction false} OneOperand(p: Parse, off: nat, a: nat)
    requires a >= 2 && off < |p.tokens|
    requires p.tokens[off].kind == SubExpr && p.tokens[off].numComponents == a - 1
    ensures CountOperands(p, off, 0, a + 1, 0) == Ok(1)
  {
    assert CountOperands(p, off, a, a + 1, 1) == Ok(1);
  }

  /** ... two operands of sizes a and b laid back to back ... */
  lemma {:induction false} TwoOperands(p: Parse, off: nat, a: nat, b: nat)
    requires a >= 2 && b >= 2 && off + a < |p.tokens|
    requires p.tokens[off].kind == SubExpr && p.tokens[off].numComponents == a - 1
    requires p.tokens[off + a].kind == SubExpr && p.tokens[off + a].numComponents == b - 1
    ensures CountOperands(p, off, 0, a + b + 1, 0) == Ok(2)
  {
    assert CountOperands(p, off, a + b, a + b + 1, 2) == Ok(2);
    assert CountOperands(p, off, a, a + b + 1, 1) == Ok(2);
  }

  /** ... and three operands of sizes a, b and c. */
  lemma {:induction false} ThreeOperands(p: Parse, off: nat, a: nat, b: nat, c: nat)
    requires a >= 2 && b >= 2 && c >= 2 && off + a + b < |p.tokens|
    requires p.tokens[off].kind == SubExpr && p.tokens[off].numComponents == a - 1
    requires p.tokens[off + a].kind == SubExpr && p.tokens[off + a].numComponents == b - 1
    requires p.tokens[off + a + b].kind == SubExpr && p.tokens[off + a + b].numComponents == c - 1
    ensures CountOperands(p, off, 0, a + b + c + 1, 0) == Ok(3)
  {
    assert CountOperands(p, off, a + b + c, a + b + c + 1, 3) == Ok(3);
    assert CountOperands(p, off, a + b, a + b + c + 1, 2) == Ok(3);
    assert CountOperands(p, off, a, a + b + c + 1, 1) == Ok(3);
  }

  /** A SUB_EXPR whose first component is a TEXT literal is braced. */
  lemma {:induction false} LiteralStep(p: Parse, i: nat, blocks: seq<Block>, acc: string)
    requires i + 1 < |p.tokens|
    requires p.tokens[i].kind == SubExpr && p.tokens[i + 1].kind == Text
    ensures ExprToken(p, i, blocks, acc) == Ok(acc + "{" + p.tokens[i + 1].text + "}")
  {
    assert ExprToken(p, i + 1, blocks, acc + "{") == Ok(acc + "{" + p.tokens[i + 1].text);
  }

  /** ExprOperator on a one-character operator with one operand. */
  lemma {:induction false} UnaryStep(p: Parse, i: nat, blocks: seq<Block>, acc: string, out: string)
    requires i + 2 < |p.tokens|
    requires p.tokens[i].kind == SubExpr && p.tokens[i + 1].kind == Operator
    requires |p.tokens[i + 1].text| == 1 && UnaryOp(p.tokens[i + 1].text[0])
    requires CountOperands(p, i + 2, 0, p.tokens[i].numComponents, 0) == Ok(1)
    requires ExprToken(p, i + 2, blocks, acc + p.tokens[i + 1].text) == Ok(out)
    ensures ExprToken(p, i, blocks, acc) == Ok(out)
  {
  }

  /** ExprOperator on a listed two-operand operator. */
  lemma {:induction false} BinaryStep(p: Parse, i: nat, blocks: seq<Block>, acc: string, left: string, out: string)
    requires i + 2 < |p.tokens|
    requires p.tokens[i].kind == SubExpr && p.tokens[i + 1].kind == Operator
    requires BinarySupported(p.tokens[i + 1].text)
    requires CountOperands(p, i + 2, 0, p.tokens[i].numComponents, 0) == Ok(2)
    requires ExprToken(p, i + 2, blocks, acc) == Ok(left)
    requires ExprToken(p, i + 2 + p.tokens[i + 2].numComponents + 1, blocks,
      left + " " + p.tokens[i + 1].text + " ") == Ok(out)
    ensures ExprToken(p, i, blocks, acc) == Ok(out)
  {
  }

  /** ExprOperator on `?`. */
  lemma {:induction false} TernaryStep(p: Parse, i: nat, blocks: seq<Block>, acc: string, second: nat, third: nat,
                    ra: string, rb: string, out: string)
    requires i + 2 < |p.tokens|
    requires p.tokens[i].kind == SubExpr && p.tokens[i + 1].kind == Operator
    requires p.tokens[i + 1].text == "?"
    requires CountOperands(p, i + 2, 0, p.tokens[i].numComponents, 0) == Ok(3)
    requires second == i + 2 + p.tokens[i + 2].numComponents + 1 && second < |p.tokens|
    requires third == second + p.tokens[second].numComponents + 1
    requires ExprToken(p, i + 2, blocks, acc) == Ok(ra)
    requires ExprToken(p, second, blocks, ra + " ? ") == Ok(rb)
    requires ExprToken(p, third, blocks, rb + " : ") == Ok(out)
    ensures ExprToken(p, i, blocks, acc) == Ok(out)
  {
    assert !UnaryOp('?') && !BinaryOp1('?');
    assert ra + " " + "?" + " " == ra + " ? ";
  }

  /** A variable subexpression: SUB_EXPR, then the VARIABLE token. */
  lemma {:induction false} VariableStep(p: Parse, i: nat, blocks: seq<Block>, acc: string)
    requires i + 1 < |p.tokens|
    requires p.tokens[i].kind == SubExpr && p.tokens[i + 1].kind == Variable
    ensures ExprToken(p, i, blocks, acc) == VariableToken(p, i + 1, blocks, acc)
  {
  }

  lemma {:induction false} Assoc5(s0: string, s1: string, s2: string, s3: string, s4: string, s5: string)
    ensures s0 + s1 + s2 + s3 + s4 + s5 == s0 + (s1 + s2 + s3 + s4 + s5)
  {
  }

  /** The head of a laid-out subexpression. */
  lemma {:induction false} LaidHead(e: Expr, t: seq<Token>, i: nat)
    requires Laid(e, t, i)
    ensures i + 1 < |t| && t[i].kind == SubExpr && t[i].numComponents == Size(e) - 1
  {
  }

  /** A laid-out two-operand node has the head PairHead describes, with sa
      and sb the layout sizes of its operands, which are laid out back to
      back after its operator. */
  lemma {:induction false} LaidPair(op: string, a: Expr, b: Expr, t: seq<Token>, i: nat) returns (sa: nat, sb: nat)
    requires Laid(Binary(op, a, b), t, i)
    ensures sa == Size(a) && sb == Size(b) && PairHead(sa, sb, t, i) && t[i + 1].text == op
    ensures Laid(a, t, i + 2) && Laid(b, t, i + 2 + sa)
  {
    sa, sb := Size(a), Size(b);
    LaidHead(a, t, i + 2);
    LaidHead(b, t, i + 2 + sa);
  }

  /** A laid-out `?` node has the head TripleHead describes, with sa, sb and
      sc the layout sizes of its operands, which are laid out back to back. */
  lemma {:induction false} LaidTriple(a: Expr, b: Expr, c: Expr, t: seq<Token>, i: nat) returns (sa: nat, sb: nat, sc: nat)
    requires Laid(Ternary(a, b, c), t, i)
    ensures sa == Size(a) && sb == Size(b) && sc == Size(c) && TripleHead(sa, sb, sc, t, i)
    ensures Laid(a, t, i + 2) && Laid(b, t, i + 2 + sa) && Laid(c, t, i + 2 + sa + sb)
  {
    sa, sb, sc := Size(a), Size(b), Size(c);
    LaidHead(a, t, i + 2);
    LaidHead(b, t, i + 2 + sa);
    LaidHead(c, t, i + 2 + sa + sb);
  }

  /** Lowering the token at i onto acc succeeds and leaves r. */
  predicate ExprLowersTo(t: seq<Token>, i: nat, blocks: seq<Block>, acc: string, r: string)
  {
    ExprToken(Parse(t), i, blocks, acc) == Ok(r)
  }

  /** The head of a laid-out operator node over two operand layouts of
      sizes sa and sb. */
  predicate PairHead(sa: nat, sb: nat, t: seq<Token>, i: nat)
  {
    sa >= 2 && sb >= 2 && i + 2 + sa < |t| &&
    t[i].kind == SubExpr && t[i].numComponents == sa + sb + 1 && t[i + 1].kind == Operator &&
    t[i + 2].kind == SubExpr && t[i + 2].numComponents == sa - 1 &&
    t[i + 2 + sa].kind == SubExpr && t[i + 2 + sa].numComponents == sb - 1
  }

  /** The head of a laid-out `?` node over three operand layouts. */
  predicate TripleHead(sa: nat, sb: nat, sc: nat, t: seq<Token>, i: nat)
  {
    sa >= 2 && sb >= 2 && sc >= 2 && i + 2 + sa + sb < |t| &&
    t[i].kind == SubExpr && t[i].numComponents == sa + sb + sc + 1 &&
    t[i + 1].kind == Operator && t[i + 1].text == "?" &&
    t[i + 2].kind == SubExpr && t[i + 2].numComponents == sa - 1 &&
    t[i + 2 + sa].kind == SubExpr && t[i + 2 + sa].numComponents == sb - 1 &&
    t[i + 2 + sa + sb].kind == SubExpr && t[i + 2 + sa + sb].numComponents == sc - 1
  }

  /** A supported tree laid out from i. */
  predicate Lowerable(e: Expr, t: seq<Token>, i: nat)
  {
    Supported(e) && Laid(e, t, i)
  }

  /** The operands of a lowerable two-operand node are lowerable. */
  lemma {:induction false} LaidBinary(op: string, a: Expr, b: Expr, t: seq<Token>, i: nat) returns (sa: nat, sb: nat)
    requires Lowerable(Binary(op, a, b), t, i)
    ensures sa == Size(a) && sb == Size(b) && BinarySupported(op) && PairHead(sa, sb, t, i) && t[i + 1].text == op
    ensures Lowerable(a, t, i + 2) && Lowerable(b, t, i + 2 + sa)
  {
    sa, sb := LaidPair(op, a, b, t, i);
  }

  /** The operands of a lowerable `?` node are lowerable. */
  lemma {:induction false} LaidTernary(a: Expr, b: Expr, c: Expr, t: seq<Token>, i: nat) returns (sa: nat, sb: nat, sc: nat)
    requires Lowerable(Ternary(a, b, c), t, i)
    ensures sa == Size(a) && sb == Size(b) && sc == Size(c) && TripleHead(sa, sb, sc, t, i)
    ensures Lowerable(a, t, i + 2) && Lowerable(b, t, i + 2 + sa) && Lowerable(c, t, i + 2 + sa + sb)
  {
    sa, sb, sc := LaidTriple(a, b, c, t, i);
  }

  /** Lowering a supported tree laid out from i, wherever that is in the
      token array, appends exactly its rendering. */
  lemma {:induction false} ExprLowering(e: Expr, t: seq<Token>, i: nat, blocks: seq<Block>, acc: string)
    requires Lowerable(e, t, i)
    ensures ExprLowersTo(t, i, blocks, acc, acc + Render(e, blocks))
    decreases e, 2
  {
    match e {
      case Lit(s) =>
        LiteralStep(Parse(t), i, blocks, acc);
        assert acc + "{" + s + "}" == acc + Render(e, blocks);
      case Var(n) =>
        VariableLowers(t, i + 1, n, blocks, acc);
        VariableStep(Parse(t), i, blocks, acc);
      case Unary(op, a) => UnaryLowering(op, a, t, i, blocks, acc);
      case Binary(op, a, b) => BinaryLowering(op, a, b, t, i, blocks, acc);
      case Ternary(a, b, c) => TernaryLowering(a, b, c, t, i, blocks, acc);
    }
  }

  /** The unary case of ExprLowering. */
  lemma {:induction false} UnaryLowering(op: char, a: Expr, t: seq<Token>, i: nat, blocks: seq<Block>, acc: string)
    requires Lowerable(Unary(op, a), t, i)
    ensures ExprLowersTo(t, i, blocks, acc, acc + Render(Unary(op, a), blocks))
    decreases Unary(op, a), 1
  {
    assert Lowerable(a, t, i + 2);
    ExprLowering(a, t, i + 2, blocks, acc + [op]);
    UnaryCase(op, a, t, i, blocks, acc, Render(a, blocks));
  }

  /** The two-operand case of ExprLowering. */
  lemma {:induction false} BinaryLowering(op: string, a: Expr, b: Expr, t: seq<Token>, i: nat, blocks: seq<Block>,
                                          acc: string)
    requires Lowerable(Binary(op, a, b), t, i)
    ensures ExprLowersTo(t, i, blocks, acc, acc + Render(Binary(op, a, b), blocks))
    decreases Binary(op, a, b), 1
  {
    var sa, sb := LaidBinary(op, a, b, t, i);
    var ra := Render(a, blocks);
    ExprLowering(a, t, i + 2, blocks, acc);
    ExprLowering(b, t, i + 2 + sa, blocks, acc + ra + " " + op + " ");
    BinaryCase(op, sa, sb, t, i, blocks, acc, ra, Render(b, blocks));
  }

  /** The `?` case of ExprLowering. */
  lemma {:induction false} TernaryLowering(a: Expr, b: Expr, c: Expr, t: seq<Token>, i: nat, blocks: seq<Block>,
                                           acc: string)
    requires Lowerable(Ternary(a, b, c), t, i)
    ensures ExprLowersTo(t, i, blocks, acc, acc + Render(Ternary(a, b, c), blocks))
    decreases Ternary(a, b, c), 1
  {
    var sa, sb, sc := LaidTernary(a, b, c, t, i);
    var ra := Render(a, blocks);
    var rb := Render(b, blocks);
    ExprLowering(a, t, i + 2, blocks, acc);
    ExprLowering(b, t, i + 2 + sa, blocks, acc + ra + " ? ");
    ExprLowering(c, t, i + 2 + sa + sb, blocks, acc + ra + " ? " + rb + " : ");
    TernaryCase(sa, sb, sc, t, i, blocks, acc, ra, rb, Render(c, blocks));
  }

  /** The unary case, for any rendering ra of the operand. */
  lemma {:induction false} UnaryCase(op: char, a: Expr, t: seq<Token>, i: nat, blocks: seq<Block>, acc: string, ra: string)
    requires UnaryOp(op) && Laid(Unary(op, a), t, i)
    requires ExprLowersTo(t, i + 2, blocks, acc + [op], acc + [op] + ra)
    ensures ExprLowersTo(t, i, blocks, acc, acc + ([op] + ra))
  {
    LaidHead(a, t, i + 2);
    OneOperand(Parse(t), i + 2, Size(a));
    UnaryStep(Parse(t), i, blocks, acc, acc + [op] + ra);
    assert acc + [op] + ra == acc + ([op] + ra);
  }

  /** The two-operand case, for any renderings ra and rb of the operands. */
  lemma {:induction false} BinaryCase(op: string, sa: nat, sb: nat, t: seq<Token>, i: nat, blocks: seq<Block>,
                                      acc: string, ra: string, rb: string)
    requires BinarySupported(op) && PairHead(sa, sb, t, i) && t[i + 1].text == op
    requires ExprLowersTo(t, i + 2, blocks, acc, acc + ra)
    requires ExprLowersTo(t, i + 2 + sa, blocks, acc + ra + " " + op + " ", acc + ra + " " + op + " " + rb)
    ensures ExprLowersTo(t, i, blocks, acc, acc + (ra + " " + op + " " + rb))
  {
    TwoOperands(Parse(t), i + 2, sa, sb);
    BinaryStep(Parse(t), i, blocks, acc, acc + ra, acc + ra + " " + op + " " + rb);
    Assoc5(acc, ra, " ", op, " ", rb);
  }

  /** The `?` case, for any renderings of the three operands. */
  lemma {:induction false} TernaryCase(sa: nat, sb: nat, sc: nat, t: seq<Token>, i: nat, blocks: seq<Block>,
                                       acc: string, ra: string, rb: string, rc: string)
    requires TripleHead(sa, sb, sc, t, i)
    requires ExprLowersTo(t, i + 2, blocks, acc, acc + ra)
    requires ExprLowersTo(t, i + 2 + sa, blocks, acc + ra + " ? ", acc + ra + " ? " + rb)
    requires ExprLowersTo(t, i + 2 + sa + sb, blocks, acc + ra + " ? " + rb + " : ", acc + ra + " ? " + rb + " : " + rc)
    ensures ExprLowersTo(t, i, blocks, acc, acc + (ra + " ? " + rb + " : " + rc))
  {
    ThreeOperands(Parse(t), i + 2, sa, sb, sc);
    TernaryStep(Parse(t), i, blocks, acc, i + 2 + sa, i + 2 + sa + sb,
      acc + ra, acc + ra + " ? " + rb, acc + ra + " ? " + rb + " : " + rc);
    Assoc5(acc, ra, " ? ", rb, " : ", rc);
  }

  /** A two-operand operator the backend does not list (`<=`, `>=`, `**`,
      ...) is rejected before either operand is looked at. */
  lemma {:induction false} UnsupportedOperatorRejected(op: string, a: Expr, b: Expr, t: seq<Token>, i: nat, blocks: seq<Block>, acc: string)
    requires !BinarySupported(op) && op != "?" && Laid(Binary(op, a, b), t, i)
    ensures ExprToken(Parse(t), i, blocks, acc) == Err(UnsupportedOperator)
  {
    var sa, sb := LaidPair(op, a, b, t, i);
    TwoOperands(Parse(t), i + 2, sa, sb);
  }

  /** thtml_TclCompileExpr on a whole parsed expression. */
  lemma {:induction false} CompileExprRenders(e: Expr, t: seq<Token>, blocks: seq<Block>)
    requires Supported(e) && Laid(e, t, 0)
    ensures CompileExpr(Parse(t), blocks, []) == Ok(Render(e, blocks))
  {
    ExprLowering(e, t, 0, blocks, []);
    assert [] + Render(e, blocks) == Render(e, blocks);
  }

  /** An operator whose first operand slot does not hold a SUB_EXPR is
      refused with "not enough operands". */
  lemma {:induction false} NotEnoughOperandsRejected(t: seq<Token>, i: nat, blocks: seq<Block>, acc: string)
    requires i + 2 < |t| && t[i].kind == SubExpr && t[i + 1].kind == Operator
    requires t[i].numComponents >= 3 && t[i + 2].kind != SubExpr
    ensures ExprToken(Parse(t), i, blocks, acc) == Err(NotEnoughOperands)
  {
    var p := Parse(t);
    assert CountOperands(p, i + 2, 0, t[i].numComponents, 0) == Err(NotEnoughOperands);
    assert ExprOperator(p, i, blocks, acc) == Err(NotEnoughOperands);
  }
}
