/** The C backend's variable references (thtml_CAppendVariable and its
    _Simple and _Dict helpers in src/compiler_c.c) and the state every C
    generator shares: the statement buffer, the expression buffer, and the
    two process-wide counters that number the temporaries. */
module CVariables {
  import opened Gen
  import opened TclParse
  import opened Scope

  /** What a C generator changes: the statement buffer (ds_ptr), the
      expression buffer (expr_ds_ptr; unused where the caller passes NULL),
      and the counters count_text_subst and count_var_dict_subst. */
  datatype CState = CState(ds: string, expr: string, texts: nat, dicts: nat)

  // ----------------------------------------------------------- counter names

  /** The ASCII digit for d. */
  function Digit(d: nat): char
    requires d < 10
  {
    ('0' as int + d) as char
  }

  /** snprintf(buf, 12, "%d", n) for a counter value. */
  function Decimal(n: nat): (s: string)
    ensures |s| >= 1
    ensures n >= 10 ==> |s| >= 2
    ensures forall k :: 0 <= k < |s| ==> '0' <= s[k] <= '9'
    decreases n
  {
    if n < 10 then [Digit(n)] else Decimal(n / 10) + [Digit(n % 10)]
  }

  /** Distinct counter values are printed differently, so the temporaries
      they name are distinct. */
  lemma {:induction false} DecimalInjective(a: nat, b: nat)
    requires Decimal(a) == Decimal(b)
    ensures a == b
    decreases a
  {
    var s := Decimal(a);
    if a >= 10 && b >= 10 {
      assert s[..|s| - 1] == Decimal(a / 10) && s[..|s| - 1] == Decimal(b / 10);
      DecimalInjective(a / 10, b / 10);
      assert s[|s| - 1] == Digit(a % 10) == Digit(b % 10);
    } else if a < 10 && b < 10 {
      assert s[0] == Digit(a) == Digit(b);
    }
  }

  // ------------------------------------------------------ a declared variable

  /** `__<name>_var_<x>__`, the Tcl_Obj a script-evaluated variable is set
      through. */
  function VarObj(name: string, x: string): string
  {
    "__" + name + "_var_" + x + "__"
  }

  /** What thtml_CAppendVariable_Simple writes to the statement buffer for a
      command word (in_eval_p set): a Tcl_Obj holding the name, the variable
      set in the interpreter, and `$x` appended to the output buffer. */
  function EvalStatements(x: string, name: string): string
  {
    "\nTcl_Obj *" + VarObj(name, x) + " = Tcl_NewStringObj(\"" + x + "\", -1);" +
    "\nTcl_IncrRefCount(" + VarObj(name, x) + ");" +
    "\nif (TCL_OK != Tcl_ObjSetVar2(__interp__, " + VarObj(name, x) + ", NULL, " + x +
      ", TCL_LEAVE_ERR_MSG)) { return TCL_ERROR; }" +
    "\nTcl_DecrRefCount(" + VarObj(name, x) + ");" +
    "\nTcl_DStringAppend(__ds_" + name + "__, \"$" + x + "\"), -1);"
  }

  /** ... and for text (in_eval_p clear): the variable's string value
      appended to the output buffer. */
  function AppendStatement(x: string, name: string): string
  {
    "\nTcl_DStringAppend(__ds_" + name + "__, Tcl_GetString(" + x + "), -1);"
  }

  /** thtml_CAppendVariable_Simple: a statement when there is no expression
      buffer, otherwise the bare name (`$x` when in_eval_p) in the
      expression. */
  function CSimple(x: string, name: string, inExpr: bool, inEval: bool, st: CState): CState
  {
    if !inExpr then
      st.(ds := st.ds + if inEval then EvalStatements(x, name) else AppendStatement(x, name))
    else
      st.(expr := st.expr + if inEval then "$" + x else x)
  }

  // ----------------------------------------------------------- a dict lookup

  function KeyPtr(part: string, cs: string): string
  {
    "__" + part + cs + "_key_ptr__"
  }

  /** One step of thtml_CAppendVariable_Dict: declare `<part><n>`, look the
      key `part` up in the dict variable v, release the key. */
  function DictLookup(v: string, part: string, cs: string): string
  {
    "\nTcl_Obj *" + part + cs + ";" +
    "\nTcl_Obj *" + KeyPtr(part, cs) + " = Tcl_NewStringObj(\"" + part + "\", -1);" +
    "\nTcl_IncrRefCount(" + KeyPtr(part, cs) + ");" +
    "\nif (TCL_OK != Tcl_DictObjGet(__interp__, " + v + ", " + KeyPtr(part, cs) + ", &" + part + cs +
      ")) { return TCL_ERROR; }" +
    "\nTcl_DecrRefCount(" + KeyPtr(part, cs) + ");"
  }

  /** A step's statements: the lookup, then, without an expression buffer,
      the looked-up value appended to the output buffer. */
  function DictEntry(v: string, part: string, cs: string, name: string, inExpr: bool): string
  {
    DictLookup(v, part, cs) +
    if inExpr then "" else "\nTcl_DStringAppend(__ds_" + name + "__, Tcl_GetString(" + part + cs + "), -1);\n"
  }

  function DictEntries(v: string, parts: seq<string>, cs: string, name: string, inExpr: bool): (r: seq<string>)
    ensures |r| == |parts|
    decreases |parts|
  {
    if parts == [] then []
    else DictEntries(v, parts[..|parts| - 1], cs, name, inExpr) + [DictEntry(v, parts[|parts| - 1], cs, name, inExpr)]
  }

  /** The names the steps declare, `<part><n>`. */
  function DictResults(parts: seq<string>, cs: string): (r: seq<string>)
    ensures |r| == |parts|
    decreases |parts|
  {
    if parts == [] then [] else DictResults(parts[..|parts| - 1], cs) + [parts[|parts| - 1] + cs]
  }

  /** thtml_CAppendVariable_Dict: the dict counter advances once per call
      and numbers every step; the steps are separated by one space in the
      statement buffer, and with an expression buffer their declared names
      are appended there back to back.  Every step reads from v itself. */
  function CDict(v: string, parts: seq<string>, name: string, inExpr: bool, st: CState): CState
  {
    var cs := Decimal(st.dicts + 1);
    CState(st.ds + Join(DictEntries(v, parts, cs, name, inExpr), " "),
           if inExpr then st.expr + Join(DictResults(parts, cs), "") else st.expr,
           st.texts, st.dicts + 1)
  }

  // ------------------------------------------------------- the whole variable

  /** What a split variable path becomes once the blocks are scanned: the
      bare variable for a declared one-segment path, a lookup of the
      remaining segments in the declaring variable for a declared dotted
      path, and a lookup of every segment in `__data__` otherwise. */
  function CVarRef(parts: seq<string>, blocks: seq<Block>, name: string, inExpr: bool, inEval: bool,
                   st: CState): Result<CState>
  {
    match Resolve(parts, blocks)
    case NoFirstSegment => Err(EmptyPath)
    case TopLevel => Ok(CDict("__data__", parts, name, inExpr, st))
    case Declared =>
      if parts == [] then Err(EmptyPath)
      else if |parts| == 1 then Ok(CSimple(parts[0], name, inExpr, inEval, st))
      else Ok(CDict(parts[0], parts[1..], name, inExpr, st))
  }

  /** thtml_CAppendVariable for the VARIABLE token at i, whose name is the
      TEXT token after it. */
  function CVariable(p: Parse, i: nat, blocks: seq<Block>, name: string, inExpr: bool, inEval: bool,
                     st: CState): Result<CState>
  {
    var t := p.tokens;
    if i >= |t| then Err(TokenOutOfRange)
    else if t[i].numComponents != 1 then Err(ArrayVariable)
    else if i + 1 >= |t| then Err(TokenOutOfRange)
    else CVarRef(SplitPath(t[i + 1].text), blocks, name, inExpr, inEval, st)
  }

  /** A block declares the first segment before any block that decides
      otherwise. */
  predicate DeclaredFirst(parts: seq<string>, blocks: seq<Block>)
    requires parts != []
  {
    exists m :: 0 <= m < |blocks| && Declares(blocks[m], parts[0]) &&
      forall k :: 0 <= k < m ==> !Decides(blocks[k], parts[0])
  }

  /** A non-empty path is either declared by the first deciding block, and
      then read from that variable (the bare variable, or a lookup of the
      remaining segments), or looked up whole in `__data__`. */
  lemma {:induction false} CVarRefCases(parts: seq<string>, blocks: seq<Block>, name: string, inExpr: bool, inEval: bool,
                     st: CState)
    requires parts != []
    ensures CVarRef(parts, blocks, name, inExpr, inEval, st) ==
      if DeclaredFirst(parts, blocks) then
        if |parts| == 1 then Ok(CSimple(parts[0], name, inExpr, inEval, st))
        else Ok(CDict(parts[0], parts[1..], name, inExpr, st))
      else Ok(CDict("__data__", parts, name, inExpr, st))
  {
    ResolveDeclaredIff(parts, blocks);
  }

  /** An empty name fails exactly when some block has `varnames` (the source
      reads its first segment then); otherwise it is an empty lookup in
      `__data__` that still takes a counter value. */
  lemma {:induction false} CVarRefEmptyName(blocks: seq<Block>, name: string, inExpr: bool, inEval: bool, st: CState)
    ensures CVarRef([], blocks, name, inExpr, inEval, st) ==
      if exists m :: 0 <= m < |blocks| && blocks[m].varnames.Some? then Err(EmptyPath)
      else Ok(st.(dicts := st.dicts + 1))
  {
    ResolveEmptyPath(blocks);
    var cs := Decimal(st.dicts + 1);
    assert DictEntries("__data__", [], cs, name, inExpr) == [];
    assert DictResults([], cs) == [];
    assert st.ds + Join([], " ") == st.ds && st.expr + Join([], "") == st.expr;
  }

  /** Every lookup of a dotted path, however deep, reads from the variable
      of its first segment, never from the previous step's result: the
      statements are exactly one lookup per remaining segment in v. */
  lemma {:induction false} DictStepsReadFromFirst(v: string, parts: seq<string>, name: string, st: CState, k: nat)
    requires k < |parts|
    ensures DictEntries(v, parts, Decimal(st.dicts + 1), name, true)[k] ==
      DictLookup(v, parts[k], Decimal(st.dicts + 1))
    decreases |parts|
  {
    var cs := Decimal(st.dicts + 1);
    var n := |parts| - 1;
    if k == n {
      assert DictEntry(v, parts[n], cs, name, true) == DictLookup(v, parts[n], cs) + "";
    } else {
      DictStepsReadFromFirst(v, parts[..n], name, st, k);
    }
  }

  /** A variable reference only appends, advances the dict counter by at
      most one, and never touches the text counter. */
  lemma {:induction false} CVarRefAppends(parts: seq<string>, blocks: seq<Block>, name: string, inExpr: bool, inEval: bool,
                       st: CState)
    requires CVarRef(parts, blocks, name, inExpr, inEval, st).Ok?
    ensures var s := CVarRef(parts, blocks, name, inExpr, inEval, st).value;
      st.ds <= s.ds && st.expr <= s.expr && s.texts == st.texts && st.dicts <= s.dicts <= st.dicts + 1
  {
  }
}
