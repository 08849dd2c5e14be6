/** What the C backend makes of quoted strings, quoted arguments, foreach
    lists, template text and commands, stated against descriptions of them
    as lists of pieces and of words (the same pieces the Tcl backend's
    properties use). */
module CWords {
  import opened Gen
  import opened TclParse
  import opened Scope
  import opened CVariables
  import opened CCommands
  import opened TclWords

  // ------------------------------------------------------- quoted text

  /** A quoted string's effect on the generator state: characters and
      backslash sequences appended to the statement buffer as they are,
      each reference lowered to its variable statements, a command
      substitution refused. */
  function CQuoted(ps: seq<Piece>, blocks: seq<Block>, name: string, st: CState): Result<CState>
    decreases |ps|
  {
    if ps == [] then Ok(st)
    else match ps[0]
      case Chars(s) => CQuoted(ps[1..], blocks, name, st.(ds := st.ds + s))
      case Escape(s) => CQuoted(ps[1..], blocks, name, st.(ds := st.ds + s))
      case Subst(_) => Err(QuotedCommandSubst)
      case Ref(n) =>
        (match CVarRef(SplitPath(n), blocks, name, false, false, st)
         case Err(e) => Err(e)
         case Ok(s) => CQuoted(ps[1..], blocks, name, s))
  }

  /** A quoted argument likewise, except that characters and backslash
      sequences each become a statement appending them to the buffer. */
  function CArg(ps: seq<Piece>, blocks: seq<Block>, name: string, st: CState): Result<CState>
    decreases |ps|
  {
    if ps == [] then Ok(st)
    else match ps[0]
      case Chars(s) => CArg(ps[1..], blocks, name, st.(ds := st.ds + "\n" + AppendLiteral(name, s)))
      case Escape(s) => CArg(ps[1..], blocks, name, st.(ds := st.ds + "\n" + AppendLiteral(name, s)))
      case Subst(_) => Err(QuotedCommandSubst)
      case Ref(n) =>
        (match CVarRef(SplitPath(n), blocks, name, false, false, st)
         case Err(e) => Err(e)
         case Ok(s) => CArg(ps[1..], blocks, name, s))
  }

  /** Template text: characters copied into the text region, each
      reference closing it (ETX), lowered as code to the `default` buffer,
      and reopening it (newline, STX).  The compiler lowers a command
      substitution in template text as a nested command; that case is not
      described here (it is an error in this description, and
      CTemplateLowering excludes it). */
  function CTemplate(ps: seq<Piece>, blocks: seq<Block>, st: CState): Result<CState>
    decreases |ps|
  {
    if ps == [] then Ok(st)
    else match ps[0]
      case Chars(s) => CTemplate(ps[1..], blocks, st.(ds := st.ds + s))
      case Escape(s) => CTemplate(ps[1..], blocks, st.(ds := st.ds + s))
      case Subst(_) => Err(QuotedCommandSubst)
      case Ref(n) =>
        (match CVarRef(SplitPath(n), blocks, "default", false, false, st.(ds := st.ds + [ETX]))
         case Err(e) => Err(e)
         case Ok(s) => CTemplate(ps[1..], blocks, s.(ds := s.ds + "\n" + [STX])))
  }

  /** thtml_CCompileQuotedString over laid-out pieces does what the pieces
      describe. */
  lemma {:induction false} CQuotedLowering(ps: seq<Piece>, t: seq<Token>, i: nat, blocks: seq<Block>, name: string,
                                           st: CState)
    requires PiecesLaid(ps, t, i)
    ensures CQuotedFrom(Parse(t), i, blocks, name, st) == CQuoted(ps, blocks, name, st)
    decreases |ps|
  {
    if ps != [] {
      match ps[0] {
        case Chars(s) => CQuotedLowering(ps[1..], t, i + 1, blocks, name, st.(ds := st.ds + s));
        case Escape(s) => CQuotedLowering(ps[1..], t, i + 1, blocks, name, st.(ds := st.ds + s));
        case Subst(_) =>
        case Ref(n) =>
          match CVarRef(SplitPath(n), blocks, name, false, false, st) {
            case Err(e) =>
            case Ok(s) => CQuotedLowering(ps[1..], t, i + 2, blocks, name, s);
          }
      }
    }
  }

  /** thtml_CCompileQuotedArg's loop likewise. */
  lemma {:induction false} CArgLowering(ps: seq<Piece>, t: seq<Token>, i: nat, blocks: seq<Block>, name: string,
                                        st: CState)
    requires PiecesLaid(ps, t, i)
    ensures CArgFrom(Parse(t), i, blocks, name, st) == CArg(ps, blocks, name, st)
    decreases |ps|
  {
    if ps != [] {
      match ps[0] {
        case Chars(s) =>
          CArgLowering(ps[1..], t, i + 1, blocks, name, st.(ds := st.ds + "\n" + AppendLiteral(name, s)));
        case Escape(s) =>
          CArgLowering(ps[1..], t, i + 1, blocks, name, st.(ds := st.ds + "\n" + AppendLiteral(name, s)));
        case Subst(_) =>
        case Ref(n) =>
          match CVarRef(SplitPath(n), blocks, name, false, false, st) {
            case Err(e) =>
            case Ok(s) => CArgLowering(ps[1..], t, i + 2, blocks, name, s);
          }
      }
    }
  }

  /** No piece is a command substitution. */
  predicate NoSubst(ps: seq<Piece>)
  {
    forall k :: 0 <= k < |ps| ==> !ps[k].Subst?
  }

  /** thtml_CCompileTemplateText over laid-out pieces without command
      substitutions does what CTemplate describes. */
  lemma {:induction false} CTemplateLowering(ps: seq<Piece>, t: seq<Token>, i: nat, blocks: seq<Block>, st: CState)
    requires PiecesLaid(ps, t, i) && NoSubst(ps)
    ensures CTemplateFrom(Parse(t), i, blocks, st) == CTemplate(ps, blocks, st)
    decreases |ps|
  {
    if ps != [] {
      assert NoSubst(ps[1..]) by {
        forall k | 0 <= k < |ps[1..]| ensures !ps[1..][k].Subst? {
          assert ps[1..][k] == ps[k + 1];
        }
      }
      assert !ps[0].Subst?;
      match ps[0] {
        case Chars(s) => CTemplateLowering(ps[1..], t, i + 1, blocks, st.(ds := st.ds + s));
        case Escape(s) => CTemplateLowering(ps[1..], t, i + 1, blocks, st.(ds := st.ds + s));
        case Ref(n) =>
          match CVarRef(SplitPath(n), blocks, "default", false, false, st.(ds := st.ds + [ETX])) {
            case Err(e) =>
            case Ok(s) => CTemplateLowering(ps[1..], t, i + 2, blocks, s.(ds := s.ds + "\n" + [STX]));
          }
      }
    }
  }

  // -------------------------------------------------- literal pieces only

  /** Every piece is characters or a backslash sequence. */
  predicate Literal(ps: seq<Piece>)
  {
    forall k :: 0 <= k < |ps| ==> ps[k].Chars? || ps[k].Escape?
  }

  /** The pieces' text, back to back. */
  function Texts(ps: seq<Piece>): string
    requires Literal(ps)
    decreases |ps|
  {
    if ps == [] then [] else ps[0].text + Texts(ps[1..])
  }

  /** One AppendLiteral statement per piece. */
  function Statements(name: string, ps: seq<Piece>): string
    requires Literal(ps)
    decreases |ps|
  {
    if ps == [] then [] else "\n" + AppendLiteral(name, ps[0].text) + Statements(name, ps[1..])
  }

  lemma {:induction false} LiteralTail(ps: seq<Piece>)
    requires ps != [] && Literal(ps)
    ensures Literal(ps[1..])
  {
    forall k | 0 <= k < |ps[1..]| ensures ps[1..][k].Chars? || ps[1..][k].Escape? {
      assert ps[1..][k] == ps[k + 1];
    }
  }

  /** Without references or substitutions, a quoted string and template
      text append the pieces' text unchanged and a quoted argument appends
      one statement per piece; nothing else in the state changes. */
  lemma {:induction false} LiteralPiecesCopied(ps: seq<Piece>, blocks: seq<Block>, name: string, st: CState)
    requires Literal(ps)
    ensures CQuoted(ps, blocks, name, st) == Ok(st.(ds := st.ds + Texts(ps)))
    ensures CTemplate(ps, blocks, st) == Ok(st.(ds := st.ds + Texts(ps)))
    ensures CArg(ps, blocks, name, st) == Ok(st.(ds := st.ds + Statements(name, ps)))
    decreases |ps|
  {
    if ps == [] {
      assert st.ds + [] == st.ds;
    } else {
      var s := ps[0].text;
      var l := "\n" + AppendLiteral(name, s);
      LiteralTail(ps);
      LiteralPiecesCopied(ps[1..], blocks, name, st.(ds := st.ds + s));
      LiteralPiecesCopied(ps[1..], blocks, name, st.(ds := st.ds + "\n" + AppendLiteral(name, s)));
      ConcatAssoc(st.ds, s, Texts(ps[1..]));
      ConcatAssoc(st.ds, "\n", AppendLiteral(name, s));
      ConcatAssoc(st.ds, l, Statements(name, ps[1..]));
    }
  }

  /** thtml_CCompileForeachList over literal pieces: the buffer declared,
      the pieces' text, and the buffer turned into an object. */
  lemma {:induction false} ForeachListOfLiterals(ps: seq<Piece>, t: seq<Token>, blocks: seq<Block>, name: string,
                                                 st: CState)
    requires PiecesLaid(ps, t, 0) && Literal(ps)
    ensures CCompileForeachList(Parse(t), blocks, name, st) ==
      Ok(st.(ds := st.ds + DeclareBuffer(name) + Texts(ps) + BufferToObj(name)))
  {
    var st0 := st.(ds := st.ds + DeclareBuffer(name));
    CQuotedLowering(ps, t, 0, blocks, name, st0);
    LiteralPiecesCopied(ps, blocks, name, st0);
  }

  /** thtml_CCompileQuotedArg over literal pieces: the buffer declared, one
      AppendLiteral statement per piece, and the buffer turned into an
      object. */
  lemma {:induction false} QuotedArgOfLiterals(ps: seq<Piece>, t: seq<Token>, blocks: seq<Block>, name: string,
                                               st: CState)
    requires PiecesLaid(ps, t, 0) && Literal(ps)
    ensures CCompileQuotedArg(Parse(t), blocks, name, st) ==
      Ok(st.(ds := st.ds + "\n" + DeclareBuffer(name) + Statements(name, ps) + BufferToObj(name)))
  {
    var st0 := st.(ds := st.ds + "\n" + DeclareBuffer(name));
    CArgLowering(ps, t, 0, blocks, name, st0);
    LiteralPiecesCopied(ps, blocks, name, st0);
  }

  // ------------------------------------------------- failure and success

  /** A non-empty name always resolves. */
  lemma {:induction false} CVarRefSucceeds(n: string, blocks: seq<Block>, name: string, st: CState)
    requires n != []
    ensures CVarRef(SplitPath(n), blocks, name, false, false, st).Ok?
  {
    SplitPathStep(n, IndexOf(n, '.'));
    CVarRefCases(SplitPath(n), blocks, name, false, false, st);
  }

  lemma {:induction false} PlainTail(ps: seq<Piece>)
    requires ps != [] && Plain(ps)
    ensures Plain(ps[1..])
  {
    forall k | 0 <= k < |ps[1..]|
      ensures !ps[1..][k].Subst? && (ps[1..][k].Ref? ==> ps[1..][k].name != [])
    {
      assert ps[1..][k] == ps[k + 1];
    }
  }

  /** Quoted strings, arguments and template text without command
      substitutions and with non-empty reference names never fail. */
  lemma {:induction false} CPlainSucceeds(ps: seq<Piece>, blocks: seq<Block>, name: string, st: CState)
    requires Plain(ps)
    ensures CQuoted(ps, blocks, name, st).Ok? && CArg(ps, blocks, name, st).Ok? && CTemplate(ps, blocks, st).Ok?
    decreases |ps|
  {
    if ps != [] {
      PlainTail(ps);
      match ps[0] {
        case Chars(s) =>
          CPlainSucceeds(ps[1..], blocks, name, st.(ds := st.ds + s));
          CPlainSucceeds(ps[1..], blocks, name, st.(ds := st.ds + "\n" + AppendLiteral(name, s)));
        case Escape(s) =>
          CPlainSucceeds(ps[1..], blocks, name, st.(ds := st.ds + s));
          CPlainSucceeds(ps[1..], blocks, name, st.(ds := st.ds + "\n" + AppendLiteral(name, s)));
        case Ref(n) =>
          CVarRefSucceeds(n, blocks, name, st);
          CVarRefSucceeds(n, blocks, "default", st.(ds := st.ds + [ETX]));
          var s := CVarRef(SplitPath(n), blocks, name, false, false, st).value;
          var s' := CVarRef(SplitPath(n), blocks, "default", false, false, st.(ds := st.ds + [ETX])).value;
          CPlainSucceeds(ps[1..], blocks, name, s);
          CPlainSucceeds(ps[1..], blocks, name, s'.(ds := s'.ds + "\n" + [STX]));
      }
    }
  }

  /** A command substitution after pieces that lower makes a quoted string
      or a quoted argument fail with "command substitution not supported". */
  lemma {:induction false} CSubstRefused(ps: seq<Piece>, c: string, qs: seq<Piece>, blocks: seq<Block>, name: string,
                                         st: CState)
    requires Plain(ps)
    ensures CQuoted(ps + [Subst(c)] + qs, blocks, name, st) == Err(QuotedCommandSubst)
    ensures CArg(ps + [Subst(c)] + qs, blocks, name, st) == Err(QuotedCommandSubst)
    decreases |ps|
  {
    var all := ps + [Subst(c)] + qs;
    if ps == [] {
      assert all[0] == Subst(c);
    } else {
      assert all[0] == ps[0];
      assert all[1..] == ps[1..] + [Subst(c)] + qs;
      PlainTail(ps);
      match ps[0] {
        case Chars(s) =>
          CSubstRefused(ps[1..], c, qs, blocks, name, st.(ds := st.ds + s));
          CSubstRefused(ps[1..], c, qs, blocks, name, st.(ds := st.ds + "\n" + AppendLiteral(name, s)));
        case Escape(s) =>
          CSubstRefused(ps[1..], c, qs, blocks, name, st.(ds := st.ds + s));
          CSubstRefused(ps[1..], c, qs, blocks, name, st.(ds := st.ds + "\n" + AppendLiteral(name, s)));
        case Ref(n) =>
          CVarRefSucceeds(n, blocks, name, st);
          CSubstRefused(ps[1..], c, qs, blocks, name, CVarRef(SplitPath(n), blocks, name, false, false, st).value);
      }
    }
  }

  // ----------------------------------------------------------- commands

  /** The statement that appends word w to the buffer. */
  function WordStatement(name: string, w: string): string
  {
    "\n" + AppendLiteral(name, w)
  }

  /** One WordStatement per word, back to back. */
  function WordStatements(name: string, ws: seq<string>): string
    decreases |ws|
  {
    if ws == [] then [] else WordStatement(name, ws[0]) + WordStatements(name, ws[1..])
  }

  /** One word of the loop, entered at its SIMPLE_WORD token or at its TEXT
      token: its statement, and the out_i that lands on the other token of
      the next word. */
  lemma {:induction false} CWordToken(ws: seq<string>, t: seq<Token>, k: nat, onText: bool, blocks: seq<Block>,
                                      name: string, st: CState)
    requires SimpleWordsLaid(ws, t) && k < |ws|
    ensures CCommandToken(Parse(t), false, 2 * k + (if onText then 1 else 0), blocks, name, st.(ds := [])) ==
      Ok(CEmit(st.(ds := WordStatement(name, ws[k])), 2 * (k + 1) + (if onText then 0 else 1)))
  {
    var p := Parse(t);
    var i := 2 * k + (if onText then 1 else 0);
    var w := ws[k];
    assert [] + WordStatement(name, w) == WordStatement(name, w);
    assert [] + "\n" + AppendLiteral(name, w) == WordStatement(name, w);
    if onText {
      assert t[i] == Tok(Text, w, 0);
    } else {
      assert t[i] == Tok(SimpleWord, w, 1);
      assert t[i + 1] == Tok(Text, w, 0);
      assert CCommandToken(p, false, i + 1, blocks, name, st.(ds := [])) ==
        Ok(CEmit(st.(ds := WordStatement(name, w)), i + 2));
    }
  }

  /** The word loop from word k on: the remaining words' statements. */
  lemma {:induction false} CWordsFrom(ws: seq<string>, t: seq<Token>, k: nat, onText: bool, blocks: seq<Block>,
                                      name: string, st: CState)
    requires SimpleWordsLaid(ws, t) && k <= |ws|
    ensures CCommandLoop(Parse(t), 2 * k + (if onText then 1 else 0), false, blocks, name, st) ==
      Ok(st.(ds := st.ds + WordStatements(name, ws[k..])))
    decreases |ws| - k
  {
    if k == |ws| {
      assert ws[k..] == [];
      assert st.ds + [] == st.ds;
    } else {
      var w := WordStatement(name, ws[k]);
      CWordToken(ws, t, k, onText, blocks, name, st);
      assert st.ds + w + "" == st.ds + w;
      CWordsFrom(ws, t, k + 1, !onText, blocks, name, st.(ds := st.ds + w));
      assert ws[k..][1..] == ws[k + 1..];
      ConcatAssoc(st.ds, w, WordStatements(name, ws[k + 1..]));
    }
  }

  /** thtml_CCompileCommand on simple words: the first word's statement,
      the statement that opens a quote, every further word's statement
      with no separator between the words, and the statement that closes
      the quote. */
  lemma {:induction false} CCommandOfWords(ws: seq<string>, t: seq<Token>, blocks: seq<Block>, name: string, st: CState)
    requires SimpleWordsLaid(ws, t)
    ensures CCompileCommand(Parse(t), blocks, name, st) ==
      if ws == [] then Ok(st)
      else Ok(st.(ds := st.ds + WordStatement(name, ws[0]) + OpenQuote(name) +
                        WordStatements(name, ws[1..]) + CloseQuote(name)))
  {
    if ws != [] {
      var p := Parse(t);
      var w := WordStatement(name, ws[0]);
      var head := st.ds + w + OpenQuote(name);
      assert [] + w == w;
      assert [] + "\n" + AppendLiteral(name, ws[0]) == w;
      assert t[0] == Tok(SimpleWord, ws[0], 1) && t[1] == Tok(Text, ws[0], 0);
      assert CCommandToken(p, false, 1, blocks, name, st.(ds := [])) == Ok(CEmit(st.(ds := w), 2));
      assert CCommandToken(p, false, 0, blocks, name, st.(ds := [])) == Ok(CEmit(st.(ds := w), 3));
      CWordsFrom(ws, t, 1, true, blocks, name, st.(ds := head));
    }
  }
}
