/** What the Tcl backend makes of quoted strings, template text and
    commands, stated against independent descriptions of them: text as a
    list of pieces, a command as a list of words. */
module TclWords {
  import opened Gen
  import opened TclParse
  import opened Scope
  import opened TclBackend

  // ------------------------------------------------------- quoted text

  /** A piece of a quoted string or of template text: literal characters, a
      backslash sequence, a `$name` reference or a `[script]` substitution. */
  datatype Piece = Chars(text: string) | Escape(text: string) | Ref(name: string) | Subst(script: string)

  function PieceSize(x: Piece): nat
  {
    if x.Ref? then 2 else 1
  }

  /** Tcl_ParseQuotedString's tokens for one piece, at index i: a TEXT, a BS,
      a scalar VARIABLE over the TEXT of its name, or a COMMAND. */
  predicate PieceLaid(x: Piece, t: seq<Token>, i: nat)
  {
    match x
    case Chars(s) => i < |t| && t[i] == Tok(Text, s, 0)
    case Escape(s) => i < |t| && t[i] == Tok(Bs, s, 0)
    case Ref(n) => i + 1 < |t| && t[i] == Tok(Variable, "$" + n, 1) && t[i + 1] == Tok(Text, n, 0)
    case Subst(c) => i < |t| && t[i].kind == Command && t[i].text == "[" + c + "]"
  }

  /** The pieces laid out back to back from i up to the end of the array. */
  predicate PiecesLaid(ps: seq<Piece>, t: seq<Token>, i: nat)
    decreases |ps|
  {
    if ps == [] then i == |t|
    else PieceLaid(ps[0], t, i) && PiecesLaid(ps[1..], t, i + PieceSize(ps[0]))
  }

  /** A result with `s` put in front of its text. */
  function Prepend(s: string, r: Result<string>): Result<string>
  {
    match r
    case Ok(v) => Ok(s + v)
    case Err(e) => Err(e)
  }

  lemma {:induction false} PrependPrepend(s: string, u: string, r: Result<string>)
    ensures Prepend(s, Prepend(u, r)) == Prepend(s + u, r)
  {
    if r.Ok? {
      assert s + (u + r.value) == s + u + r.value;
    }
  }

  /** What a quoted string means: characters and backslash sequences as
      written, references replaced by their variable lookups; a command
      substitution is refused. */
  function Quoted(ps: seq<Piece>, blocks: seq<Block>): Result<string>
    decreases |ps|
  {
    if ps == [] then Ok([])
    else match ps[0]
      case Chars(s) => Prepend(s, Quoted(ps[1..], blocks))
      case Escape(s) => Prepend(s, Quoted(ps[1..], blocks))
      case Subst(_) => Err(QuotedCommandSubst)
      case Ref(n) =>
        (match VarRef(SplitPath(n), blocks)
         case Err(e) => Err(e)
         case Ok(v) => Prepend(v, Quoted(ps[1..], blocks)))
  }

  /** Template text means the same, except that each reference leaves the
      text region (ETX), appends the value to `ds` in code, and re-enters
      text (STX). */
  function Template(ps: seq<Piece>, blocks: seq<Block>): Result<string>
    decreases |ps|
  {
    if ps == [] then Ok([])
    else match ps[0]
      case Chars(s) => Prepend(s, Template(ps[1..], blocks))
      case Escape(s) => Prepend(s, Template(ps[1..], blocks))
      case Subst(_) => Err(QuotedCommandSubst)
      case Ref(n) =>
        (match VarRef(SplitPath(n), blocks)
         case Err(e) => Err(e)
         case Ok(v) => Prepend(TemplateVarOpen() + v + TemplateVarClose(), Template(ps[1..], blocks)))
  }

  /** thtml_TclCompileQuotedString over laid-out pieces appends exactly
      what they mean, or fails with the first piece's error. */
  lemma {:induction false} QuotedLowering(ps: seq<Piece>, t: seq<Token>, i: nat, blocks: seq<Block>, acc: string)
    requires PiecesLaid(ps, t, i)
    ensures QuotedFrom(Parse(t), i, blocks, acc) == Prepend(acc, Quoted(ps, blocks))
    decreases |ps|
  {
    if ps == [] {
      assert acc + [] == acc;
    } else {
      var rest := Quoted(ps[1..], blocks);
      match ps[0] {
        case Chars(s) =>
          QuotedLowering(ps[1..], t, i + 1, blocks, acc + s);
          PrependPrepend(acc, s, rest);
        case Escape(s) =>
          QuotedLowering(ps[1..], t, i + 1, blocks, acc + s);
          PrependPrepend(acc, s, rest);
        case Subst(_) =>
        case Ref(n) =>
          match VarRef(SplitPath(n), blocks) {
            case Err(e) =>
            case Ok(v) =>
              QuotedLowering(ps[1..], t, i + 2, blocks, acc + v);
              PrependPrepend(acc, v, rest);
          }
      }
    }
  }

  /** thtml_TclCompileTemplateText likewise. */
  lemma {:induction false} TemplateLowering(ps: seq<Piece>, t: seq<Token>, i: nat, blocks: seq<Block>, acc: string)
    requires PiecesLaid(ps, t, i)
    ensures TemplateFrom(Parse(t), i, blocks, acc) == Prepend(acc, Template(ps, blocks))
    decreases |ps|
  {
    if ps == [] {
      assert acc + [] == acc;
    } else {
      var rest := Template(ps[1..], blocks);
      match ps[0] {
        case Chars(s) =>
          TemplateLowering(ps[1..], t, i + 1, blocks, acc + s);
          PrependPrepend(acc, s, rest);
        case Escape(s) =>
          TemplateLowering(ps[1..], t, i + 1, blocks, acc + s);
          PrependPrepend(acc, s, rest);
        case Subst(_) =>
        case Ref(n) =>
          TemplateRefStep(n, t, i, blocks, acc);
          match VarRef(SplitPath(n), blocks) {
            case Err(e) =>
            case Ok(v) =>
              var w := TemplateVarOpen() + v + TemplateVarClose();
              TemplateLowering(ps[1..], t, i + 2, blocks, acc + w);
              PrependPrepend(acc, w, rest);
          }
      }
    }
  }

  /** A reference in template text: its lookup's error, or the lookup
      wrapped in ETX ... STX and the scan going on after the name. */
  lemma {:induction false} TemplateRefStep(n: string, t: seq<Token>, i: nat, blocks: seq<Block>, acc: string)
    requires PieceLaid(Ref(n), t, i)
    ensures VarRef(SplitPath(n), blocks).Err? ==>
      TemplateFrom(Parse(t), i, blocks, acc) == Err(VarRef(SplitPath(n), blocks).error)
    ensures VarRef(SplitPath(n), blocks).Ok? ==>
      TemplateFrom(Parse(t), i, blocks, acc) ==
      TemplateFrom(Parse(t), i + 2, blocks, acc + (TemplateVarOpen() + VarRef(SplitPath(n), blocks).value + TemplateVarClose()))
  {
    var r := VarRef(SplitPath(n), blocks);
    if r.Ok? {
      ConcatAssoc(acc + TemplateVarOpen(), r.value, TemplateVarClose());
      ConcatAssoc(acc, TemplateVarOpen(), r.value + TemplateVarClose());
      ConcatAssoc(TemplateVarOpen(), r.value, TemplateVarClose());
    }
  }

  /** A quoted string without command substitutions and with non-empty
      reference names never fails and ... */
  predicate Plain(ps: seq<Piece>)
  {
    forall k :: 0 <= k < |ps| ==> !ps[k].Subst? && (ps[k].Ref? ==> ps[k].name != [])
  }

  lemma {:induction false} PlainQuotedSucceeds(ps: seq<Piece>, blocks: seq<Block>)
    requires Plain(ps)
    ensures Quoted(ps, blocks).Ok? && Template(ps, blocks).Ok?
    decreases |ps|
  {
    if ps != [] {
      assert Plain(ps[1..]) by {
        forall k | 0 <= k < |ps[1..]|
          ensures !ps[1..][k].Subst? && (ps[1..][k].Ref? ==> ps[1..][k].name != [])
        {
          assert ps[1..][k] == ps[k + 1];
        }
      }
      PlainQuotedSucceeds(ps[1..], blocks);
      if ps[0].Ref? {
        VarRefSucceeds(ps[0].name, blocks);
      }
    }
  }

  /** ... because a non-empty name always resolves. */
  lemma {:induction false} VarRefSucceeds(name: string, blocks: seq<Block>)
    requires name != []
    ensures VarRef(SplitPath(name), blocks).Ok?
  {
    var k := IndexOf(name, '.');
    SplitPathStep(name, k);
    ResolveDeclaredIff(SplitPath(name), blocks);
  }

  /** A command substitution anywhere in a quoted string, after pieces that
      lower, makes it fail with "command substitution not supported". */
  lemma {:induction false} SubstRefused(ps: seq<Piece>, c: string, qs: seq<Piece>, blocks: seq<Block>)
    requires Plain(ps)
    ensures Quoted(ps + [Subst(c)] + qs, blocks) == Err(QuotedCommandSubst)
    ensures Template(ps + [Subst(c)] + qs, blocks) == Err(QuotedCommandSubst)
    decreases |ps|
  {
    var all := ps + [Subst(c)] + qs;
    if ps == [] {
      assert all[0] == Subst(c);
    } else {
      assert all[0] == ps[0];
      assert all[1..] == ps[1..] + [Subst(c)] + qs;
      assert Plain(ps[1..]) by {
        forall k | 0 <= k < |ps[1..]|
          ensures !ps[1..][k].Subst? && (ps[1..][k].Ref? ==> ps[1..][k].name != [])
        {
          assert ps[1..][k] == ps[k + 1];
        }
      }
      SubstRefused(ps[1..], c, qs, blocks);
      if ps[0].Ref? {
        VarRefSucceeds(ps[0].name, blocks);
      }
    }
  }

  // ----------------------------------------------------------- commands

  /** Tcl_ParseCommand's layout of a command of simple words (words without
      substitutions): each word is a SIMPLE_WORD token over the TEXT token of
      the word. */
  predicate SimpleWordsLaid(ws: seq<string>, t: seq<Token>)
  {
    |t| == 2 * |ws| &&
    forall j :: 0 <= j < |t| ==>
      t[j] == if j % 2 == 0 then Tok(SimpleWord, ws[j / 2], 1) else Tok(Text, ws[j / 2], 0)
  }

  /** The word loop from word k on, entered either at the word's SIMPLE_WORD
      token or at its TEXT token (the SIMPLE_WORD branch's out_i lands on
      the next word's TEXT token): every remaining word, each after one
      space. */
  lemma {:induction false} WordsFrom(ws: seq<string>, t: seq<Token>, k: nat, onText: bool, blocks: seq<Block>, acc: string)
    requires SimpleWordsLaid(ws, t) && k <= |ws|
    ensures CommandLoop(Parse(t), 2 * k + (if onText then 1 else 0), false, false, blocks, acc) ==
      Ok(acc + Prefixed(ws[k..], " "))
    decreases |ws| - k
  {
    if k == |ws| {
      assert ws[k..] == [];
      assert acc + [] == acc;
    } else {
      WordToken(ws, t, k, onText, blocks);
      WordsFrom(ws, t, k + 1, !onText, blocks, acc + " " + ws[k]);
      PrefixedFrom(ws, k, acc);
    }
  }

  /** One word of the loop: its text, and the out_i that lands on the other
      token of the next word. */
  lemma {:induction false} WordToken(ws: seq<string>, t: seq<Token>, k: nat, onText: bool, blocks: seq<Block>)
    requires SimpleWordsLaid(ws, t) && k < |ws|
    ensures CommandToken(Parse(t), false, 2 * k + (if onText then 1 else 0), blocks, []) ==
      Ok(Emit(ws[k], 2 * (k + 1) + (if onText then 0 else 1)))
  {
    var p := Parse(t);
    var i := 2 * k + (if onText then 1 else 0);
    var w := ws[k];
    assert [] + w == w;
    if onText {
      assert t[i] == Tok(Text, w, 0);
    } else {
      assert t[i] == Tok(SimpleWord, w, 1);
      assert t[i + 1] == Tok(Text, w, 0);
      assert CommandToken(p, false, i + 1, blocks, []) == Ok(Emit(w, i + 2));
    }
  }

  lemma {:induction false} PrefixedFrom(ws: seq<string>, k: nat, acc: string)
    requires k < |ws|
    ensures acc + " " + ws[k] + Prefixed(ws[k + 1..], " ") == acc + Prefixed(ws[k..], " ")
  {
    assert ws[k..][1..] == ws[k + 1..];
  }

  /** thtml_TclCompileCommand on simple words: the words joined by single
      spaces, unless the first word starts with `expr`. */
  lemma {:induction false} CommandJoinsWords(ws: seq<string>, t: seq<Token>, blocks: seq<Block>, acc: string)
    requires SimpleWordsLaid(ws, t) && (ws != [] ==> !StartsWithExpr(ws[0]))
    ensures CompileCommand(Parse(t), blocks, acc) == Ok(acc + Join(ws, " "))
  {
    var p := Parse(t);
    if ws == [] {
      assert acc + [] == acc;
    } else {
      var w := ws[0];
      assert [] + w == w;
      assert t[0] == Tok(SimpleWord, w, 1) && t[1] == Tok(Text, w, 0);
      assert CommandToken(p, false, 1, blocks, []) == Ok(Emit(w, 2));
      assert CommandToken(p, false, 0, blocks, []) == Ok(Emit(w, 3));
      WordsFrom(ws, t, 1, true, blocks, acc + w);
      assert acc + w + Prefixed(ws[1..], " ") == acc + Join(ws, " ");
    }
  }

  /** A TEXT word of an `expr` command is compiled as a quoted string
      (re-parsed with its text wrapped in double quotes) and braced;
      outside `expr` it is copied. */
  lemma {:induction false} ExprWordBraced(p: Parse, i: nat, w: string, q: Parse, ps: seq<Piece>, blocks: seq<Block>, acc: string)
    requires i < |p.tokens| && p.tokens[i] == Token(Text, w, 0, Reparsed(q)) && PiecesLaid(ps, q.tokens, 0)
    ensures CommandToken(p, true, i, blocks, acc) ==
      match Prepend(acc + "{", Quoted(ps, blocks))
      case Ok(v) => Ok(Emit(v + "}", i + 1))
      case Err(e) => Err(e)
    ensures CommandToken(p, false, i, blocks, acc) == Ok(Emit(acc + w, i + 1))
  {
    QuotedLowering(ps, q.tokens, 0, blocks, acc + "{");
  }

  /** A nested command of simple words is compiled recursively and
      bracketed. */
  lemma {:induction false} NestedCommandBracketed(p: Parse, i: nat, text: string, q: Parse, ws: seq<string>, subst: bool,
                               blocks: seq<Block>, acc: string)
    requires i < |p.tokens| && p.tokens[i] == Token(Command, text, 0, Reparsed(q))
    requires SimpleWordsLaid(ws, q.tokens) && (ws != [] ==> !StartsWithExpr(ws[0]))
    ensures CommandToken(p, subst, i, blocks, acc) == Ok(Emit(acc + "[" + Join(ws, " ") + "]", i + 1))
  {
    CommandJoinsWords(ws, q.tokens, blocks, acc + "[");
  }
}
