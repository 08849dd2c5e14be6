/** The Tcl backend's command compiler (src/compiler_tcl.c:409-523) with its
    token cursor corrected, stated against a command as a list of words.

    As written, the SIMPLE_WORD branch sets out_i one past the end of the
    word and the WORD loop lowers the token after each out_i, so it skips
    every other component of a word with substitutions
    (`WordLoopSkipsComponents`).  Here every token of a word is lowered once,
    in order, and the cursor goes on at the next word; a word with
    substitutions is kept as one word by double quotes, as the expression
    compiler quotes WORD tokens. */
module TclCommandFix {
  import opened Gen
  import opened TclParse
  import opened Scope
  import opened TclBackend
  import opened TclWords

  // ------------------------------------------------------ corrected lowering

  /** thtml_TclAppendCommand_Token with out_i set to the first token after
      the word. */
  function FixedToken(p: Parse, subst: bool, i: nat, blocks: seq<Block>, acc: string): (r: Result<Emit>)
    ensures r.Ok? ==> r.value.next > i
    decreases p, |p.tokens| - i, 1
  {
    var t := p.tokens;
    if i >= |t| then Err(TokenOutOfRange)
    else match t[i].kind
      case Variable =>
        (match VariableToken(p, i, blocks, acc)
         case Err(e) => Err(e)
         case Ok(a) => Ok(Emit(a, i + 2)))
      case SimpleWord =>
        (match FixedToken(p, subst, i + 1, blocks, acc)
         case Err(e) => Err(e)
         case Ok(w) => Ok(Emit(w.text, w.next)))
      case Text =>
        if subst then
          (match t[i].reparse
           case ReparseFailed(m) => Err(ParserFailed(m))
           case Reparsed(q) =>
             (match QuotedFrom(q, 0, blocks, acc + "{")
              case Err(e) => Err(e)
              case Ok(a) => Ok(Emit(a + "}", i + 1))))
        else Ok(Emit(acc + t[i].text, i + 1))
      case Command =>
        (match t[i].reparse
         case ReparseFailed(m) => Err(ParserFailed(m))
         case Reparsed(q) =>
           (match FixedCompileCommand(q, blocks, acc + "[")
            case Err(e) => Err(e)
            case Ok(a) => Ok(Emit(a + "]", i + 1))))
      case ExpandWord => Err(ExpandNotSupported)
      case Word =>
        (match FixedWordLoop(p, subst, i + 1, i + 1 + t[i].numComponents, blocks, acc + "\"")
         case Err(e) => Err(e)
         case Ok(w) => Ok(Emit(w.text + "\"", w.next)))
      case Bs => Ok(Emit(acc + t[i].text, i + 1))
      case _ => Ok(Emit(acc, i + 1))
  }

  /** The loop of a WORD token: lower the component at k and continue at
      its out_i, until the cursor reaches `end`, the first token after the
      word. */
  function FixedWordLoop(p: Parse, subst: bool, k: nat, end: nat, blocks: seq<Block>, acc: string): (r: Result<Emit>)
    ensures r.Ok? ==> r.value.next >= k
    decreases p, |p.tokens| - k, 2
  {
    if k >= end then Ok(Emit(acc, k))
    else match FixedToken(p, subst, k, blocks, acc)
      case Err(e) => Err(e)
      case Ok(w) => FixedWordLoop(p, subst, w.next, end, blocks, w.text)
  }

  /** thtml_TclCompileCommand over the corrected token lowering. */
  function FixedCompileCommand(p: Parse, blocks: seq<Block>, acc: string): Result<string>
    decreases p, |p.tokens| + 1, 4
  {
    FixedCommandLoop(p, 0, true, false, blocks, acc)
  }

  function FixedCommandLoop(p: Parse, i: nat, first: bool, subst: bool, blocks: seq<Block>, acc: string): Result<string>
    decreases p, |p.tokens| - i + 1, 3
  {
    if i >= |p.tokens| then Ok(acc)
    else
      var acc' := if first then acc else acc + " ";
      match FixedToken(p, subst, i, blocks, [])
      case Err(e) => Err(e)
      case Ok(w) =>
        var subst' := if first then StartsWithExpr(w.text) else subst;
        FixedCommandLoop(p, w.next, false, subst', blocks, acc' + w.text)
  }

  // ------------------------------------------------------- commands as words

  /** A word of a command: a bare word, or a word with substitutions made of
      characters, backslash sequences and `$name` references. */
  datatype CmdWord = Bare(text: string) | Compound(pieces: seq<Piece>)

  function PiecesSize(ps: seq<Piece>): nat
    decreases |ps|
  {
    if ps == [] then 0 else PieceSize(ps[0]) + PiecesSize(ps[1..])
  }

  /** The pieces laid out back to back from i; more tokens may follow. */
  predicate PiecesLaidFrom(ps: seq<Piece>, t: seq<Token>, i: nat)
    decreases |ps|
  {
    ps == [] || (PieceLaid(ps[0], t, i) && PiecesLaidFrom(ps[1..], t, i + PieceSize(ps[0])))
  }

  function WordSize(w: CmdWord): nat
  {
    match w
    case Bare(_) => 2
    case Compound(ps) => 1 + PiecesSize(ps)
  }

  /** Tcl_ParseCommand's tokens for one word at i: a SIMPLE_WORD over its
      TEXT, or a WORD whose numComponents counts every token of its pieces,
      followed by those tokens. */
  predicate WordLaid(w: CmdWord, t: seq<Token>, i: nat)
  {
    match w
    case Bare(s) => i + 1 < |t| && t[i] == Tok(SimpleWord, s, 1) && t[i + 1] == Tok(Text, s, 0)
    case Compound(ps) =>
      i < |t| && t[i].kind == Word && t[i].numComponents == PiecesSize(ps) &&
      (forall k :: 0 <= k < |ps| ==> !ps[k].Subst?) && PiecesLaidFrom(ps, t, i + 1)
  }

  /** The words laid out back to back from i up to the end of the array. */
  predicate WordsLaid(ws: seq<CmdWord>, t: seq<Token>, i: nat)
    decreases |ws|
  {
    if ws == [] then i == |t|
    else WordLaid(ws[0], t, i) && WordsLaid(ws[1..], t, i + WordSize(ws[0]))
  }

  /** What a word becomes: a bare word as written; a word with
      substitutions as one double-quoted word whose references are replaced
      by their lookups. */
  function WordText(w: CmdWord, blocks: seq<Block>): Result<string>
  {
    match w
    case Bare(s) => Ok(s)
    case Compound(ps) =>
      match Quoted(ps, blocks)
      case Err(e) => Err(e)
      case Ok(v) => Ok("\"" + v + "\"")
  }

  /** Two results joined, the first error winning. */
  function Then(a: Result<string>, b: Result<string>): Result<string>
  {
    match a
    case Err(e) => Err(e)
    case Ok(x) => Prepend(x, b)
  }

  /** The words after the first, each after one space. */
  function Spaced(ws: seq<CmdWord>, blocks: seq<Block>): Result<string>
    decreases |ws|
  {
    if ws == [] then Ok([])
    else Prepend(" ", Then(WordText(ws[0], blocks), Spaced(ws[1..], blocks)))
  }

  /** What a command means: its words joined by single spaces, or the first
      word's error. */
  function CommandText(ws: seq<CmdWord>, blocks: seq<Block>): Result<string>
  {
    if ws == [] then Ok([])
    else Then(WordText(ws[0], blocks), Spaced(ws[1..], blocks))
  }

  // ---------------------------------------------------------------- proofs

  /** One unfolding of the corrected lowering for each token kind a laid-out
      word holds. */
  lemma {:induction false} FixedCopyStep(t: seq<Token>, k: nat, blocks: seq<Block>, acc: string)
    requires k < |t| && (t[k].kind == Text || t[k].kind == Bs)
    ensures FixedToken(Parse(t), false, k, blocks, acc) == Ok(Emit(acc + t[k].text, k + 1))
  {
  }

  lemma {:induction false} FixedVariableStep(t: seq<Token>, k: nat, blocks: seq<Block>, acc: string)
    requires k < |t| && t[k].kind == Variable
    ensures FixedToken(Parse(t), false, k, blocks, acc) ==
      match VariableToken(Parse(t), k, blocks, acc)
      case Err(e) => Err(e)
      case Ok(a) => Ok(Emit(a, k + 2))
  {
  }

  lemma {:induction false} FixedWordStep(t: seq<Token>, i: nat, blocks: seq<Block>, acc: string)
    requires i < |t| && t[i].kind == Word
    ensures FixedToken(Parse(t), false, i, blocks, acc) ==
      match FixedWordLoop(Parse(t), false, i + 1, i + 1 + t[i].numComponents, blocks, acc + "\"")
      case Err(e) => Err(e)
      case Ok(w) => Ok(Emit(w.text + "\"", w.next))
  {
  }

  /** One iteration of the corrected WORD loop. */
  lemma {:induction false} FixedLoopStep(t: seq<Token>, k: nat, end: nat, blocks: seq<Block>, acc: string, w: Emit)
    requires k < end && FixedToken(Parse(t), false, k, blocks, acc) == Ok(w)
    ensures FixedWordLoop(Parse(t), false, k, end, blocks, acc) == FixedWordLoop(Parse(t), false, w.next, end, blocks, w.text)
  {
  }

  /** The components of a word, lowered one after the other outside `expr`,
      append what the quoted string of its pieces means. */
  lemma {:induction false} PiecesLowering(ps: seq<Piece>, t: seq<Token>, k: nat, blocks: seq<Block>, acc: string)
    requires PiecesLaidFrom(ps, t, k) && forall j :: 0 <= j < |ps| ==> !ps[j].Subst?
    ensures FixedWordLoop(Parse(t), false, k, k + PiecesSize(ps), blocks, acc) ==
      match Quoted(ps, blocks)
      case Err(e) => Err(e)
      case Ok(v) => Ok(Emit(acc + v, k + PiecesSize(ps)))
    decreases |ps|, 2
  {
    if ps == [] {
      assert acc + [] == acc;
    } else {
      var x := ps[0];
      var rest := ps[1..];
      var end := k + PiecesSize(ps);
      assert end == k + PieceSize(x) + PiecesSize(rest);
      assert forall j :: 0 <= j < |rest| ==> !rest[j].Subst? by {
        forall j | 0 <= j < |rest| ensures !rest[j].Subst? {
          assert rest[j] == ps[j + 1];
        }
      }
      assert !x.Subst?;
      PiecesStep(x, rest, t, k, end, blocks, acc);
    }
  }

  /** The first piece of a word, lowered, and the loop over the rest. */
  lemma {:induction false} PiecesStep(x: Piece, rest: seq<Piece>, t: seq<Token>, k: nat, end: nat, blocks: seq<Block>, acc: string)
    requires !x.Subst? && PieceLaid(x, t, k) && PiecesLaidFrom(rest, t, k + PieceSize(x))
    requires forall j :: 0 <= j < |rest| ==> !rest[j].Subst?
    requires end == k + PieceSize(x) + PiecesSize(rest)
    ensures FixedWordLoop(Parse(t), false, k, end, blocks, acc) ==
      match Quoted([x] + rest, blocks)
      case Err(e) => Err(e)
      case Ok(v) => Ok(Emit(acc + v, end))
    decreases |rest| + 1, 1
  {
    assert ([x] + rest)[0] == x && ([x] + rest)[1..] == rest;
    if x.Ref? {
      RefStep(x.name, rest, t, k, end, blocks, acc);
    } else {
      assert Quoted([x] + rest, blocks) == Prepend(x.text, Quoted(rest, blocks));
      CopyStep(x, rest, t, k, end, blocks, acc);
    }
  }

  /** ... for characters or a backslash sequence, copied as written ... */
  lemma {:induction false} CopyStep(x: Piece, rest: seq<Piece>, t: seq<Token>, k: nat, end: nat, blocks: seq<Block>, acc: string)
    requires (x.Chars? || x.Escape?) && PieceLaid(x, t, k) && PiecesLaidFrom(rest, t, k + 1)
    requires forall j :: 0 <= j < |rest| ==> !rest[j].Subst?
    requires end == k + 1 + PiecesSize(rest)
    ensures FixedWordLoop(Parse(t), false, k, end, blocks, acc) ==
      match Prepend(x.text, Quoted(rest, blocks))
      case Err(e) => Err(e)
      case Ok(v) => Ok(Emit(acc + v, end))
    decreases |rest| + 1, 0
  {
    assert t[k].text == x.text;
    FixedCopyStep(t, k, blocks, acc);
    PiecesLowering(rest, t, k + 1, blocks, acc + x.text);
    PieceThen(t, k, end, blocks, acc, x.text, k + 1, Quoted(rest, blocks));
  }

  /** ... and for a reference, replaced by its lookup. */
  lemma {:induction false} RefStep(name: string, rest: seq<Piece>, t: seq<Token>, k: nat, end: nat, blocks: seq<Block>, acc: string)
    requires PieceLaid(Ref(name), t, k) && PiecesLaidFrom(rest, t, k + 2)
    requires forall j :: 0 <= j < |rest| ==> !rest[j].Subst?
    requires end == k + 2 + PiecesSize(rest)
    ensures FixedWordLoop(Parse(t), false, k, end, blocks, acc) ==
      match Quoted([Ref(name)] + rest, blocks)
      case Err(e) => Err(e)
      case Ok(v) => Ok(Emit(acc + v, end))
    decreases |rest| + 1, 0
  {
    QuotedRef(name, rest, blocks);
    FixedRefToken(t, k, name, blocks, acc);
    match VarRef(SplitPath(name), blocks) {
      case Err(e) =>
        FixedLoopErr(t, k, end, blocks, acc, e);
      case Ok(v) =>
        PiecesLowering(rest, t, k + 2, blocks, acc + v);
        PieceThen(t, k, end, blocks, acc, v, k + 2, Quoted(rest, blocks));
    }
  }

  /** A reference at the front of a quoted string. */
  lemma {:induction false} QuotedRef(name: string, rest: seq<Piece>, blocks: seq<Block>)
    ensures Quoted([Ref(name)] + rest, blocks) ==
      match VarRef(SplitPath(name), blocks)
      case Err(e) => Err(e)
      case Ok(v) => Prepend(v, Quoted(rest, blocks))
  {
    assert ([Ref(name)] + rest)[0] == Ref(name) && ([Ref(name)] + rest)[1..] == rest;
  }

  /** A laid-out reference lowers to its lookup and moves past its TEXT. */
  lemma {:induction false} FixedRefToken(t: seq<Token>, k: nat, name: string, blocks: seq<Block>, acc: string)
    requires PieceLaid(Ref(name), t, k)
    ensures FixedToken(Parse(t), false, k, blocks, acc) ==
      match VarRef(SplitPath(name), blocks)
      case Err(e) => Err(e)
      case Ok(v) => Ok(Emit(acc + v, k + 2))
  {
    assert t[k + 1].text == name;
    FixedVariableStep(t, k, blocks, acc);
  }

  /** A failing component ends the WORD loop with its error. */
  lemma {:induction false} FixedLoopErr(t: seq<Token>, k: nat, end: nat, blocks: seq<Block>, acc: string, e: Error)
    requires k < end && FixedToken(Parse(t), false, k, blocks, acc) == Err(e)
    ensures FixedWordLoop(Parse(t), false, k, end, blocks, acc) == Err(e)
  {
  }

  /** A component that appends s, followed by the loop from n that appends
      what r holds, appends s and then r. */
  lemma {:induction false} PieceThen(t: seq<Token>, k: nat, end: nat, blocks: seq<Block>, acc: string, s: string, n: nat, r: Result<string>)
    requires k < end && FixedToken(Parse(t), false, k, blocks, acc) == Ok(Emit(acc + s, n))
    requires FixedWordLoop(Parse(t), false, n, end, blocks, acc + s) ==
      match r
      case Err(e) => Err(e)
      case Ok(v) => Ok(Emit(acc + s + v, end))
    ensures FixedWordLoop(Parse(t), false, k, end, blocks, acc) ==
      match Prepend(s, r)
      case Err(e) => Err(e)
      case Ok(v) => Ok(Emit(acc + v, end))
  {
    FixedLoopStep(t, k, end, blocks, acc, Emit(acc + s, n));
    if r.Ok? {
      ConcatAssoc(acc, s, r.value);
    }
  }

  /** Outside `expr`, a laid-out word is lowered to what it means, and the
      cursor lands on the first token after it. */
  lemma {:induction false} FixedWordToken(w: CmdWord, t: seq<Token>, i: nat, blocks: seq<Block>, acc: string)
    requires WordLaid(w, t, i)
    ensures FixedToken(Parse(t), false, i, blocks, acc) ==
      match WordText(w, blocks)
      case Err(e) => Err(e)
      case Ok(v) => Ok(Emit(acc + v, i + WordSize(w)))
  {
    match w {
      case Bare(s) =>
        FixedCopyStep(t, i + 1, blocks, acc);
      case Compound(ps) =>
        FixedWordStep(t, i, blocks, acc);
        PiecesLowering(ps, t, i + 1, blocks, acc + "\"");
        match Quoted(ps, blocks) {
          case Err(e) =>
          case Ok(v) =>
            ConcatAssoc(acc, "\"" + v, "\"");
            ConcatAssoc(acc, "\"", v);
        }
    }
  }

  /** One iteration of the corrected command loop. */
  lemma {:induction false} FixedCommandStep(t: seq<Token>, i: nat, first: bool, blocks: seq<Block>, acc: string)
    requires i < |t|
    ensures FixedCommandLoop(Parse(t), i, first, false, blocks, acc) ==
      match FixedToken(Parse(t), false, i, blocks, [])
      case Err(e) => Err(e)
      case Ok(w) =>
        FixedCommandLoop(Parse(t), w.next, false, first && StartsWithExpr(w.text), blocks,
          (if first then acc else acc + " ") + w.text)
  {
  }

  /** The command loop from word k on appends the remaining words, each
      after one space. */
  lemma {:induction false} FixedWordsFrom(ws: seq<CmdWord>, t: seq<Token>, i: nat, blocks: seq<Block>, acc: string)
    requires WordsLaid(ws, t, i)
    ensures FixedCommandLoop(Parse(t), i, false, false, blocks, acc) == Prepend(acc, Spaced(ws, blocks))
    decreases |ws|
  {
    if ws == [] {
      assert acc + [] == acc;
    } else {
      var w := ws[0];
      var rest := Spaced(ws[1..], blocks);
      assert Spaced(ws, blocks) == Prepend(" ", Then(WordText(w, blocks), rest));
      FixedWordToken(w, t, i, blocks, []);
      FixedCommandStep(t, i, false, blocks, acc);
      match WordText(w, blocks) {
        case Err(e) =>
        case Ok(v) =>
          assert [] + v == v;
          FixedWordsFrom(ws[1..], t, i + WordSize(w), blocks, acc + " " + v);
          if rest.Ok? {
            ConcatAssoc(" ", v, rest.value);
            ConcatAssoc(acc, " " + v, rest.value);
            ConcatAssoc(acc, " ", v);
          }
      }
    }
  }

  /** A word with substitutions never starts with `expr`: its text opens
      with a double quote. */
  lemma {:induction false} CompoundNotExpr(ps: seq<Piece>, blocks: seq<Block>)
    requires WordText(Compound(ps), blocks).Ok?
    ensures !StartsWithExpr(WordText(Compound(ps), blocks).value)
  {
    var u := WordText(Compound(ps), blocks).value;
    assert u[0] == '"';
  }

  /** The corrected command compiler emits each word once, a word with
      substitutions as one quoted word, all joined by single spaces; the
      first failing word's error otherwise. */
  lemma {:induction false} FixedCommandJoinsWords(ws: seq<CmdWord>, t: seq<Token>, blocks: seq<Block>, acc: string)
    requires WordsLaid(ws, t, 0)
    requires ws != [] && ws[0].Bare? ==> !StartsWithExpr(ws[0].text)
    ensures FixedCompileCommand(Parse(t), blocks, acc) == Prepend(acc, CommandText(ws, blocks))
  {
    if ws == [] {
      assert acc + [] == acc;
    } else {
      var w := ws[0];
      var rest := Spaced(ws[1..], blocks);
      assert CommandText(ws, blocks) == Then(WordText(w, blocks), rest);
      FixedWordToken(w, t, 0, blocks, []);
      FixedCommandStep(t, 0, true, blocks, acc);
      match WordText(w, blocks) {
        case Err(e) =>
        case Ok(v) =>
          assert [] + v == v;
          if w.Compound? {
            CompoundNotExpr(w.pieces, blocks);
          }
          FixedWordsFrom(ws[1..], t, WordSize(w), blocks, acc + v);
          if rest.Ok? {
            ConcatAssoc(acc, v, rest.value);
          }
      }
    }
  }

  /** Each of a list of plain words as a bare word. */
  function Bares(ws: seq<string>): seq<CmdWord>
    decreases |ws|
  {
    if ws == [] then [] else [Bare(ws[0])] + Bares(ws[1..])
  }

  /** Simple words from word k on are bare words laid out back to back. */
  lemma {:induction false} BaresLaid(ws: seq<string>, t: seq<Token>, k: nat)
    requires SimpleWordsLaid(ws, t) && k <= |ws|
    ensures WordsLaid(Bares(ws[k..]), t, 2 * k)
    decreases |ws| - k
  {
    if k < |ws| {
      assert ws[k..][0] == ws[k] && ws[k..][1..] == ws[k + 1..];
      assert t[2 * k] == Tok(SimpleWord, ws[k], 1) && t[2 * k + 1] == Tok(Text, ws[k], 0);
      BaresLaid(ws, t, k + 1);
    } else {
      assert ws[k..] == [];
    }
  }

  /** Bare words after the first mean the words, each after one space. */
  lemma {:induction false} BaresSpaced(ws: seq<string>, blocks: seq<Block>)
    ensures Spaced(Bares(ws), blocks) == Ok(Prefixed(ws, " "))
    decreases |ws|
  {
    if ws != [] {
      assert Bares(ws)[0] == Bare(ws[0]) && Bares(ws)[1..] == Bares(ws[1..]);
      BaresSpaced(ws[1..], blocks);
      assert " " + (ws[0] + Prefixed(ws[1..], " ")) == " " + ws[0] + Prefixed(ws[1..], " ");
    }
  }

  /** Where the as-written compiler is right, on commands of simple words,
      the corrected one agrees with it. */
  lemma {:induction false} FixedAgreesOnSimpleWords(ws: seq<string>, t: seq<Token>, blocks: seq<Block>, acc: string)
    requires SimpleWordsLaid(ws, t) && (ws != [] ==> !StartsWithExpr(ws[0]))
    ensures FixedCompileCommand(Parse(t), blocks, acc) == CompileCommand(Parse(t), blocks, acc)
    ensures FixedCompileCommand(Parse(t), blocks, acc) == Ok(acc + Join(ws, " "))
  {
    CommandJoinsWords(ws, t, blocks, acc);
    BaresLaid(ws, t, 0);
    assert ws[0..] == ws;
    FixedCommandJoinsWords(Bares(ws), t, blocks, acc);
    if ws != [] {
      assert Bares(ws)[0] == Bare(ws[0]) && Bares(ws)[1..] == Bares(ws[1..]);
      BaresSpaced(ws[1..], blocks);
    } else {
      assert acc + [] == acc;
    }
  }

  // ------------------------------------------------------------ the finding

  /** `set x "hello $name"` as Tcl_ParseCommand lays it out: the third word
      is a WORD of three components. */
  function HelloCommand(): seq<Token>
  {
    [Tok(SimpleWord, "set", 1), Tok(Text, "set", 0),
     Tok(SimpleWord, "x", 1), Tok(Text, "x", 0),
     Tok(Word, "\"hello $name\"", 3), Tok(Text, "hello ", 0),
     Tok(Variable, "$name", 1), Tok(Text, "name", 0)]
  }

  /** As written, the WORD loop lowers `hello ` and then the TEXT `name`,
      skipping the VARIABLE token ... */
  lemma {:induction false} HelloWordAsWritten()
    ensures CommandToken(Parse(HelloCommand()), false, 4, [], []) == Ok(Emit("hello name", 9))
  {
    var t := HelloCommand();
    var p := Parse(t);
    assert [] + "hello " == "hello " && "hello " + "name" == "hello name";
    assert t[5] == Tok(Text, "hello ", 0) && t[7] == Tok(Text, "name", 0);
    assert CommandToken(p, false, 5, [], []) == Ok(Emit("hello ", 6));
    assert CommandToken(p, false, 7, [], "hello ") == Ok(Emit("hello name", 8));
    assert WordLoop(p, false, 4, 8, [], "hello name") == Ok(Emit("hello name", 8));
    assert WordLoop(p, false, 4, 6, [], "hello ") == Ok(Emit("hello name", 8));
    assert WordLoop(p, false, 4, 4, [], []) == Ok(Emit("hello name", 8));
  }

  /** ... so the reference is copied as its bare name and the word falls
      apart into two words. */
  lemma {:induction false} WordLoopSkipsComponents()
    ensures CompileCommand(Parse(HelloCommand()), [], []) == Ok("set x hello name")
  {
    var t := HelloCommand();
    var p := Parse(t);
    assert [] + "set" == "set" && [] + "x" == "x";
    assert t[1] == Tok(Text, "set", 0) && t[3] == Tok(Text, "x", 0);
    assert CommandToken(p, false, 1, [], []) == Ok(Emit("set", 2));
    assert CommandToken(p, false, 0, [], []) == Ok(Emit("set", 3));
    assert CommandToken(p, false, 3, [], []) == Ok(Emit("x", 4));
    HelloWordAsWritten();
    assert !StartsWithExpr("set");
    assert "set" + " " == "set " && "set " + "x" == "set x";
    assert "set x" + " " == "set x " && "set x " + "hello name" == "set x hello name";
    assert CommandLoop(p, 9, false, false, [], "set x hello name") == Ok("set x hello name");
    assert CommandLoop(p, 4, false, false, [], "set x") == Ok("set x hello name");
    assert CommandLoop(p, 3, false, false, [], "set") == Ok("set x hello name");
  }

  /** `set x "hello $name"` as a list of words. */
  function HelloWords(): seq<CmdWord>
  {
    [Bare("set"), Bare("x"), Compound([Chars("hello "), Ref("name")])]
  }

  lemma {:induction false} HelloLaid()
    ensures WordsLaid(HelloWords(), HelloCommand(), 0)
  {
    var ps := [Chars("hello "), Ref("name")];
    var t := HelloCommand();
    assert ps[1..] == [Ref("name")] && [Ref("name")][1..] == [];
    assert PiecesSize(ps) == 3;
    assert PiecesLaidFrom(ps, t, 5);
    var ws := HelloWords();
    assert ws[1..] == [Bare("x"), Compound(ps)];
    assert ws[1..][1..] == [Compound(ps)];
    assert ws[1..][1..][1..] == [];
    assert WordLaid(Compound(ps), t, 4);
  }

  /** A top-level `name` is looked up in the template data. */
  lemma {:induction false} NameLookup()
    ensures VarRef(SplitPath("name"), []) == Ok(DictGet("__data__", ["name"]))
  {
    SplitPathStep("name", 4);
    assert Resolve(["name"], []) == TopLevel;
  }

  /** The word `"hello $name"` at the top level. */
  lemma {:induction false} HelloWordText()
    ensures WordText(Compound([Chars("hello "), Ref("name")]), []) ==
      Ok("\"" + ("hello " + DictGet("__data__", ["name"])) + "\"")
  {
    var ps := [Chars("hello "), Ref("name")];
    var v := DictGet("__data__", ["name"]);
    NameLookup();
    assert ps[1..] == [Ref("name")] && [Ref("name")][1..] == [];
    assert Quoted([Ref("name")], []) == Ok(v + []);
    assert v + [] == v;
    assert Quoted(ps, []) == Ok("hello " + v);
  }

  /** The words after `set`, each after one space. */
  lemma {:induction false} HelloTail(w: string)
    requires w == "\"" + ("hello " + DictGet("__data__", ["name"])) + "\""
    ensures Spaced(HelloWords()[1..], []) == Ok(" x " + w)
  {
    var ws := HelloWords();
    HelloWordText();
    assert ws[1..] == [Bare("x"), ws[2]] && ws[1..][1..] == [ws[2]] && ws[1..][1..][1..] == [];
    assert w + [] == w;
    assert Spaced([ws[2]], []) == Ok(" " + w);
    assert " " + ("x" + (" " + w)) == " x " + w;
  }

  /** The pieces of the expected text, put together. */
  lemma {:induction false} HelloJoin(v: string)
    ensures "set" + (" x " + ("\"" + ("hello " + v) + "\"")) == "set x \"hello " + v + "\""
  {
    assert "set" + " x " + "\"" == "set x \"";
    assert "set x \"" + "hello " == "set x \"hello ";
  }

  /** What `set x "hello $name"` means at the top level. */
  lemma {:induction false} HelloText()
    ensures CommandText(HelloWords(), []) == Ok("set x \"hello " + DictGet("__data__", ["name"]) + "\"")
  {
    var v := DictGet("__data__", ["name"]);
    var w := "\"" + ("hello " + v) + "\"";
    HelloTail(w);
    assert HelloWords()[0] == Bare("set");
    HelloJoin(v);
  }

  /** Corrected, the same command keeps the word whole and looks the name
      up in the template data. */
  lemma {:induction false} WordLoopCorrected()
    ensures FixedCompileCommand(Parse(HelloCommand()), [], []) ==
      Ok("set x \"hello " + DictGet("__data__", ["name"]) + "\"")
  {
    HelloLaid();
    FixedCommandJoinsWords(HelloWords(), HelloCommand(), [], []);
    HelloText();
    assert [] + ("set x \"hello " + DictGet("__data__", ["name"]) + "\"") == "set x \"hello " + DictGet("__data__", ["name"]) + "\"";
  }
}
