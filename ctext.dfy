/** The two character-level passes of the C backend (src/compiler_c.c):
    the sentinel-stream transform of thtml_CTransformCmd, which turns the
    intermediate code into C statements, and the pre-escaping loop of
    thtml_CCompileTemplateTextCmd, which makes template text fit for
    Tcl_ParseQuotedString. */
module CText {
  import opened Gen
  import opened Common

  // ------------------------------------------------------------ the transform

  /** The statement a text region becomes. */
  function TextStatement(text: string): string
  {
    "\nTcl_DStringAppend(__ds_default__, \"" + Escaped(text) + "\", -1);\n"
  }

  /** Where the transform loop stands: expecting the STX that opens a
      segment, inside a text region that began at `start`, or inside a code
      region that began at `start`. */
  datatype Mode = Expect | InText(start: nat) | InCode(start: nat)

  function Rank(m: Mode): nat
  {
    if m.InCode? then 1 else 0
  }

  /** The transform loop from position q, with `acc` emitted so far, one
      character at a time.  A text region ends at its ETX and becomes a
      statement; a code region is copied when an STX ends it, and is dropped
      when the input ends first.  Input that ends inside a text region has
      no end marker. */
  function Scan(s: string, q: nat, m: Mode, acc: string): (r: Result<string>)
    requires q <= |s|
    requires m.InText? || m.InCode? ==> m.start <= q
    decreases |s| - q, Rank(m)
  {
    if q == |s| then
      if m.InText? then Err(NoEndMarker) else Ok(acc)
    else match m
      case Expect =>
        if s[q] != STX then Err(NoStartMarker) else Scan(s, q + 1, InText(q + 1), acc)
      case InText(start) =>
        if s[q] == ETX then Scan(s, q + 1, InCode(q + 1), acc + TextStatement(s[start..q]))
        else Scan(s, q + 1, m, acc)
      case InCode(start) =>
        if s[q] == STX then Scan(s, q, Expect, acc + s[start..q])
        else Scan(s, q + 1, m, acc)
  }

  function Transform(s: string): Result<string>
  {
    Scan(s, 0, Expect, [])
  }

  /** A region pair of well-formed intermediate code: a text region (which
      cannot hold ETX) and the code that follows it (which cannot hold STX). */
  datatype Region = Region(text: string, code: string)

  predicate WellFormed(r: Region)
  {
    (forall i :: 0 <= i < |r.text| ==> r.text[i] != ETX) &&
    (forall i :: 0 <= i < |r.code| ==> r.code[i] != STX)
  }

  /** The intermediate code for a list of regions. */
  function Stream(rs: seq<Region>): string
  {
    if rs == [] then [] else Segment(rs[0]) + Stream(rs[1..])
  }

  /** What the transform is meant to emit: each text region as a statement,
      each code region as it is, except the code after the last text region,
      which nothing follows and which is dropped. */
  function Emitted(rs: seq<Region>): string
  {
    if rs == [] then []
    else if |rs| == 1 then TextStatement(rs[0].text)
    else TextStatement(rs[0].text) + rs[0].code + Emitted(rs[1..])
  }

  /** Inside a text region the scan passes over everything but ETX. */
  lemma {:induction false} ScanText(s: string, start: nat, q: nat, k: nat, acc: string)
    requires start <= q <= k <= |s|
    requires forall i :: q <= i < k ==> s[i] != ETX
    ensures Scan(s, q, InText(start), acc) == Scan(s, k, InText(start), acc)
    decreases k - q
  {
    if q < k {
      ScanText(s, start, q + 1, k, acc);
    }
  }

  /** Inside a code region the scan passes over everything but STX. */
  lemma {:induction false} ScanCode(s: string, start: nat, q: nat, k: nat, acc: string)
    requires start <= q <= k <= |s|
    requires forall i :: q <= i < k ==> s[i] != STX
    ensures Scan(s, q, InCode(start), acc) == Scan(s, k, InCode(start), acc)
    decreases k - q
  {
    if q < k {
      ScanCode(s, start, q + 1, k, acc);
    }
  }

  /** One segment: STX, a text region up to its ETX, a code region up to
      the next STX or the end. */
  lemma {:induction false} ScanSegment(s: string, p: nat, q: nat, n: nat, acc: string)
    requires p < q < n <= |s|
    requires s[p] == STX && s[q] == ETX
    requires forall i :: p < i < q ==> s[i] != ETX
    requires forall i :: q < i < n ==> s[i] != STX
    requires n < |s| ==> s[n] == STX
    ensures n == |s| ==> Scan(s, p, Expect, acc) == Ok(acc + TextStatement(s[p + 1..q]))
    ensures n < |s| ==>
      Scan(s, p, Expect, acc) == Scan(s, n, Expect, acc + TextStatement(s[p + 1..q]) + s[q + 1..n])
  {
    ScanText(s, p + 1, p + 1, q, acc);
    ScanCode(s, q + 1, q + 1, n, acc + TextStatement(s[p + 1..q]));
  }

  /** The characters of one segment: STX, the text, ETX, the code. */
  function Segment(r: Region): string
  {
    [STX] + r.text + [ETX] + r.code
  }

  /** The segment for region `r` at position p of `s`, followed by the end
      of the input or by the next STX. */
  lemma {:induction false} ScanRegion(s: string, p: nat, r: Region, acc: string)
    requires WellFormed(r)
    requires p + |Segment(r)| <= |s| && s[p..p + |Segment(r)|] == Segment(r)
    requires p + |Segment(r)| < |s| ==> s[p + |Segment(r)|] == STX
    ensures p + |Segment(r)| == |s| ==> Scan(s, p, Expect, acc) == Ok(acc + TextStatement(r.text))
    ensures p + |Segment(r)| < |s| ==>
      Scan(s, p, Expect, acc) == Scan(s, p + |Segment(r)|, Expect, acc + TextStatement(r.text) + r.code)
  {
    var seg := Segment(r);
    var q := p + 1 + |r.text|;
    var n := p + |seg|;
    assert forall i :: p <= i < n ==> s[i] == seg[i - p];
    assert seg[1..1 + |r.text|] == r.text && seg[|r.text| + 2..] == r.code;
    assert s[p + 1..q] == r.text by {
      assert s[p + 1..q] == s[p..n][1..1 + |r.text|];
    }
    assert s[q + 1..n] == r.code by {
      assert s[q + 1..n] == s[p..n][|r.text| + 2..];
    }
    ScanSegment(s, p, q, n, acc);
  }

  /** A segment placed after `pre` and before `rest`. */
  lemma {:induction false} SegmentAt(pre: string, r: Region, rest: string)
    ensures var s := pre + Segment(r) + rest;
      |s| == |pre| + |Segment(r)| + |rest| && s[|pre|..|pre| + |Segment(r)|] == Segment(r) &&
      (rest != [] ==> s[|pre| + |Segment(r)|] == rest[0])
  {
    var s := pre + Segment(r) + rest;
    assert s[|pre|..|pre| + |Segment(r)|] == (pre + Segment(r))[|pre|..];
  }

  /** A non-empty stream opens with STX. */
  lemma {:induction false} StreamStart(rs: seq<Region>)
    requires rs != []
    ensures Stream(rs) == Segment(rs[0]) + Stream(rs[1..]) && Stream(rs)[0] == STX
  {
    assert Segment(rs[0])[0] == STX;
  }

  /** The scan over the first segment of a stream, followed by the rest of
      the stream and then by `tail`. */
  lemma {:induction false} ScanFirst(rs: seq<Region>, pre: string, tail: string, acc: string)
    requires rs != [] && WellFormed(rs[0])
    requires |rs| == 1 && tail != [] ==> tail[0] == STX
    ensures var s := pre + (Stream(rs) + tail);
      s == pre + Segment(rs[0]) + (Stream(rs[1..]) + tail) &&
      (|rs| == 1 && tail == [] ==> Scan(s, |pre|, Expect, acc) == Ok(acc + TextStatement(rs[0].text))) &&
      (|rs| > 1 || tail != [] ==>
         Scan(s, |pre|, Expect, acc) ==
         Scan(s, |pre + Segment(rs[0])|, Expect, acc + TextStatement(rs[0].text) + rs[0].code))
  {
    var r := rs[0];
    var rest := Stream(rs[1..]) + tail;
    StreamStart(rs);
    ConcatAssoc(Segment(r), Stream(rs[1..]), tail);
    ConcatAssoc(pre, Segment(r), rest);
    SegmentAt(pre, r, rest);
    if |rs| > 1 {
      StreamStart(rs[1..]);
    }
    ScanRegion(pre + Segment(r) + rest, |pre|, r, acc);
  }

  lemma {:induction false} TransformStream(rs: seq<Region>, pre: string, acc: string)
    requires forall k :: 0 <= k < |rs| ==> WellFormed(rs[k])
    ensures Scan(pre + Stream(rs), |pre|, Expect, acc) == Ok(acc + Emitted(rs))
    decreases |rs|
  {
    if rs == [] {
      assert pre + Stream(rs) == pre;
      assert acc + Emitted(rs) == acc;
    } else {
      var r := rs[0];
      assert Stream(rs) + [] == Stream(rs);
      assert Stream(rs[1..]) + [] == Stream(rs[1..]);
      ScanFirst(rs, pre, [], acc);
      if |rs| > 1 {
        TransformStream(rs[1..], pre + Segment(r), acc + TextStatement(r.text) + r.code);
        EmittedAssoc(acc, r, Emitted(rs[1..]));
      }
    }
  }

  lemma {:induction false} EmittedAssoc(acc: string, r: Region, e: string)
    ensures acc + TextStatement(r.text) + r.code + e == acc + (TextStatement(r.text) + r.code + e)
  {
    ConcatAssoc(acc + TextStatement(r.text), r.code, e);
    ConcatAssoc(acc, TextStatement(r.text), r.code + e);
    ConcatAssoc(TextStatement(r.text), r.code, e);
  }

  /** Well-formed intermediate code becomes its statements, code regions
      copied verbatim, and the trailing code dropped. */
  lemma {:induction false} TransformWellFormed(rs: seq<Region>)
    requires forall k :: 0 <= k < |rs| ==> WellFormed(rs[k])
    ensures Transform(Stream(rs)) == Ok(Emitted(rs))
  {
    TransformStream(rs, [], []);
    assert [] + Stream(rs) == Stream(rs);
    assert [] + Emitted(rs) == Emitted(rs);
  }

  /** Text that does not open with STX is refused. */
  lemma {:induction false} TransformNoStart(s: string)
    requires s != [] && s[0] != STX
    ensures Transform(s) == Err(NoStartMarker)
  {
  }

  /** A final text region without its ETX is refused, whatever came before. */
  lemma {:induction false} TransformNoEnd(rs: seq<Region>, text: string)
    requires forall k :: 0 <= k < |rs| ==> WellFormed(rs[k])
    requires forall i :: 0 <= i < |text| ==> text[i] != ETX
    ensures Transform(Stream(rs) + [STX] + text) == Err(NoEndMarker)
  {
    TransformNoEndFrom(rs, [], [], text);
    assert [] + (Stream(rs) + ([STX] + text)) == Stream(rs) + [STX] + text;
  }

  lemma {:induction false} TransformNoEndFrom(rs: seq<Region>, pre: string, acc: string, text: string)
    requires forall k :: 0 <= k < |rs| ==> WellFormed(rs[k])
    requires forall i :: 0 <= i < |text| ==> text[i] != ETX
    ensures Scan(pre + (Stream(rs) + ([STX] + text)), |pre|, Expect, acc) == Err(NoEndMarker)
    decreases |rs|
  {
    var tail := [STX] + text;
    if rs == [] {
      var s := pre + tail;
      assert pre + (Stream(rs) + tail) == s;
      assert s[|pre|] == STX;
      assert forall i :: |pre| + 1 <= i < |s| ==> s[i] == text[i - |pre| - 1];
      ScanText(s, |pre| + 1, |pre| + 1, |s|, acc);
    } else {
      var r := rs[0];
      ScanFirst(rs, pre, tail, acc);
      TransformNoEndFrom(rs[1..], pre + Segment(r), acc + TextStatement(r.text) + r.code, text);
    }
  }

  /** Empty intermediate code gives empty C code. */
  lemma {:induction false} TransformEmpty()
    ensures Transform([]) == Ok([])
  {
  }

  /** The inner loop over a text region from p: q stops at the first ETX,
      where the region's statement is appended, or at the end of the input. */
  method TextRegion(s: string, p: nat, ds: DString) returns (q: nat)
    requires p <= |s|
    modifies ds
    ensures p <= q <= |s| && forall i :: p <= i < q ==> s[i] != ETX
    ensures q < |s| ==> s[q] == ETX && ds.text == old(ds.text) + TextStatement(s[p..q])
    ensures q == |s| ==> ds.text == old(ds.text)
  {
    q := p;
    while q < |s|
      invariant p <= q <= |s| && forall i :: p <= i < q ==> s[i] != ETX
      invariant ds.text == old(ds.text)
    {
      if s[q] == ETX {
        ds.Append("\nTcl_DStringAppend(__ds_default__, \"");
        AppendEscaped(s[p..q], ds);
        ds.Append("\", -1);\n");
        return;
      }
      q := q + 1;
    }
  }

  /** The inner loop over a code region from p: q stops at the next STX,
      where the region is appended as it is, or at the end of the input. */
  method CodeRegion(s: string, p: nat, ds: DString) returns (q: nat)
    requires p <= |s|
    modifies ds
    ensures p <= q <= |s| && forall i :: p <= i < q ==> s[i] != STX
    ensures q < |s| ==> s[q] == STX && ds.text == old(ds.text) + s[p..q]
    ensures q == |s| ==> ds.text == old(ds.text)
  {
    q := p;
    while q < |s|
      invariant p <= q <= |s| && forall i :: p <= i < q ==> s[i] != STX
      invariant ds.text == old(ds.text)
    {
      if s[q] == STX {
        ds.Append(s[p..q]);
        return;
      }
      q := q + 1;
    }
  }

  /** The loop of thtml_CTransformCmd, with its cursors p and q over the input. */
  method TransformLoop(s: string) returns (r: Result<string>)
    ensures r == Transform(s)
  {
    var ds := new DString();
    var p := 0;
    while p < |s|
      invariant 0 <= p <= |s|
      invariant Scan(s, p, Expect, ds.text) == Transform(s)
      decreases |s| - p
    {
      if s[p] != STX {
        return Err(NoStartMarker);
      }
      p := p + 1;
      ghost var acc := ds.text;
      var q := TextRegion(s, p, ds);
      ScanText(s, p, p, q, acc);
      if q == |s| {
        return Err(NoEndMarker);
      }
      p := q + 1;
      acc := ds.text;
      q := CodeRegion(s, p, ds);
      ScanCode(s, p, p, q, acc);
      p := q;
    }
    return Ok(ds.text);
  }

  // ------------------------------------------------------------ pre-escaping

  /** The pre-escaping loop from position p at bracket depth `depth`.  Only
      interior positions (neither the first nor the last character) are
      escaped, and only at depth 0: a double quote gains a backslash, a
      backslash before `[` or `]` is kept with that bracket, which is then
      not counted, a backslash before a double quote is dropped (the quote
      itself is escaped next) and any other backslash is kept. */
  function PreEscapeFrom(s: string, p: nat, depth: int, acc: string): string
    requires p <= |s|
    decreases |s| - p
  {
    if p == |s| then acc
    else
      var c := s[p];
      var interior := 0 < p < |s| - 1 && depth == 0;
      var nextInterior := p + 1 < |s| - 1;
      if c == '[' then PreEscapeFrom(s, p + 1, depth + 1, acc + "[")
      else if c == ']' then PreEscapeFrom(s, p + 1, depth - 1, acc + "]")
      else if interior && c == '"' then PreEscapeFrom(s, p + 1, depth, acc + "\\\"")
      else if interior && c == '\\' then
        if nextInterior && s[p + 1] == '[' then PreEscapeFrom(s, p + 2, depth, acc + "\\[")
        else if nextInterior && s[p + 1] == ']' then PreEscapeFrom(s, p + 2, depth, acc + "\\]")
        else if nextInterior && s[p + 1] == '"' then PreEscapeFrom(s, p + 1, depth, acc)
        else PreEscapeFrom(s, p + 1, depth, acc + "\\")
      else PreEscapeFrom(s, p + 1, depth, acc + [c])
  }

  function PreEscape(s: string): string
  {
    PreEscapeFrom(s, 0, 0, [])
  }

  /** How a bracket moves the depth counter. */
  function Delta(c: char): int
  {
    if c == '[' then 1 else if c == ']' then -1 else 0
  }

  /** Bracket depth before position i: opening minus closing brackets. */
  function Depth(s: string, i: nat): int
    requires i <= |s|
  {
    if i == 0 then 0 else Depth(s, i - 1) + Delta(s[i - 1])
  }

  /** The depth as the loop counts it before position i: every bracket
      counts except one that the loop skips. */
  function EscDepth(s: string, i: nat): int
    requires i <= |s|
    decreases i, 1
  {
    if i == 0 then 0
    else EscDepth(s, i - 1) + (if SkippedBracket(s, i - 1) then 0 else Delta(s[i - 1]))
  }

  /** Position i is a bracket that the loop passes over together with the
      interior backslash at depth 0 before it; both are interior. */
  predicate SkippedBracket(s: string, i: nat)
    requires i < |s|
    decreases i, 0
  {
    1 < i < |s| - 1 && s[i - 1] == '\\' && (s[i] == '[' || s[i] == ']') && EscDepth(s, i - 1) == 0
  }

  /** The reference reading of the escaping, position by position: at an
      interior position at depth 0, a double quote is written as
      backslash-quote and a backslash before an interior double quote is
      dropped; every other character, brackets and the other backslashes
      included, stands for itself. */
  function EscapeAt(s: string, i: nat): string
    requires i < |s|
  {
    var interior := 0 < i < |s| - 1 && EscDepth(s, i) == 0;
    if interior && s[i] == '"' then "\\\""
    else if interior && s[i] == '\\' && i + 1 < |s| - 1 && s[i + 1] == '"' then []
    else [s[i]]
  }

  function EscapedFrom(s: string, i: nat): string
    requires i <= |s|
    decreases |s| - i
  {
    if i == |s| then [] else EscapeAt(s, i) + EscapedFrom(s, i + 1)
  }

  /** The loop from any position it reaches (every position but a skipped
      bracket) appends the reference text of the rest. */
  lemma {:induction false} PreEscapeMatchesReference(s: string, p: nat, acc: string)
    requires p <= |s|
    requires p < |s| ==> !SkippedBracket(s, p)
    ensures PreEscapeFrom(s, p, EscDepth(s, p), acc) == acc + EscapedFrom(s, p)
    decreases |s| - p, 2
  {
    if p == |s| {
      assert acc + [] == acc;
    } else if s[p] == '\\' && 0 < p < |s| - 1 && EscDepth(s, p) == 0 {
      EscapedBackslashStep(s, p, acc);
    } else {
      PlainStep(s, p, acc);
    }
  }

  /** One step of the loop at a character other than an interior
      backslash at depth 0. */
  lemma {:induction false} PlainStep(s: string, p: nat, acc: string)
    requires p < |s| && !SkippedBracket(s, p)
    requires !(s[p] == '\\' && 0 < p < |s| - 1 && EscDepth(s, p) == 0)
    ensures PreEscapeFrom(s, p, EscDepth(s, p), acc) == acc + EscapedFrom(s, p)
    decreases |s| - p, 0
  {
    var c := s[p];
    var d := EscDepth(s, p);
    var e := EscapeAt(s, p);
    var rest := EscapedFrom(s, p + 1);
    assert EscDepth(s, p + 1) == d + Delta(c);
    assert p + 1 < |s| ==> !SkippedBracket(s, p + 1);
    assert PreEscapeFrom(s, p, d, acc) == PreEscapeFrom(s, p + 1, d + Delta(c), acc + e);
    PreEscapeMatchesReference(s, p + 1, acc + e);
    assert acc + e + rest == acc + (e + rest);
  }

  /** One step of the loop at an interior backslash at depth 0. */
  lemma {:induction false} EscapedBackslashStep(s: string, p: nat, acc: string)
    requires 0 < p < |s| - 1 && s[p] == '\\' && EscDepth(s, p) == 0
    ensures PreEscapeFrom(s, p, EscDepth(s, p), acc) == acc + EscapedFrom(s, p)
    decreases |s| - p, 1
  {
    if p + 1 < |s| - 1 && (s[p + 1] == '[' || s[p + 1] == ']') {
      EscapedBracketStep(s, p, acc);
    } else {
      var e := BackslashLoop(s, p, acc);
      PreEscapeMatchesReference(s, p + 1, acc + e);
      ConcatAssoc(acc, e, EscapedFrom(s, p + 1));
    }
  }

  /** At an interior backslash at depth 0 that is not before a bracket,
      the loop appends the backslash's reference text `e` and moves on by
      one position, at depth 0. */
  lemma {:induction false} BackslashLoop(s: string, p: nat, acc: string) returns (e: string)
    requires 0 < p < |s| - 1 && s[p] == '\\' && EscDepth(s, p) == 0
    requires !(p + 1 < |s| - 1 && (s[p + 1] == '[' || s[p + 1] == ']'))
    ensures PreEscapeFrom(s, p, 0, acc) == PreEscapeFrom(s, p + 1, EscDepth(s, p + 1), acc + e)
    ensures EscapedFrom(s, p) == e + EscapedFrom(s, p + 1)
    ensures p + 1 < |s| ==> !SkippedBracket(s, p + 1)
  {
    assert EscDepth(s, p + 1) == 0;
    if p + 1 < |s| - 1 && s[p + 1] == '"' {
      e := [];
      assert EscapeAt(s, p) == [];
      assert acc + [] == acc;
    } else {
      e := "\\";
      assert EscapeAt(s, p) == "\\";
    }
  }

  /** One step of the loop at an interior `\\[` or `\\]` at depth 0. */
  lemma {:induction false} EscapedBracketStep(s: string, p: nat, acc: string)
    requires 0 < p && p + 1 < |s| - 1 && s[p] == '\\' && EscDepth(s, p) == 0
    requires s[p + 1] == '[' || s[p + 1] == ']'
    ensures PreEscapeFrom(s, p, EscDepth(s, p), acc) == acc + EscapedFrom(s, p)
    decreases |s| - p, 0
  {
    var pair := "\\" + [s[p + 1]];
    EscapedBracketKept(s, p);
    BracketPairLoop(s, p, acc);
    PreEscapeMatchesReference(s, p + 2, acc + pair);
    ConcatAssoc(acc, pair, EscapedFrom(s, p + 2));
  }

  /** The loop passes over an interior `\\[` or `\\]` at depth 0 in one
      step, keeping both characters. */
  lemma {:induction false} BracketPairLoop(s: string, p: nat, acc: string)
    requires 0 < p && p + 1 < |s| - 1 && s[p] == '\\'
    requires s[p + 1] == '[' || s[p + 1] == ']'
    ensures PreEscapeFrom(s, p, 0, acc) == PreEscapeFrom(s, p + 2, 0, acc + ("\\" + [s[p + 1]]))
  {
    if s[p + 1] == '[' {
      assert "\\[" == "\\" + ['['];
    } else {
      assert "\\]" == "\\" + [']'];
    }
  }

  /** The pre-escaping of any text is its reference reading. */
  lemma {:induction false} PreEscapeIsReference(s: string)
    ensures PreEscape(s) == EscapedFrom(s, 0)
  {
    PreEscapeMatchesReference(s, 0, []);
    assert [] + EscapedFrom(s, 0) == EscapedFrom(s, 0);
  }

  /** An interior `\[` or `\]` at depth 0 is kept as two characters, and
      its bracket does not change the depth. */
  lemma {:induction false} EscapedBracketKept(s: string, i: nat)
    requires 0 < i && i + 1 < |s| - 1 && s[i] == '\\' && (s[i + 1] == '[' || s[i + 1] == ']')
    requires EscDepth(s, i) == 0
    ensures EscapedFrom(s, i) == "\\" + [s[i + 1]] + EscapedFrom(s, i + 2)
    ensures EscDepth(s, i + 2) == 0
    ensures i + 2 < |s| ==> !SkippedBracket(s, i + 2)
  {
    var b := s[i + 1];
    assert !SkippedBracket(s, i);
    assert EscDepth(s, i + 1) == 0;
    assert SkippedBracket(s, i + 1);
    assert EscDepth(s, i + 2) == 0;
    assert EscapeAt(s, i) == "\\";
    assert EscapeAt(s, i + 1) == [b];
    assert EscapedFrom(s, i + 1) == [b] + EscapedFrom(s, i + 2);
    assert EscapedFrom(s, i) == "\\" + ([b] + EscapedFrom(s, i + 2));
  }

  /** An interior backslash at depth 0 before an interior double quote is
      dropped, and the quote is escaped: the pair is written as it was. */
  lemma {:induction false} EscapedQuoteKept(s: string, i: nat)
    requires 0 < i && i + 1 < |s| - 1 && s[i] == '\\' && s[i + 1] == '"'
    requires EscDepth(s, i) == 0
    ensures EscapedFrom(s, i) == "\\\"" + EscapedFrom(s, i + 2)
  {
    assert EscDepth(s, i + 1) == 0;
    assert EscapeAt(s, i + 1) == "\\\"";
    assert EscapedFrom(s, i) == [] + (EscapeAt(s, i + 1) + EscapedFrom(s, i + 2));
  }

  /** Without backslashes no bracket is skipped: the loop's depth is the
      plain bracket depth ... */
  lemma {:induction false} EscDepthNoBackslash(s: string, i: nat)
    requires i <= |s|
    requires forall k :: 0 <= k < |s| ==> s[k] != '\\'
    ensures EscDepth(s, i) == Depth(s, i)
  {
    if i > 0 {
      EscDepthNoBackslash(s, i - 1);
    }
  }

  /** ... and the reference is the position-by-position quote rule. */
  lemma {:induction false} EscapedFromNoBackslash(s: string, i: nat)
    requires i <= |s|
    requires forall k :: 0 <= k < |s| ==> s[k] != '\\'
    ensures EscapedFrom(s, i) == QuotedFrom(s, i)
    decreases |s| - i
  {
    if i < |s| {
      EscDepthNoBackslash(s, i);
      assert EscapeAt(s, i) == QuoteAt(s, i);
      EscapedFromNoBackslash(s, i + 1);
    }
  }

  /** For text without backslashes, the reading in which an interior
      double quote at depth 0 gains a backslash and nothing else changes. */
  function QuoteAt(s: string, i: nat): string
    requires i < |s|
  {
    if 0 < i < |s| - 1 && s[i] == '"' && Depth(s, i) == 0 then "\\\"" else [s[i]]
  }

  function QuotedFrom(s: string, i: nat): string
    requires i <= |s|
    decreases |s| - i
  {
    if i == |s| then [] else QuoteAt(s, i) + QuotedFrom(s, i + 1)
  }

  /** Without backslashes, the whole pre-escape is that reading. */
  lemma {:induction false} PreEscapeNoBackslash(s: string)
    requires forall i :: 0 <= i < |s| ==> s[i] != '\\'
    ensures PreEscape(s) == QuotedFrom(s, 0)
  {
    PreEscapeIsReference(s);
    EscapedFromNoBackslash(s, 0);
  }

  /** How Tcl_ParseQuotedString reads backslash-quote back. */
  function Unquote(t: string): string
    decreases |t|
  {
    if t == [] then []
    else if |t| >= 2 && t[0] == '\\' && t[1] == '"' then "\"" + Unquote(t[2..])
    else [t[0]] + Unquote(t[1..])
  }

  lemma {:induction false} UnquoteQuoted(s: string, i: nat)
    requires i <= |s|
    requires forall k :: 0 <= k < |s| ==> s[k] != '\\'
    ensures Unquote(QuotedFrom(s, i)) == s[i..]
    decreases |s| - i
  {
    if i < |s| {
      UnquoteQuoted(s, i + 1);
      var q := QuoteAt(s, i);
      var rest := QuotedFrom(s, i + 1);
      if |q| == 2 {
        assert (q + rest)[2..] == rest;
      } else {
        assert (q + rest)[1..] == rest;
        if rest != [] {
          assert (q + rest)[0] == s[i] != '\\';
        }
      }
      assert s[i..] == [s[i]] + s[i + 1..];
    }
  }

  /** Round trip: for text without backslashes, reading the escaped quotes
      back gives the text. */
  lemma {:induction false} PreEscapeRoundTrip(s: string)
    requires forall i :: 0 <= i < |s| ==> s[i] != '\\'
    ensures Unquote(PreEscape(s)) == s
  {
    PreEscapeNoBackslash(s);
    UnquoteQuoted(s, 0);
  }

  lemma {:induction false} QuotedFromNoQuotes(s: string, i: nat)
    requires i <= |s|
    requires forall k :: 0 <= k < |s| ==> s[k] != '"'
    ensures QuotedFrom(s, i) == s[i..]
    decreases |s| - i
  {
    if i < |s| {
      QuotedFromNoQuotes(s, i + 1);
      assert s[i..] == [s[i]] + s[i + 1..];
    }
  }

  /** Text with neither double quotes nor backslashes is left as it is. */
  lemma {:induction false} PreEscapeIdentity(s: string)
    requires forall i :: 0 <= i < |s| ==> s[i] != '\\' && s[i] != '"'
    ensures PreEscape(s) == s
  {
    PreEscapeNoBackslash(s);
    QuotedFromNoQuotes(s, 0);
  }

  /** The reference reading of any non-empty suffix ends with the text's
      last character, which is never escaped. */
  lemma {:induction false} EscapedFromEnds(s: string, i: nat)
    requires i < |s|
    ensures |EscapedFrom(s, i)| >= 1
    ensures EscapedFrom(s, i)[|EscapedFrom(s, i)| - 1] == s[|s| - 1]
    decreases |s| - i
  {
    if i == |s| - 1 {
      assert EscapedFrom(s, i) == [s[i]] + [];
    } else {
      EscapedFromEnds(s, i + 1);
    }
  }

  /** The first and last characters, the quotes around the template text,
      are never escaped, whatever the text holds. */
  lemma {:induction false} PreEscapeKeepsEnds(s: string)
    requires |s| >= 2
    ensures |PreEscape(s)| >= 2
    ensures PreEscape(s)[0] == s[0]
    ensures PreEscape(s)[|PreEscape(s)| - 1] == s[|s| - 1]
  {
    PreEscapeIsReference(s);
    EscapedFromEnds(s, 1);
    assert EscapeAt(s, 0) == [s[0]];
  }

  /** An interior double quote gains a backslash. */
  lemma {:induction false} PreEscapeQuoteExample()
    ensures PreEscape("\"a\"b\"") == "\"a\\\"b\""
  {
  }

  /** Double quotes inside brackets are left alone. */
  lemma {:induction false} PreEscapeBracketExample()
    ensures PreEscape("\"[f \"x\"]\"") == "\"[f \"x\"]\""
  {
  }

  /** A backslash before a double quote is dropped, and the quote escaped. */
  lemma {:induction false} PreEscapeEscapedQuoteExample()
    ensures PreEscape("\"a\\\"b\"") == "\"a\\\"b\""
  {
  }

  /** A backslash keeps the bracket after it from being counted. */
  lemma {:induction false} PreEscapeEscapedBracketExample()
    ensures PreEscape("\"\\[x\"") == "\"\\[x\""
  {
  }

  /** The loop of thtml_CCompileTemplateTextCmd. */
  method PreEscapeLoop(s: string) returns (t: string)
    ensures t == PreEscape(s)
  {
    var ds := new DString();
    var p := 0;
    var count: int := 0;
    while p < |s|
      invariant 0 <= p <= |s|
      invariant PreEscapeFrom(s, p, count, ds.text) == PreEscape(s)
      decreases |s| - p
    {
      if s[p] == '[' {
        count := count + 1;
        ds.Append("[");
      } else if s[p] == ']' {
        count := count - 1;
        ds.Append("]");
      } else if p > 0 && p < |s| - 1 && s[p] == '"' && count == 0 {
        ds.Append("\\\"");
      } else if p > 0 && p < |s| - 1 && s[p] == '\\' && count == 0 {
        if p + 1 < |s| - 1 && s[p + 1] == '[' {
          ds.Append("\\[");
          p := p + 2;
          continue;
        } else if p + 1 < |s| - 1 && s[p + 1] == ']' {
          ds.Append("\\]");
          p := p + 2;
          continue;
        } else if p + 1 < |s| - 1 && s[p + 1] == '"' {
        } else {
          ds.Append("\\");
        }
      } else {
        ds.Append([s[p]]);
      }
      p := p + 1;
    }
    return ds.text;
  }
}
