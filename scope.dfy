/** Variable-path resolution, written out identically in both backends
    (thtml_CAppendVariable in src/compiler_c.c and thtml_TclAppendVariable in
    src/compiler_tcl.c): split the dotted path, then scan the scope blocks in
    order for the block that declares its first segment. */
module Scope {
  import opened Gen

  /** One entry of the `blocks` list, already decoded from its Tcl dict:
      the `varnames` list when the key is present, and whether a `stop` key
      is present (its value is never looked at). */
  datatype Block = Block(varnames: Option<seq<string>>, stop: bool)

  /** Where the scan ends: a block declares the first segment, the path goes
      to the top-level `__data__` dict, or the path has no first segment to
      compare (an empty variable name) although a block has `varnames`; there
      the source reads parts[0] of an empty list. */
  datatype Binding = Declared | TopLevel | NoFirstSegment

  // ---------------------------------------------------------------- splitting

  /** The list of parts the splitting loop builds: every `.` ends a part,
      empty parts between dots are kept, a trailing dot adds none. */
  function SplitPath(s: string): (parts: seq<string>)
    decreases |s|
  {
    if s == [] then []
    else
      var k := IndexOf(s, '.');
      if k == |s| then [s] else [s[..k]] + SplitPath(s[k + 1..])
  }

  /** The parts separated by `sep`. */
  function Join(xs: seq<string>, sep: string): string
  {
    if xs == [] then [] else xs[0] + Prefixed(xs[1..], sep)
  }

  /** Every part preceded by `sep`. */
  function Prefixed(xs: seq<string>, sep: string): string
    decreases |xs|
  {
    if xs == [] then [] else sep + xs[0] + Prefixed(xs[1..], sep)
  }

  lemma {:induction false} PrefixedSnoc(xs: seq<string>, x: string, sep: string)
    ensures Prefixed(xs + [x], sep) == Prefixed(xs, sep) + sep + x
    decreases |xs|
  {
    if xs == [] {
      assert xs + [x] == [x];
    } else {
      assert (xs + [x])[1..] == xs[1..] + [x];
      PrefixedSnoc(xs[1..], x, sep);
    }
  }

  /** Appending one more part adds the separator and the part. */
  lemma {:induction false} JoinSnoc(xs: seq<string>, x: string, sep: string)
    ensures Join(xs + [x], sep) == if xs == [] then x else Join(xs, sep) + sep + x
  {
    if xs == [] {
      assert xs + [x] == [x];
    } else {
      assert (xs + [x])[1..] == xs[1..] + [x];
      PrefixedSnoc(xs[1..], x, sep);
    }
  }

  /** `s` with every dot replaced by `c`. */
  function DotsTo(s: string, c: char): string
    decreases |s|
  {
    if s == [] then [] else [if s[0] == '.' then c else s[0]] + DotsTo(s[1..], c)
  }

  /** `s` without one trailing dot. */
  function DropTrailingDot(s: string): string
  {
    if s != [] && s[|s| - 1] == '.' then s[..|s| - 1] else s
  }

  lemma {:induction false} DotsToConcat(a: string, b: string, c: char)
    ensures DotsTo(a + b, c) == DotsTo(a, c) + DotsTo(b, c)
    decreases |a|
  {
    if a == [] {
      assert a + b == b;
    } else {
      assert (a + b)[1..] == a[1..] + b;
      DotsToConcat(a[1..], b, c);
    }
  }

  lemma {:induction false} DotsToNoDots(s: string, c: char)
    requires forall i :: 0 <= i < |s| ==> s[i] != '.'
    ensures DotsTo(s, c) == s
    decreases |s|
  {
    if s != [] {
      DotsToNoDots(s[1..], c);
      assert s == [s[0]] + s[1..];
    }
  }

  lemma {:induction false} DotsToDot(s: string)
    ensures DotsTo(s, '.') == s
    decreases |s|
  {
    if s != [] {
      DotsToDot(s[1..]);
      assert s == [s[0]] + s[1..];
    }
  }

  lemma {:induction false} JoinCons(x: string, ys: seq<string>, sep: string)
    requires ys != []
    ensures Join([x] + ys, sep) == x + sep + Join(ys, sep)
  {
    assert ([x] + ys)[1..] == ys;
    assert ys == [ys[0]] + ys[1..];
  }

  /** No part contains a dot. */
  lemma {:induction false} SplitPathPartsHaveNoDots(s: string)
    ensures forall k :: 0 <= k < |SplitPath(s)| ==> '.' !in SplitPath(s)[k]
    decreases |s|
  {
    if s != [] {
      var k := IndexOf(s, '.');
      if k < |s| {
        SplitPathPartsHaveNoDots(s[k + 1..]);
      }
    }
  }

  /** One step of the splitting: the part up to the first dot, then the
      rest after it. */
  lemma {:induction false} SplitPathStep(s: string, p: nat)
    requires p <= |s|
    requires forall i :: 0 <= i < p ==> s[i] != '.'
    requires p == |s| || s[p] == '.'
    requires s != []
    ensures p == |s| ==> SplitPath(s) == [s]
    ensures p < |s| ==> SplitPath(s) == [s[..p]] + SplitPath(s[p + 1..])
  {
    IndexOfFirst(s, '.', p);
  }

  /** Joining the parts with the one-character separator `c` gives the path
      with its dots turned into `c`, less a trailing dot: the splitting keeps
      every empty part between two dots and drops only a final one. */
  lemma {:induction false} JoinSplitPath(s: string, c: char)
    requires s != []
    ensures Join(SplitPath(s), [c]) == DotsTo(DropTrailingDot(s), c)
    decreases |s|
  {
    var k := IndexOf(s, '.');
    if k == |s| {
      DotsToNoDots(s, c);
    } else {
      var head, rest := s[..k], s[k + 1..];
      assert s == head + "." + rest;
      if rest == [] {
        assert SplitPath(s) == [head];
        assert DropTrailingDot(s) == head;
        DotsToNoDots(head, c);
      } else {
        JoinSplitPath(rest, c);
        SplitPathCons(head, rest, c);
        DropTrailingDotCons(head, rest, c);
      }
    }
  }

  lemma {:induction false} SplitPathCons(head: string, rest: string, c: char)
    requires forall i :: 0 <= i < |head| ==> head[i] != '.'
    requires rest != []
    ensures Join(SplitPath(head + "." + rest), [c]) == head + [c] + Join(SplitPath(rest), [c])
  {
    var s := head + "." + rest;
    SplitPathStep(s, |head|);
    assert s[..|head|] == head;
    assert s[|head| + 1..] == rest;
    SplitPathStep(rest, IndexOf(rest, '.'));
    JoinCons(head, SplitPath(rest), [c]);
  }

  lemma {:induction false} DropTrailingDotCons(head: string, rest: string, c: char)
    requires forall i :: 0 <= i < |head| ==> head[i] != '.'
    requires rest != []
    ensures DotsTo(DropTrailingDot(head + "." + rest), c) == head + [c] + DotsTo(DropTrailingDot(rest), c)
  {
    DropTrailingDotConcat(head + ".", rest);
    DotsToConcat(head + ".", DropTrailingDot(rest), c);
    DotsToConcat(head, ".", c);
    DotsToNoDots(head, c);
  }

  lemma {:induction false} DropTrailingDotConcat(a: string, b: string)
    requires b != []
    ensures DropTrailingDot(a + b) == a + DropTrailingDot(b)
  {
    if b[|b| - 1] == '.' {
      assert (a + b)[..|a + b| - 1] == a + b[..|b| - 1];
    }
  }

  /** Round trip one way: rejoining the parts with dots restores the path,
      less a trailing dot. */
  lemma {:induction false} SplitPathRejoined(s: string)
    requires s != []
    ensures Join(SplitPath(s), ".") == DropTrailingDot(s)
  {
    JoinSplitPath(s, '.');
    DotsToDot(DropTrailingDot(s));
  }

  /** Round trip the other way: dot-free parts whose last part is not empty
      come back from the path they join to. */
  lemma {:induction false} SplitPathOfJoin(parts: seq<string>)
    requires parts != []
    requires forall k :: 0 <= k < |parts| ==> '.' !in parts[k]
    requires parts[|parts| - 1] != []
    ensures SplitPath(Join(parts, ".")) == parts
    decreases |parts|
  {
    var x := parts[0];
    if |parts| == 1 {
      assert Join(parts, ".") == x;
      assert x[..|x|] == x;
      SplitPathStep(x, |x|);
    } else {
      var ys := parts[1..];
      assert parts == [x] + ys;
      JoinCons(x, ys, ".");
      var s := x + "." + Join(ys, ".");
      SplitPathOfJoin(ys);
      assert s[..|x|] == x;
      assert s[|x| + 1..] == Join(ys, ".");
      SplitPathStep(s, |x|);
    }
  }

  // ---------------------------------------------------------------- scanning

  /** The block declares `x`. */
  predicate Declares(b: Block, x: string)
  {
    b.varnames.Some? && x in b.varnames.value
  }

  /** The scan ends at this block: it has `varnames` and either declares `x`
      or carries `stop`.  A block without `varnames` never ends the scan,
      whatever its `stop` key says. */
  predicate Decides(b: Block, x: string)
  {
    b.varnames.Some? && (x in b.varnames.value || b.stop)
  }

  /** The scan from block j on. */
  function ResolveFrom(parts: seq<string>, blocks: seq<Block>, j: nat): Binding
    decreases |blocks| - j
  {
    if j >= |blocks| then TopLevel
    else match blocks[j].varnames
      case None => ResolveFrom(parts, blocks, j + 1)
      case Some(names) =>
        if parts == [] then NoFirstSegment
        else if parts[0] in names then Declared
        else if blocks[j].stop then TopLevel
        else ResolveFrom(parts, blocks, j + 1)
  }

  function Resolve(parts: seq<string>, blocks: seq<Block>): Binding
  {
    ResolveFrom(parts, blocks, 0)
  }

  lemma {:induction false} ResolveFromDeclared(parts: seq<string>, blocks: seq<Block>, j: nat)
    requires parts != []
    ensures ResolveFrom(parts, blocks, j) == Declared <==>
      exists m :: j <= m < |blocks| && Declares(blocks[m], parts[0]) &&
        forall k :: j <= k < m ==> !Decides(blocks[k], parts[0])
    ensures ResolveFrom(parts, blocks, j) != NoFirstSegment
    decreases |blocks| - j
  {
    var x := parts[0];
    if j < |blocks| {
      ResolveFromDeclared(parts, blocks, j + 1);
      if ResolveFrom(parts, blocks, j) == Declared && !Declares(blocks[j], x) {
        var m :| j + 1 <= m < |blocks| && Declares(blocks[m], x) &&
          forall k :: j + 1 <= k < m ==> !Decides(blocks[k], x);
        assert forall k :: j <= k < m ==> !Decides(blocks[k], x);
      }
      if exists m :: j <= m < |blocks| && Declares(blocks[m], x) &&
          forall k :: j <= k < m ==> !Decides(blocks[k], x) {
        var m :| j <= m < |blocks| && Declares(blocks[m], x) &&
          forall k :: j <= k < m ==> !Decides(blocks[k], x);
        if m > j {
          assert !Decides(blocks[j], x);
        }
      }
    }
  }

  /** The first block, in list order, that has `varnames` and either declares
      the first segment or carries `stop` decides; the path is declared
      exactly when that block declares it.  Otherwise the path resolves
      against `__data__` (an empty path cannot be compared at all). */
  lemma {:induction false} ResolveDeclaredIff(parts: seq<string>, blocks: seq<Block>)
    requires parts != []
    ensures Resolve(parts, blocks) == Declared <==>
      exists m :: 0 <= m < |blocks| && Declares(blocks[m], parts[0]) &&
        forall k :: 0 <= k < m ==> !Decides(blocks[k], parts[0])
    ensures Resolve(parts, blocks) != Declared ==> Resolve(parts, blocks) == TopLevel
  {
    ResolveFromDeclared(parts, blocks, 0);
  }

  lemma {:induction false} ResolveFromEmpty(blocks: seq<Block>, j: nat)
    ensures ResolveFrom([], blocks, j) == NoFirstSegment <==>
      exists m :: j <= m < |blocks| && blocks[m].varnames.Some?
    ensures ResolveFrom([], blocks, j) != Declared
    decreases |blocks| - j
  {
    if j < |blocks| {
      ResolveFromEmpty(blocks, j + 1);
    }
  }

  /** An empty path reaches parts[0] exactly when some block has `varnames`. */
  lemma {:induction false} ResolveEmptyPath(blocks: seq<Block>)
    ensures Resolve([], blocks) == NoFirstSegment <==>
      exists m :: 0 <= m < |blocks| && blocks[m].varnames.Some?
    ensures Resolve([], blocks) != Declared
  {
    ResolveFromEmpty(blocks, 0);
  }

  lemma {:induction false} ResolveFromShift(parts: seq<string>, b: Block, rest: seq<Block>, j: nat)
    ensures ResolveFrom(parts, [b] + rest, j + 1) == ResolveFrom(parts, rest, j)
    decreases |rest| - j
  {
    var bs := [b] + rest;
    if j < |rest| {
      assert bs[j + 1] == rest[j];
      ResolveFromShift(parts, b, rest, j + 1);
    }
  }

  /** A block without `varnames` is passed over, even when it has `stop`. */
  lemma {:induction false} BlockWithoutVarnamesIsSkipped(parts: seq<string>, stop: bool, rest: seq<Block>)
    ensures Resolve(parts, [Block(None, stop)] + rest) == Resolve(parts, rest)
  {
    ResolveFromShift(parts, Block(None, stop), rest, 0);
  }

  /** A declaring block hides every later one. */
  lemma {:induction false} EarlierBlockWins(x: string, tail: seq<string>, names: seq<string>, stop: bool, rest: seq<Block>)
    requires x in names
    ensures Resolve([x] + tail, [Block(Some(names), stop)] + rest) == Declared
  {
  }

  /** A `stop` block that does not declare the name ends the scan. */
  lemma {:induction false} StopHidesLaterBlocks(x: string, tail: seq<string>, names: seq<string>, rest: seq<Block>)
    requires x !in names
    ensures Resolve([x] + tail, [Block(Some(names), true)] + rest) == TopLevel
  {
  }

  // ---------------------------------------------------------------- the loops

  /** The loop's step: the part from `start` to the next dot at `p`, or to the
      end, is split off the remaining text. */
  lemma {:induction false} SplitPathAt(s: string, start: nat, p: nat)
    requires start <= p <= |s| && start < |s|
    requires forall i :: start <= i < p ==> s[i] != '.'
    requires p == |s| || s[p] == '.'
    ensures p == |s| ==> SplitPath(s[start..]) == [s[start..p]]
    ensures p < |s| ==> SplitPath(s[start..]) == [s[start..p]] + SplitPath(s[p + 1..])
  {
    var t := s[start..];
    assert t[..p - start] == s[start..p];
    SplitPathStep(t, p - start);
    if p < |s| {
      assert t[p - start + 1..] == s[p + 1..];
    } else {
      assert t == s[start..p];
    }
  }

  /** The inner scan of the splitting loop: the first dot at or after
      start, or the end of s. */
  method NextDot(s: string, start: nat) returns (p: nat)
    requires start <= |s|
    ensures start <= p <= |s| && (p == |s| || s[p] == '.')
    ensures forall i :: start <= i < p ==> s[i] != '.'
  {
    p := start;
    while p < |s| && s[p] != '.'
      invariant start <= p <= |s|
      invariant forall i :: start <= i < p ==> s[i] != '.'
    {
      p := p + 1;
    }
  }

  /** The splitting loop: parts of the variable name, split at each dot. */
  method SplitPathLoop(s: string) returns (parts: seq<string>)
    ensures parts == SplitPath(s)
  {
    parts := [];
    var p := 0;
    while p < |s|
      invariant 0 <= p <= |s|
      invariant SplitSoFar(s, p, parts)
    {
      var start := p;
      p := NextDot(s, start);
      SplitPathAdvance(s, start, p, parts);
      parts := parts + [s[start..p]];
      if p < |s| {
        p := p + 1;
      }
    }
    assert s[p..] == [];
  }

  /** The loop invariant: the parts split off so far, followed by the parts
      of the rest from p, are the parts of s. */
  predicate SplitSoFar(s: string, p: nat, parts: seq<string>)
    requires p <= |s|
  {
    parts + SplitPath(s[p..]) == SplitPath(s)
  }

  /** The loop invariant carried over one part. */
  lemma {:induction false} SplitPathAdvance(s: string, start: nat, p: nat, parts: seq<string>)
    requires start <= p <= |s| && start < |s|
    requires forall i :: start <= i < p ==> s[i] != '.'
    requires p == |s| || s[p] == '.'
    requires SplitSoFar(s, start, parts)
    ensures SplitSoFar(s, if p < |s| then p + 1 else p, parts + [s[start..p]])
  {
    SplitPathAt(s, start, p);
    if p < |s| {
      ConcatAssoc(parts, [s[start..p]], SplitPath(s[p + 1..]));
    } else {
      assert s[p..] == [];
    }
  }

  /** The scan over the blocks list, with its `continue` for a block without
      `varnames`, its inner comparison loop and its `break` on `stop`. */
  method ScanBlocks(parts: seq<string>, blocks: seq<Block>) returns (b: Binding)
    ensures b == Resolve(parts, blocks)
  {
    var j := 0;
    while j < |blocks|
      invariant 0 <= j <= |blocks|
      invariant ResolveFrom(parts, blocks, j) == Resolve(parts, blocks)
    {
      if blocks[j].varnames.None? {
        j := j + 1;
        continue;
      }
      if parts == [] {
        return NoFirstSegment;
      }
      var names := blocks[j].varnames.value;
      var k := 0;
      while k < |names|
        invariant 0 <= k <= |names|
        invariant parts[0] !in names[..k]
      {
        if names[k] == parts[0] {
          return Declared;
        }
        assert names[..k + 1] == names[..k] + [names[k]];
        k := k + 1;
      }
      assert names[..k] == names;
      if blocks[j].stop {
        break;
      }
      j := j + 1;
    }
    return TopLevel;
  }
}
