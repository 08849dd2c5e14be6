/** src/common.c: thtml_AppendEscaped, which copies a range of bytes into a C
    string literal under construction, spelling line feed and carriage return
    as the two-character escapes `\n` and `\r`. */
module Common {
  import opened Gen

  /** What one input character becomes. */
  function EscapeChar(c: char): (r: string)
  {
    if c == '\n' then "\\n" else if c == '\r' then "\\r" else [c]
  }

  /** The text thtml_AppendEscaped appends for the range `s`. */
  function Escaped(s: string): string
    decreases |s|
  {
    if s == [] then [] else EscapeChar(s[0]) + Escaped(s[1..])
  }

  /** Number of line feeds and carriage returns in `s`. */
  function CountBreaks(s: string): nat
    decreases |s|
  {
    if s == [] then 0 else (if s[0] == '\n' || s[0] == '\r' then 1 else 0) + CountBreaks(s[1..])
  }

  /** How a C compiler reads the escapes back: `\n` and `\r` become the
      control characters, everything else stands for itself. */
  function Unescaped(t: string): string
    decreases |t|
  {
    if t == [] then []
    else if |t| >= 2 && t[0] == '\\' && t[1] == 'n' then "\n" + Unescaped(t[2..])
    else if |t| >= 2 && t[0] == '\\' && t[1] == 'r' then "\r" + Unescaped(t[2..])
    else [t[0]] + Unescaped(t[1..])
  }

  /** Escaping works character by character: escaping a concatenation is
      concatenating the escapes, so the input order is kept. */
  lemma {:induction false} EscapedConcat(a: string, b: string)
    ensures Escaped(a + b) == Escaped(a) + Escaped(b)
    decreases |a|
  {
    if a == [] {
      assert a + b == b;
    } else {
      assert (a + b)[1..] == a[1..] + b;
      EscapedConcat(a[1..], b);
    }
  }

  /** Each line break adds exactly one character. */
  lemma {:induction false} EscapedLength(s: string)
    ensures |Escaped(s)| == |s| + CountBreaks(s)
    decreases |s|
  {
    if s != [] {
      EscapedLength(s[1..]);
    }
  }

  /** No raw line feed or carriage return survives. */
  lemma {:induction false} EscapedHasNoBreaks(s: string)
    ensures '\n' !in Escaped(s) && '\r' !in Escaped(s)
    decreases |s|
  {
    if s != [] {
      EscapedHasNoBreaks(s[1..]);
      assert Escaped(s) == EscapeChar(s[0]) + Escaped(s[1..]);
    }
  }

  /** Every other character, double quote and backslash included, is copied
      unchanged: the quote and backslash escapes are disabled in the source. */
  lemma {:induction false} EscapedIdentity(s: string)
    requires '\n' !in s && '\r' !in s
    ensures Escaped(s) == s
    decreases |s|
  {
    if s != [] {
      assert s == [s[0]] + s[1..];
      EscapedIdentity(s[1..]);
    }
  }

  /** For text without backslashes the escaping is undone by reading the
      literal back. */
  lemma {:induction false} UnescapedEscaped(s: string)
    requires '\\' !in s
    ensures Unescaped(Escaped(s)) == s
    decreases |s|
  {
    if s != [] {
      var e := EscapeChar(s[0]);
      var rest := Escaped(s[1..]);
      assert Escaped(s) == e + rest;
      UnescapedEscaped(s[1..]);
      if s[0] == '\n' || s[0] == '\r' {
        assert (e + rest)[2..] == rest;
      } else {
        assert (e + rest)[1..] == rest;
      }
      assert s == [s[0]] + s[1..];
    }
  }

  /** Because backslash is not escaped, a literal backslash followed by `n`
      and a line feed produce the same output. */
  lemma {:induction false} EscapedCollision()
    ensures Escaped("\n") == Escaped("\\n") == "\\n"
  {
  }

  /** thtml_AppendEscaped(p, end, dsPtr), with `s` the range p..end. */
  method AppendEscaped(s: string, ds: DString)
    modifies ds
    ensures ds.text == old(ds.text) + Escaped(s)
  {
    var p := 0;
    while p < |s|
      invariant 0 <= p <= |s|
      invariant ds.text + Escaped(s[p..]) == old(ds.text) + Escaped(s)
    {
      assert Escaped(s[p..]) == EscapeChar(s[p]) + Escaped(s[p + 1..]);
      if s[p] == '\n' {
        ds.Append("\\n");
      } else if s[p] == '\r' {
        ds.Append("\\r");
      } else {
        ds.Append([s[p]]);
      }
      p := p + 1;
    }
  }
}
