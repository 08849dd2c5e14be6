/** include/thtml.h: the string comparison helpers that generated C code calls
    for the `eq` and `ne` operators.  A Tcl_Obj is seen through its string
    representation, the bytes Tcl_GetStringFromObj returns. */
module Runtime {

  newtype Byte = b: int | 0 <= b < 256

  /** memcmp(a, b, n) up to its sign: the first differing byte decides,
      compared as unsigned char. */
  function MemCmp(a: seq<Byte>, b: seq<Byte>, n: nat): (r: int)
    requires n <= |a| && n <= |b|
    ensures -1 <= r <= 1
    decreases n
  {
    if n == 0 then 0
    else if a[0] < b[0] then -1
    else if a[0] > b[0] then 1
    else MemCmp(a[1..], b[1..], n - 1)
  }

  /** memcmp reports zero exactly when the first n bytes agree. */
  lemma {:induction false} MemCmpZero(a: seq<Byte>, b: seq<Byte>, n: nat)
    requires n <= |a| && n <= |b|
    ensures MemCmp(a, b, n) == 0 <==> a[..n] == b[..n]
    decreases n
  {
    if n > 0 {
      MemCmpZero(a[1..], b[1..], n - 1);
      assert a[..n] == [a[0]] + a[1..][..n - 1];
      assert b[..n] == [b[0]] + b[1..][..n - 1];
      if a[..n] == b[..n] {
        assert a[0] == a[..n][0] == b[..n][0] == b[0];
        assert a[1..][..n - 1] == a[..n][1..] == b[..n][1..] == b[1..][..n - 1];
      }
    }
  }

  /** __thtml_streq__: lengths first, then memcmp. */
  function StrEq(a: seq<Byte>, b: seq<Byte>): (r: int)
  {
    if |a| != |b| then 0
    else if MemCmp(a, b, |a|) == 0 then 1 else 0
  }

  /** __thtml_strneq__: the C negation `!` of StrEq. */
  function StrNeq(a: seq<Byte>, b: seq<Byte>): (r: int)
  {
    if StrEq(a, b) == 0 then 1 else 0
  }

  /** StrEq answers 1 exactly for equal strings and 0 otherwise. */
  lemma {:induction false} StrEqIsEquality(a: seq<Byte>, b: seq<Byte>)
    ensures StrEq(a, b) == (if a == b then 1 else 0)
  {
    if |a| == |b| {
      MemCmpZero(a, b, |a|);
      assert a[..|a|] == a && b[..|b|] == b;
    }
  }

  /** Strings of different lengths are unequal whatever their bytes. */
  lemma {:induction false} StrEqLengthsDiffer(a: seq<Byte>, b: seq<Byte>)
    requires |a| != |b|
    ensures StrEq(a, b) == 0 && StrNeq(a, b) == 1
  {
  }

  /** StrNeq is the exact negation: 1 exactly for different strings. */
  lemma {:induction false} StrNeqIsInequality(a: seq<Byte>, b: seq<Byte>)
    ensures StrNeq(a, b) == (if a != b then 1 else 0)
    ensures StrNeq(a, b) == 1 - StrEq(a, b)
  {
    StrEqIsEquality(a, b);
  }

  /** Reflexive and symmetric, as a length check plus memcmp must be. */
  lemma {:induction false} StrEqReflexiveSymmetric(a: seq<Byte>, b: seq<Byte>)
    ensures StrEq(a, a) == 1
    ensures StrEq(a, b) == StrEq(b, a)
  {
    StrEqIsEquality(a, a);
    StrEqIsEquality(a, b);
    StrEqIsEquality(b, a);
  }
}
