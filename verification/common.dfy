/** Small vocabulary shared by the server and the client models: optional values, the
    outcome of a remote call, and the few JavaScript string rules the client relies on
    (`||` on strings, `String.prototype.trim`, `.length`, `${n}` for an integer). */
module Common {

  datatype Option<T> = None | Some(value: T) {
    function GetOr(default: T): (r: T)
      ensures Some? ==> r == value
      ensures None? ==> r == default
    {
      match this
      case Some(v) => v
      case None => default
    }
  }

  /** What the client learns from one remote call: the response body on a 2xx status, or
      the `error` field of the error body (None when the server sent none, or when no
      response arrived at all). */
  datatype Outcome<T> = Success(data: T) | Failure(serverError: Option<string>)

  /** JavaScript's `s || fallback` for a string that may be undefined: an undefined AND an
      empty `s` both give the fallback. */
  function OrElse(s: Option<string>, fallback: string): (r: string)
    ensures (s.Some? && s.value != "") ==> r == s.value
    ensures (s.None? || s.value == "") ==> r == fallback
  {
    if s.Some? && s.value != "" then s.value else fallback
  }

  /** The characters JavaScript's `trim` removes: WhiteSpace (TAB, VT, FF, U+FEFF and the
      Unicode space separators) and LineTerminator (LF, CR, U+2028, U+2029). */
  predicate IsJsWhitespace(c: char) {
    c == '\t' || c == '\n' || c == '\U{000B}' || c == '\U{000C}' || c == '\r' || c == ' '
    || c == '\U{00A0}' || c == '\U{1680}' || ('\U{2000}' <= c <= '\U{200A}')
    || c == '\U{2028}' || c == '\U{2029}' || c == '\U{202F}' || c == '\U{205F}'
    || c == '\U{3000}' || c == '\U{FEFF}'
  }

  /** A string that `trim` reduces to the empty string (the falsy `!s.trim()` of the forms). */
  predicate IsBlank(s: string) {
    forall i {:trigger IsJsWhitespace(s[i])} :: 0 <= i < |s| ==> IsJsWhitespace(s[i])
  }

  function TrimStart(s: string): (r: string)
    ensures |r| <= |s| && r == s[|s| - |r|..]
    ensures r == [] || !IsJsWhitespace(r[0])
    ensures forall i {:trigger IsJsWhitespace(s[i])} :: 0 <= i < |s| - |r| ==> IsJsWhitespace(s[i])
    decreases |s|
  {
    if s != [] && IsJsWhitespace(s[0]) then TrimStart(s[1..]) else s
  }

  function TrimEnd(s: string): (r: string)
    ensures |r| <= |s| && r == s[..|r|]
    ensures r == [] || !IsJsWhitespace(r[|r| - 1])
    ensures forall i {:trigger IsJsWhitespace(s[i])} :: |r| <= i < |s| ==> IsJsWhitespace(s[i])
    decreases |s|
  {
    if s != [] && IsJsWhitespace(s[|s| - 1]) then TrimEnd(s[..|s| - 1]) else s
  }

  /** `s.trim()`: what is left of `s` after dropping the whitespace at both ends. It is
      empty exactly when `s` is blank. */
  function Trim(s: string): (r: string)
    ensures r == "" <==> IsBlank(s)
  {
    TrimBlank(s);
    TrimEnd(TrimStart(s))
  }

  /** `Trim(s)` is the slice `s[lo..hi]` of `s`, with only whitespace before `lo` and
      after `hi`. */
  lemma TrimSlice(s: string) returns (lo: nat, hi: nat)
    ensures lo <= hi <= |s| && |Trim(s)| == hi - lo
    ensures forall k :: 0 <= k < hi - lo ==> Trim(s)[k] == s[lo + k]
    ensures forall i {:trigger IsJsWhitespace(s[i])} :: 0 <= i < lo ==> IsJsWhitespace(s[i])
    ensures forall i {:trigger IsJsWhitespace(s[i])} :: hi <= i < |s| ==> IsJsWhitespace(s[i])
  {
    var t := TrimStart(s);
    var r := TrimEnd(t);
    assert Trim(s) == r;
    lo := |s| - |t|;
    hi := lo + |r|;
    PrefixOfSuffix(s, t, r, lo);
  }

  /** A prefix `r` of a suffix `t == s[lo..]` is the slice `s[lo..lo + |r|]`, and when `t`
      has only whitespace after `r`, so has `s`. */
  lemma PrefixOfSuffix(s: string, t: string, r: string, lo: nat)
    requires lo <= |s| && t == s[lo..] && |r| <= |t| && r == t[..|r|]
    requires forall i {:trigger IsJsWhitespace(t[i])} :: |r| <= i < |t| ==> IsJsWhitespace(t[i])
    ensures forall k :: 0 <= k < |r| ==> r[k] == s[lo + k]
    ensures forall i {:trigger IsJsWhitespace(s[i])} :: lo + |r| <= i < |s| ==> IsJsWhitespace(s[i])
  {
    forall i | lo + |r| <= i < |s| ensures IsJsWhitespace(s[i]) {
      assert s[i] == t[i - lo];
    }
  }

  /** What `trim` keeps begins and ends with a character that is not whitespace, so no
      shorter slice would do. */
  lemma TrimKeepsNoOuterSpace(s: string)
    ensures Trim(s) != "" ==> !IsJsWhitespace(Trim(s)[0]) && !IsJsWhitespace(Trim(s)[|Trim(s)| - 1])
  {
    var t := TrimStart(s);
    var r := TrimEnd(t);
    assert Trim(s) == r;
    if r != "" {
      assert r[0] == t[0];
    }
  }

  lemma TrimBlank(s: string)
    ensures TrimEnd(TrimStart(s)) == "" <==> IsBlank(s)
  {
    var t := TrimStart(s);
    var r := TrimEnd(t);
    if r != "" {
      assert r[0] == s[|s| - |t|];
    } else {
      assert t == "";
    }
  }

  /** Number of UTF-16 code units of one character: JavaScript's `.length` counts a
      character outside the Basic Multilingual Plane as two. */
  function Utf16Units(c: char): (n: nat)
    ensures n == 1 || n == 2
    ensures n == 2 <==> c as int > 0xFFFF
  {
    if c as int > 0xFFFF then 2 else 1
  }

  /** JavaScript's `s.length`. */
  function Utf16Length(s: string): (n: nat)
    ensures |s| <= n <= 2 * |s|
    ensures n == |s| <==> forall i :: 0 <= i < |s| ==> s[i] as int <= 0xFFFF
    decreases |s|
  {
    if s == [] then 0 else Utf16Units(s[0]) + Utf16Length(s[1..])
  }

  function DigitChar(d: nat): (c: char)
    requires d < 10
    ensures '0' <= c <= '9' && (c as int) - ('0' as int) == d
  {
    ((d + '0' as int) as char)
  }

  /** The value of a string of decimal digits, read most significant digit first. */
  function DecimalValue(s: string): nat
    requires forall i :: 0 <= i < |s| ==> '0' <= s[i] <= '9'
    decreases |s|
  {
    if s == [] then 0
    else 10 * DecimalValue(s[..|s| - 1]) + ((s[|s| - 1] as int) - ('0' as int))
  }

  /** `${n}` for a natural number: its shortest decimal numeral, which reads back as `n`. */
  function NatToDecimal(n: nat): (r: string)
    ensures |r| >= 1 && (forall i :: 0 <= i < |r| ==> '0' <= r[i] <= '9')
    ensures DecimalValue(r) == n
    ensures |r| > 1 ==> r[0] != '0'
    decreases n
  {
    if n < 10 then [DigitChar(n)]
    else
      var prefix := NatToDecimal(n / 10);
      var r := prefix + [DigitChar(n % 10)];
      assert r[..|r| - 1] == prefix;
      r
  }

  /** `${n}` for an integer: a minus sign before the numeral of a negative value. */
  function IntToString(n: int): (r: string)
    ensures n < 0 ==> |r| >= 2 && r[0] == '-' && r[1..] == NatToDecimal(-n)
    ensures n >= 0 ==> r == NatToDecimal(n)
  {
    if n < 0 then "-" + NatToDecimal(-n) else NatToDecimal(n)
  }

  /** Two integers with the same numeral are equal. */
  lemma IntToStringInjective(m: int, n: int)
    requires IntToString(m) == IntToString(n)
    ensures m == n
  {
    if m < 0 && n < 0 {
      assert NatToDecimal(-m) == IntToString(m)[1..];
      assert DecimalValue(NatToDecimal(-m)) == DecimalValue(NatToDecimal(-n));
    } else if m >= 0 && n >= 0 {
      assert DecimalValue(NatToDecimal(m)) == DecimalValue(NatToDecimal(n));
    } else {
      assert false;
    }
  }

  /** `xs` is `ys` with some elements left out and the rest kept in their order. */
  predicate IsSubsequence<T(==)>(xs: seq<T>, ys: seq<T>)
    decreases |ys|
  {
    if xs == [] then true
    else if ys == [] then false
    else if xs[0] == ys[0] then IsSubsequence(xs[1..], ys[1..])
    else IsSubsequence(xs, ys[1..])
  }

  /** A subsequence of the tail is a subsequence of the whole. */
  lemma {:induction false} SubsequenceOfTail<T>(xs: seq<T>, ys: seq<T>)
    requires ys != [] && IsSubsequence(xs, ys[1..])
    ensures IsSubsequence(xs, ys)
    decreases |ys|, 0
  {
    if xs != [] && xs[0] == ys[0] {
      // ys[1..] holds xs, so it holds xs[0] before the rest of xs; drop that first match
      SubsequenceDropFirst(xs, ys[1..]);
    }
  }

  /** Dropping the first element of a subsequence keeps it a subsequence. */
  lemma {:induction false} SubsequenceDropFirst<T>(xs: seq<T>, ys: seq<T>)
    requires xs != [] && IsSubsequence(xs, ys)
    ensures IsSubsequence(xs[1..], ys)
    decreases |ys|, 1
  {
    if xs[0] == ys[0] {
      if xs[1..] != [] {
        SubsequenceOfTail(xs[1..], ys);
      }
    } else {
      SubsequenceDropFirst(xs, ys[1..]);
      if xs[1..] != [] {
        SubsequenceOfTail(xs[1..], ys);
      }
    }
  }

  /** A set with no element is the empty set (what lets a loop pick an element of a
      non-empty set). */
  lemma EmptyIfNoElement(s: set<int>)
    ensures (forall x :: x !in s) ==> s == {}
  {
    if forall x :: x !in s {
      assert s == {};
    }
  }
}
