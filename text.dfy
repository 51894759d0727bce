/**
 * The string helpers of Go's standard library that the client relies on:
 * strings.TrimSpace (with unicode.IsSpace), strings.TrimSuffix, len on a
 * string (a count of UTF-8 bytes) and the %d verb of fmt.
 */
module Text {

  /** unicode.IsSpace: the Latin-1 spaces plus the characters with the White_Space property. */
  predicate IsSpace(c: char)
    ensures c as int < 0x80 ==> (IsSpace(c) <==> c in "\t\n\U{000B}\U{000C}\r ")
    ensures IsSpace(c) ==> c as int <= 0x3000
  {
    var n := c as int;
    || n == 0x09 || n == 0x0A || n == 0x0B || n == 0x0C || n == 0x0D || n == 0x20
    || n == 0x85 || n == 0xA0 || n == 0x1680
    || (0x2000 <= n <= 0x200A)
    || n == 0x2028 || n == 0x2029 || n == 0x202F || n == 0x205F || n == 0x3000
  }

  /** Removes the leading white space: what is left is a suffix that does not start with a space. */
  function TrimLeft(s: string): (r: string)
    ensures |r| <= |s| && r == s[|s| - |r|..]
    ensures r == [] || !IsSpace(r[0])
  {
    if s != [] && IsSpace(s[0]) then TrimLeft(s[1..]) else s
  }

  /** Removes the trailing white space: what is left is a prefix that does not end with a space. */
  function TrimRight(s: string): (r: string)
    ensures |r| <= |s| && r == s[..|r|]
    ensures r == [] || !IsSpace(r[|r| - 1])
  {
    if s != [] && IsSpace(s[|s| - 1]) then TrimRight(s[..|s| - 1]) else s
  }

  /** strings.TrimSpace: what is kept is no longer than the input. */
  function TrimSpace(s: string): (r: string)
    ensures |r| <= |s|
  {
    TrimRight(TrimLeft(s))
  }

  /** What TrimSpace keeps neither starts nor ends with a space. */
  lemma TrimSpaceEnds(s: string)
    ensures var r := TrimSpace(s); r == [] || (!IsSpace(r[0]) && !IsSpace(r[|r| - 1]))
  {
    var l := TrimLeft(s);
    var r := TrimRight(l);
    if r != [] {
      assert r[0] == l[0];
    }
  }

  /** The test `strings.TrimSpace(x) == ""` that the client uses for "blank". */
  predicate IsBlank(s: string) {
    TrimSpace(s) == ""
  }

  predicate AllSpace(s: string) {
    forall k :: 0 <= k < |s| ==> IsSpace(s[k])
  }

  /** Everything TrimLeft drops is white space. */
  lemma {:induction false} TrimLeftDropsSpaces(s: string)
    ensures forall k {:trigger IsSpace(s[k])} :: 0 <= k < |s| - |TrimLeft(s)| ==> IsSpace(s[k])
  {
    if s != [] && IsSpace(s[0]) {
      TrimLeftDropsSpaces(s[1..]);
      assert forall k {:trigger IsSpace(s[k])} :: 1 <= k < |s| - |TrimLeft(s)| ==> IsSpace(s[1..][k - 1]);
    }
  }

  /** Everything TrimRight drops is white space. */
  lemma {:induction false} TrimRightDropsSpaces(s: string)
    ensures forall k {:trigger IsSpace(s[k])} :: |TrimRight(s)| <= k < |s| ==> IsSpace(s[k])
  {
    if s != [] && IsSpace(s[|s| - 1]) {
      TrimRightDropsSpaces(s[..|s| - 1]);
      assert forall k {:trigger IsSpace(s[k])} :: |TrimRight(s)| <= k < |s| - 1 ==> IsSpace(s[..|s| - 1][k]);
    }
  }

  /** A string trims to the empty string exactly when every character in it is white space. */
  lemma BlankIffAllSpace(s: string)
    ensures IsBlank(s) <==> AllSpace(s)
  {
    var l := TrimLeft(s);
    TrimLeftDropsSpaces(s);
    TrimRightDropsSpaces(l);
    if l != [] {
      assert !IsSpace(s[|s| - |l|]);
    }
    assert forall k :: |s| - |l| <= k < |s| ==> s[k] == l[k - (|s| - |l|)];
  }

  /** Trimming twice is the same as trimming once. */
  lemma TrimSpaceIdempotent(s: string)
    ensures TrimSpace(TrimSpace(s)) == TrimSpace(s)
  {
    var r := TrimSpace(s);
    TrimSpaceEnds(s);
    if r != [] {
      assert TrimLeft(r) == r;
      assert TrimRight(r) == r;
    }
  }

  /** Number of bytes of the UTF-8 encoding of one character. */
  function Utf8Width(c: char): (w: nat)
    ensures 1 <= w <= 4
  {
    var n := c as int;
    if n < 0x80 then 1 else if n < 0x800 then 2 else if n < 0x10000 then 3 else 4
  }

  /** Go's len on a string: the number of bytes of its UTF-8 encoding. */
  function Utf8Length(s: string): (n: nat)
    ensures |s| <= n <= 4 * |s|
  {
    if s == [] then 0 else Utf8Length(s[..|s| - 1]) + Utf8Width(s[|s| - 1])
  }

  predicate HasSuffix(s: string, suffix: string) {
    |suffix| <= |s| && s[|s| - |suffix|..] == suffix
  }

  /** strings.TrimSuffix: removes one copy of the suffix when the string ends with it. */
  function TrimSuffix(s: string, suffix: string): (r: string)
    ensures HasSuffix(s, suffix) ==> r + suffix == s
    ensures !HasSuffix(s, suffix) ==> r == s
  {
    if HasSuffix(s, suffix) then s[..|s| - |suffix|] else s
  }

  function DigitChar(d: nat): char
    requires d < 10
  {
    "0123456789"[d]
  }

  function DigitValue(c: char): nat {
    if '0' <= c <= '9' then (c as int - '0' as int) else 0
  }

  predicate IsDigits(s: string) {
    forall k :: 0 <= k < |s| ==> '0' <= s[k] <= '9'
  }

  /** Decimal notation of a natural number, without leading zeros. */
  function NatToString(n: nat): (s: string)
    ensures s != [] && IsDigits(s)
    ensures |s| > 1 ==> s[0] != '0'
  {
    if n < 10 then [DigitChar(n)] else NatToString(n / 10) + [DigitChar(n % 10)]
  }

  /** The %d verb of fmt: an optional minus sign, then the digits, from which the number can be read back. */
  function IntToString(n: int): (s: string)
    ensures s != [] && (s[0] == '-' <==> n < 0)
    ensures (if n < 0 then s[1..] else s) == NatToString(if n < 0 then -n else n)
    ensures ParseNat(if n < 0 then s[1..] else s) == if n < 0 then -n else n
  {
    var magnitude := if n < 0 then -n else n;
    NatToStringRoundTrip(magnitude);
    SignedDigits(n < 0, NatToString(magnitude))
  }

  /** The digits, after a minus sign when negative. */
  function SignedDigits(negative: bool, digits: string): (s: string)
    requires digits != [] && IsDigits(digits)
    ensures s != [] && (s[0] == '-' <==> negative)
    ensures (if negative then s[1..] else s) == digits
  {
    if negative then "-" + digits else digits
  }

  /** The value of a string of decimal digits. */
  function ParseNat(s: string): nat {
    if s == [] then 0 else ParseNat(s[..|s| - 1]) * 10 + DigitValue(s[|s| - 1])
  }

  /** %d loses nothing: the number can be read back from its decimal notation. */
  lemma {:induction false} NatToStringRoundTrip(n: nat)
    ensures ParseNat(NatToString(n)) == n
  {
    var d := DigitChar(n % 10);
    assert DigitValue(d) == n % 10;
    if n >= 10 {
      var p := NatToString(n / 10);
      assert (p + [d])[..|p + [d]| - 1] == p;
      NatToStringRoundTrip(n / 10);
    }
  }
}
