// Shared vocabulary of the model: bytes, fixed-width integer bounds, option and
// result wrappers, and the few Go standard-library behaviours the core relies on
// (strings.Split, fmt's %d, strconv.ParseInt and big-endian byte order).

module Common {

  newtype byte = x: int | 0 <= x < 256

  type Bytes = seq<byte>

  /** 2^32 and 2^64: the ranges of Go's uint32 and uint64. */
  const U32: nat := 0x1_0000_0000
  const U64: nat := 0x1_0000_0000_0000_0000
  /** The range of Go's int64 is [-Int64Max - 1, Int64Max]. */
  const Int64Max: int := 0x7fff_ffff_ffff_ffff

  datatype Option<T> = None | Some(value: T)

  datatype Result<T, E> = Ok(value: T) | Err(error: E)

  /** A hash is 32 bytes; the all-zero hash is Go's zero value of common.Hash. */
  const HashLength: nat := 32

  function Zeros(n: nat): (r: Bytes)
    ensures |r| == n && forall i :: 0 <= i < n ==> r[i] == 0
  {
    seq(n, _ => 0 as byte)
  }

  function ZeroHash(): (h: Bytes)
    ensures |h| == HashLength
  {
    Zeros(HashLength)
  }

  /** A byte string read as a string (Go's string([]byte) conversion). */
  function BytesToString(b: Bytes): (s: string)
    ensures |s| == |b| && forall i :: 0 <= i < |b| ==> s[i] as int == b[i] as int
  {
    seq(|b|, i requires 0 <= i < |b| => (b[i] as int) as char)
  }

  // ---------------------------------------------------------------------------
  // Sequence shapes, kept apart from recursive functions over sequences

  /** A non-empty sequence is its head followed by its tail. */
  lemma Uncons<T>(s: seq<T>)
    requires |s| > 0
    ensures s == [s[0]] + s[1..]
  {
  }

  /** A non-empty sequence is its front followed by its last element. */
  lemma Unsnoc<T>(s: seq<T>)
    requires |s| > 0
    ensures s == s[..|s| - 1] + [s[|s| - 1]]
  {
  }

  /** A prefix of a prefix is a prefix. */
  lemma TakeTake<T>(s: seq<T>, n: nat, m: nat)
    requires m <= n <= |s|
    ensures s[..n][..m] == s[..m]
  {
  }

  /** A sequence is its part before j, its element j and its part after j. */
  lemma Pivot<T>(b: seq<T>, j: nat)
    requires j < |b|
    ensures b == b[..j] + [b[j]] + b[j + 1..]
  {
  }

  // ---------------------------------------------------------------------------
  // Big-endian byte order (encoding/binary.BigEndian)

  function Pow256(n: nat): (r: nat)
    ensures r >= 1
  {
    if n == 0 then 1 else 256 * Pow256(n - 1)
  }

  /** The unsigned number a big-endian byte string denotes. */
  function BigEndian(b: Bytes): (r: nat)
    ensures r < Pow256(|b|)
  {
    if |b| == 0 then 0 else BigEndian(b[..|b| - 1]) * 256 + b[|b| - 1] as nat
  }

  /** The low `width` bytes of n, most significant first. */
  function EncodeBigEndian(n: nat, width: nat): (r: Bytes)
    ensures |r| == width
  {
    if width == 0 then [] else EncodeBigEndian(n / 256, width - 1) + [(n % 256) as byte]
  }

  lemma {:induction false} BigEndianOfEncode(n: nat, width: nat)
    requires n < Pow256(width)
    ensures BigEndian(EncodeBigEndian(n, width)) == n
  {
    if width > 0 {
      var e := EncodeBigEndian(n, width);
      assert e[..width - 1] == EncodeBigEndian(n / 256, width - 1);
      BigEndianOfEncode(n / 256, width - 1);
    }
  }

  /** Appending a byte to a number's big-endian form: the quotient by 256 and
      the remainder give the two parts back. */
  lemma LastByte(q: nat, last: byte)
    ensures (q * 256 + last as nat) / 256 == q && (q * 256 + last as nat) % 256 == last as nat
  {
  }

  lemma {:induction false} EncodeOfBigEndian(b: Bytes)
    ensures EncodeBigEndian(BigEndian(b), |b|) == b
  {
    if |b| > 0 {
      var p, last := b[..|b| - 1], b[|b| - 1];
      EncodeOfBigEndian(p);
      LastByte(BigEndian(p), last);
      Unsnoc(b);
    }
  }

  // ---------------------------------------------------------------------------
  // strings.Split

  /** sep occurs in s starting at position k. */
  predicate OccursAt(s: string, sep: string, k: int)
  {
    0 <= k && k + |sep| <= |s| && s[k..k + |sep|] == sep
  }

  /** The index of the first occurrence of sep in s, if any. */
  function IndexOf(s: string, sep: string): (r: Option<nat>)
    requires |sep| > 0
    ensures r.Some? ==> OccursAt(s, sep, r.value)
    ensures r.Some? ==> forall k :: 0 <= k < r.value ==> !OccursAt(s, sep, k)
    ensures r.None? ==> forall k :: !OccursAt(s, sep, k)
    decreases |s|
  {
    if |s| < |sep| then None
    else if s[..|sep|] == sep then Some(0)
    else
      var r := IndexOf(s[1..], sep);
      assert forall j :: 1 <= j ==> (OccursAt(s, sep, j) <==> OccursAt(s[1..], sep, j - 1)) by {
        forall j | 1 <= j ensures OccursAt(s, sep, j) <==> OccursAt(s[1..], sep, j - 1) {
          OccursAtTail(s, sep, j);
        }
      }
      match r
      case None => None
      case Some(k) => Some(k + 1)
  }

  /** An occurrence at j >= 1 is one at j - 1 in the tail. */
  lemma OccursAtTail(s: string, sep: string, j: int)
    requires 1 <= j && |s| >= 1
    ensures OccursAt(s, sep, j) <==> OccursAt(s[1..], sep, j - 1)
  {
    if j + |sep| <= |s| {
      assert s[1..][j - 1..j - 1 + |sep|] == s[j..j + |sep|];
    }
  }

  /** Go's strings.Split for a non-empty separator: the pieces between the
      non-overlapping occurrences of sep, scanning left to right. */
  function Split(s: string, sep: string): (parts: seq<string>)
    requires |sep| > 0
    ensures |parts| >= 1
    decreases |s|
  {
    match IndexOf(s, sep)
    case None => [s]
    case Some(i) => [s[..i]] + Split(s[i + |sep|..], sep)
  }

  /** sep does not occur in s. */
  ghost predicate Free(s: string, sep: string)
  {
    forall k :: !OccursAt(s, sep, k)
  }

  /** If the separator's first character occurs nowhere in a, then splitting
      a ++ sep ++ rest first cuts exactly after a. */
  lemma SplitAfter(a: string, sep: string, rest: string)
    requires |sep| > 0 && sep[0] !in a
    ensures Split(a + sep + rest, sep) == [a] + Split(rest, sep)
  {
    var s := a + sep + rest;
    assert s[|a|..|a| + |sep|] == sep;
    forall k | 0 <= k < |a|
      ensures !OccursAt(s, sep, k)
    {
      assert s[k] == a[k] != sep[0];
      if k + |sep| <= |s| {
        assert s[k..k + |sep|][0] == s[k];
      }
    }
    assert OccursAt(s, sep, |a|);
    var r := IndexOf(s, sep);
    assert r.Some?;
    assert r.value >= |a| by {
      assert OccursAt(s, sep, r.value);
    }
    assert r.value <= |a|;
    assert s[..|a|] == a;
    assert s[|a| + |sep|..] == rest;
  }

  /** A string without the separator splits into itself alone. */
  lemma SplitFree(s: string, sep: string)
    requires |sep| > 0 && Free(s, sep)
    ensures Split(s, sep) == [s]
  {
    var r := IndexOf(s, sep);
  }

  /** a ++ sep ++ b ++ sep ++ c splits into exactly [a, b, c] when neither a nor
      b holds the separator's first character and c does not hold the separator. */
  lemma SplitThree(a: string, b: string, c: string, sep: string)
    requires |sep| > 0 && sep[0] !in a && sep[0] !in b && Free(c, sep)
    ensures Split(a + sep + b + sep + c, sep) == [a, b, c]
  {
    var t := b + sep + c;
    calc {
      Split(a + sep + b + sep + c, sep);
    == { assert a + sep + b + sep + c == a + sep + t; }
      Split(a + sep + t, sep);
    == { SplitAfter(a, sep, t); }
      [a] + Split(t, sep);
    == { SplitAfter(b, sep, c); SplitFree(c, sep); }
      [a] + ([b] + [c]);
    ==
      [a, b, c];
    }
  }

  // ---------------------------------------------------------------------------
  // Decimal text: fmt's %d and strconv.ParseInt(s, 10, 64)

  predicate IsDigit(c: char) { '0' <= c <= '9' }

  function DigitChar(d: nat): (c: char)
    requires d < 10
    ensures IsDigit(c)
  {
    ('0' as int + d) as char
  }

  /** The decimal digits of n without leading zeros ("0" for zero). */
  function Digits(n: nat): (s: string)
    ensures |s| >= 1 && forall i :: 0 <= i < |s| ==> IsDigit(s[i])
  {
    if n < 10 then [DigitChar(n)] else Digits(n / 10) + [DigitChar(n % 10)]
  }

  /** fmt.Sprintf("%d", i). */
  function FormatInt(i: int): (s: string)
    ensures |s| >= 1
  {
    if i < 0 then "-" + Digits(-i) else Digits(i)
  }

  function DigitValue(c: char): (d: nat)
    requires IsDigit(c)
    ensures d < 10
  {
    c as int - '0' as int
  }

  /** The value of a string of decimal digits. */
  function DigitsValue(s: string): (n: nat)
    requires forall i :: 0 <= i < |s| ==> IsDigit(s[i])
  {
    if |s| == 0 then 0
    else DigitsValue(s[..|s| - 1]) * 10 + DigitValue(s[|s| - 1])
  }

  /** strconv.ParseInt(s, 10, 64): an optional sign, then one or more decimal
      digits, and a value inside the int64 range; anything else fails. */
  function ParseInt(s: string): (r: Option<int>)
    ensures r.Some? ==> -Int64Max - 1 <= r.value <= Int64Max
  {
    var neg := |s| > 0 && s[0] == '-';
    var body := if |s| > 0 && (s[0] == '-' || s[0] == '+') then s[1..] else s;
    if |body| == 0 || exists i :: 0 <= i < |body| && !IsDigit(body[i]) then None
    else
      var v: int := if neg then -(DigitsValue(body) as int) else DigitsValue(body);
      if -Int64Max - 1 <= v <= Int64Max then Some(v) else None
  }

  lemma {:induction false} DigitsValueOfDigits(n: nat)
    ensures DigitsValue(Digits(n)) == n
  {
    if n >= 10 {
      var d := Digits(n);
      assert d[..|d| - 1] == Digits(n / 10);
      DigitsValueOfDigits(n / 10);
    }
  }

  /** Parsing what %d printed gives the number back, for every int64. */
  lemma ParseIntOfFormatInt(i: int)
    requires -Int64Max - 1 <= i <= Int64Max
    ensures ParseInt(FormatInt(i)) == Some(i)
  {
    var s := FormatInt(i);
    if i < 0 {
      var d := Digits(-i);
      assert s == "-" + d && s[0] == '-' && s[1..] == d;
      DigitsValueOfDigits(-i);
    } else {
      var d := Digits(i);
      assert s == d && IsDigit(s[0]);
      DigitsValueOfDigits(i);
    }
  }
}
