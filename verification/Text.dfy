/** Go strings as sequences of Unicode scalar values: white space, UTF-8 and UTF-16 lengths. */
module Text {

  /** `unicode.IsSpace`. */
  predicate IsSpace(c: char)
  {
    var n := c as int;
    || 0x09 <= n <= 0x0D || n == 0x20 || n == 0x85 || n == 0xA0 || n == 0x1680
    || 0x2000 <= n <= 0x200A || n == 0x2028 || n == 0x2029 || n == 0x202F || n == 0x205F || n == 0x3000
  }

  /** `strings.TrimSpace(s) == ""`. */
  predicate Blank(s: string)
  {
    forall i :: 0 <= i < |s| ==> IsSpace(s[i])
  }

  /** `strings.TrimSpace`. */
  function Trim(s: string): (t: string)
    ensures t == "" <==> Blank(s)
    ensures t != "" ==> !IsSpace(t[0]) && !IsSpace(t[|t| - 1])
  {
    if s == "" then ""
    else if IsSpace(s[0]) then
      assert Blank(s) <==> Blank(s[1..]);
      Trim(s[1..])
    else if IsSpace(s[|s| - 1]) then
      assert !Blank(s[..|s| - 1]) by { assert !IsSpace(s[..|s| - 1][0]); }
      Trim(s[..|s| - 1])
    else s
  }

  /** `strings.Split` on one character: the parts between its occurrences. */
  function Split(s: string, separator: char): (parts: seq<string>)
    ensures |parts| > 0
  {
    if s == "" then [""]
    else
      var rest := Split(s[1..], separator);
      if s[0] == separator then [""] + rest else [[s[0]] + rest[0]] + rest[1..]
  }

  /** `strings.Join`. */
  function Join(parts: seq<string>, separator: char): string
    requires |parts| > 0
  {
    if |parts| == 1 then parts[0] else parts[0] + [separator] + Join(parts[1..], separator)
  }

  /** Joining undoes splitting. */
  lemma {:induction false} JoinOfSplit(s: string, c: char)
    ensures Join(Split(s, c), c) == s
  {
    if s != "" {
      var rest := Split(s[1..], c);
      JoinOfSplit(s[1..], c);
      assert s == [s[0]] + s[1..];
      if s[0] == c {
        assert ([""] + rest)[1..] == rest;
        assert Join(Split(s, c), c) == "" + [c] + Join(rest, c);
      } else {
        var first := [s[0]] + rest[0];
        assert Split(s, c) == [first] + rest[1..];
        assert Split(s, c)[1..] == rest[1..];
        if |rest| > 1 {
          assert Join(Split(s, c), c) == first + [c] + Join(rest[1..], c);
          assert Join(rest, c) == rest[0] + [c] + Join(rest[1..], c);
        }
      }
    }
  }

  /** No part contains the separator. */
  lemma {:induction false} PartsAreFree(s: string, c: char)
    ensures forall i :: 0 <= i < |Split(s, c)| ==> c !in Split(s, c)[i]
  {
    if s != "" {
      PartsAreFree(s[1..], c);
    }
  }

  /** Splitting undoes joining, for parts without the separator. */
  lemma {:induction false} SplitOfJoin(parts: seq<string>, c: char)
    requires |parts| > 0 && forall i :: 0 <= i < |parts| ==> c !in parts[i]
    ensures Split(Join(parts, c), c) == parts
  {
    if |parts| == 1 {
      SplitOfPart(parts[0], c);
    } else {
      SplitOfJoin(parts[1..], c);
      SplitAfterPart(parts[0], Join(parts[1..], c), c);
      assert parts == [parts[0]] + parts[1..];
    }
  }

  lemma {:induction false} SplitOfPart(part: string, c: char)
    requires c !in part
    ensures Split(part, c) == [part]
  {
    if part != "" {
      SplitOfPart(part[1..], c);
      assert part == [part[0]] + part[1..];
    }
  }

  lemma {:induction false} SplitAfterPart(part: string, rest: string, c: char)
    requires c !in part
    ensures Split(part + [c] + rest, c) == [part] + Split(rest, c)
  {
    var s := part + [c] + rest;
    if part == "" {
      assert s[0] == c && s[1..] == rest;
    } else {
      SplitAfterPart(part[1..], rest, c);
      assert s[1..] == part[1..] + [c] + rest;
      var tail := Split(s[1..], c);
      assert tail[0] == part[1..] && tail[1..] == Split(rest, c);
      assert [s[0]] + tail[0] == part;
    }
  }

  type Byte = b: int | 0 <= b < 256

  /** The UTF-8 encoding of one code point. */
  function Utf8Char(c: char): (b: seq<Byte>)
    ensures 1 <= |b| <= 4
  {
    var n := c as int;
    if n < 0x80 then [n]
    else if n < 0x800 then [0xC0 + n / 0x40, 0x80 + n % 0x40]
    else if n < 0x10000 then [0xE0 + n / 0x1000, 0x80 + n / 0x40 % 0x40, 0x80 + n % 0x40]
    else [0xF0 + n / 0x40000, 0x80 + n / 0x1000 % 0x40, 0x80 + n / 0x40 % 0x40, 0x80 + n % 0x40]
  }

  function Utf8(s: string): seq<Byte>
  {
    if s == "" then [] else Utf8Char(s[0]) + Utf8(s[1..])
  }

  /** `len(s)` of a Go string. */
  function ByteLength(s: string): nat
  {
    |Utf8(s)|
  }

  predicate Ascii(s: string)
  {
    forall i :: 0 <= i < |s| ==> s[i] as int < 0x80
  }

  lemma {:induction false} AsciiLength(s: string)
    requires Ascii(s)
    ensures ByteLength(s) == |s|
  {
    if s != "" {
      AsciiLength(s[1..]);
    }
  }

  /** No code point's encoding is the beginning of another one's. */
  lemma Utf8CharPrefixFree(a: char, b: char, x: seq<Byte>, y: seq<Byte>)
    requires Utf8Char(a) + x == Utf8Char(b) + y
    ensures a == b && x == y
  {
    var p, q := Utf8Char(a), Utf8Char(b);
    assert p[0] == (p + x)[0] == (q + y)[0] == q[0];
    assert |p| == |q|;
    SameHead(p, x, q, y);
    Utf8CharRoundTrip(a);
    Utf8CharRoundTrip(b);
    assert a as int == b as int;
  }

  lemma SameHead(p: seq<Byte>, x: seq<Byte>, q: seq<Byte>, y: seq<Byte>)
    requires p + x == q + y && |p| == |q|
    ensures p == q && x == y
  {
    assert p == (p + x)[..|p|] == (q + y)[..|q|] == q;
    assert x == (p + x)[|p|..] == (q + y)[|q|..] == y;
  }

  /** The code point a UTF-8 sequence stands for. */
  function Utf8Value(b: seq<int>): int
    requires 1 <= |b| <= 4
  {
    if |b| == 1 then b[0]
    else if |b| == 2 then (b[0] - 0xC0) * 0x40 + (b[1] - 0x80)
    else if |b| == 3 then (b[0] - 0xE0) * 0x1000 + (b[1] - 0x80) * 0x40 + (b[2] - 0x80)
    else (b[0] - 0xF0) * 0x40000 + (b[1] - 0x80) * 0x1000 + (b[2] - 0x80) * 0x40 + (b[3] - 0x80)
  }

  /** Decoding an encoded code point gives it back. */
  lemma Utf8CharRoundTrip(c: char)
    ensures Utf8Value(Utf8Char(c)) == c as int
  {
    var n := c as int;
    if n >= 0x10000 {
      assert n / 0x40 % 0x40 == n / 0x40 - 0x40 * (n / 0x1000);
      assert n / 0x1000 % 0x40 == n / 0x1000 - 0x40 * (n / 0x40000);
    }
  }

  lemma {:induction false} Utf8Injective(s: string, t: string)
    requires Utf8(s) == Utf8(t)
    ensures s == t
  {
    if s == "" || t == "" {
      assert |Utf8(s)| == |Utf8(t)|;
    } else {
      Utf8CharPrefixFree(s[0], t[0], Utf8(s[1..]), Utf8(t[1..]));
      Utf8Injective(s[1..], t[1..]);
      assert s == [s[0]] + s[1..] && t == [t[0]] + t[1..];
    }
  }

  /** `utf16.RuneLen`. */
  function Utf16Units(c: char): (n: nat)
    ensures 1 <= n <= 2
  {
    if c as int < 0x10000 then 1 else 2
  }

  /** `callback.UTF16Len`. */
  function Utf16Length(s: string): nat
  {
    if s == "" then 0 else Utf16Units(s[|s| - 1]) + Utf16Length(s[..|s| - 1])
  }

  lemma Utf16Append(s: string, c: char)
    ensures Utf16Length(s + [c]) == Utf16Length(s) + Utf16Units(c)
  {
  }

  /** Longer prefixes are longer. */
  lemma {:induction false} Utf16PrefixMonotone(s: string, i: nat, j: nat)
    requires i <= j <= |s|
    ensures Utf16Length(s[..i]) <= Utf16Length(s[..j])
    decreases j - i
  {
    if i < j {
      Utf16PrefixMonotone(s, i, j - 1);
      assert s[..j] == s[..j - 1] + [s[j - 1]];
      Utf16Append(s[..j - 1], s[j - 1]);
    }
  }

  /** The longest prefix of `value` that fits into `limit` UTF-16 units, code points kept whole. */
  method TruncateUtf16(value: string, limit: int) returns (r: string)
    ensures r <= value
    ensures Utf16Length(r) <= (if limit > 0 then limit else 0)
    ensures forall n :: |r| < n <= |value| ==> Utf16Length(value[..n]) > limit
  {
    if limit <= 0 {
      r := "";
      forall n | 0 < n <= |value| ensures Utf16Length(value[..n]) > limit {
        Utf16PrefixMonotone(value, 0, n);
        assert Utf16Length(value[..1]) >= 1 by { Utf16Append("", value[0]); assert value[..1] == "" + [value[0]]; }
        Utf16PrefixMonotone(value, 1, n);
      }
      return;
    }
    if Utf16Length(value) <= limit {
      return value;
    }
    r := "";
    var used, i := 0, 0;
    while i < |value| && used + Utf16Units(value[i]) <= limit
      invariant i <= |value| && r == value[..i]
      invariant used == Utf16Length(r) <= limit
    {
      assert value[..i + 1] == r + [value[i]];
      Utf16Append(r, value[i]);
      r := r + [value[i]];
      used := used + Utf16Units(value[i]);
      i := i + 1;
    }
    forall n | i < n <= |value| ensures Utf16Length(value[..n]) > limit {
      assert value[..i + 1] == r + [value[i]];
      Utf16Append(r, value[i]);
      Utf16PrefixMonotone(value, i + 1, n);
    }
  }

  // --------------------------------------------------------------------- decimals

  predicate Digit(c: char)
  {
    '0' <= c <= '9'
  }

  predicate Decimal(s: string)
  {
    0 < |s| && forall i :: 0 <= i < |s| ==> Digit(s[i])
  }

  function DigitValue(c: char): nat
    requires Digit(c)
  {
    c as int - '0' as int
  }

  function DecimalValue(s: string): nat
    requires forall i :: 0 <= i < |s| ==> Digit(s[i])
  {
    if s == "" then 0 else 10 * DecimalValue(s[..|s| - 1]) + DigitValue(s[|s| - 1])
  }

  /** The decimal digits of a number. */
  function FormatNat(n: nat): (s: string)
    ensures Decimal(s)
  {
    var last := '0' + (n % 10) as char;
    if n < 10 then [last] else FormatNat(n / 10) + [last]
  }

  /** `strconv.FormatInt(n, 10)`. */
  function FormatInt(n: int): string
  {
    if n < 0 then "-" + FormatNat(-n) else FormatNat(n)
  }

  lemma {:induction false} FormatNatRoundTrip(n: nat)
    ensures DecimalValue(FormatNat(n)) == n
  {
    var s := FormatNat(n);
    if n < 10 {
      assert s[..0] == "";
    } else {
      FormatNatRoundTrip(n / 10);
      assert s[..|s| - 1] == FormatNat(n / 10);
    }
  }

  lemma FormatIntInjective(a: int, b: int)
    requires FormatInt(a) == FormatInt(b)
    ensures a == b
  {
    assert FormatInt(a)[0] == '-' <==> a < 0;
    assert FormatInt(b)[0] == '-' <==> b < 0;
    var x, y := if a < 0 then -a else a, if b < 0 then -b else b;
    assert FormatNat(x) == FormatNat(y) by {
      assert a < 0 ==> FormatInt(a)[1..] == FormatNat(x);
      assert b < 0 ==> FormatInt(b)[1..] == FormatNat(y);
    }
    FormatNatRoundTrip(x);
    FormatNatRoundTrip(y);
  }

  lemma NoSlashInNumbers(n: int)
    ensures '/' !in FormatInt(n)
  {
  }
}
