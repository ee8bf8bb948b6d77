/** Bytes, UTF-8 and unpadded base64: the text formats the credential code tests for. */
module Text {
  newtype byte = x: int | 0 <= x < 256

  datatype Option<+T> = None | Some(value: T)

  /** The string contains none of NUL, CR and LF. */
  predicate SingleLine(s: string) {
    forall i | 0 <= i < |s| :: s[i] != '\0' && s[i] != '\r' && s[i] != '\n'
  }

  predicate HasPrefix(s: string, prefix: string) {
    prefix <= s
  }

  predicate HasSuffix(s: string, suffix: string) {
    |suffix| <= |s| && s[|s| - |suffix|..] == suffix
  }

  function TrimPrefix(s: string, prefix: string): string {
    if HasPrefix(s, prefix) then s[|prefix|..] else s
  }

  function TrimSuffix(s: string, suffix: string): string {
    if HasSuffix(s, suffix) then s[..|s| - |suffix|] else s
  }

  predicate Lacks(s: string, c: char) {
    forall i | 0 <= i < |s| :: s[i] != c
  }

  /** A text is split in one way at the first of a character. */
  lemma SplitOnce(a: string, x: string, b: string, y: string, c: char)
    requires Lacks(a, c) && Lacks(b, c) && a + [c] + x == b + [c] + y
    ensures a == b && x == y
  {
    var s, t := a + [c] + x, b + [c] + y;
    assert s[|a|] == c && t[|b|] == c;
    assert a == s[..|a|] == t[..|b|] == b;
    assert x == s[|a| + 1..] && y == t[|b| + 1..];
  }

  // ---------------------------------------------------------------- UTF-8

  /** The UTF-8 form of one Unicode scalar value (section 3 of RFC 3629). */
  function Utf8Char(c: char): (r: seq<byte>)
    ensures 1 <= |r| <= 4
  {
    var n := c as int;
    if n < 0x80 then [n as byte]
    else if n < 0x800 then [(0xC0 + n / 64) as byte, (0x80 + n % 64) as byte]
    else if n < 0x10000 then
      [(0xE0 + n / 4096) as byte, (0x80 + n / 64 % 64) as byte, (0x80 + n % 64) as byte]
    else
      [(0xF0 + n / 262144) as byte, (0x80 + n / 4096 % 64) as byte,
       (0x80 + n / 64 % 64) as byte, (0x80 + n % 64) as byte]
  }

  function Utf8(s: string): seq<byte> {
    if s == [] then [] else Utf8Char(s[0]) + Utf8(s[1..])
  }

  /** Length in bytes, as the source's `len` measures strings. */
  function ByteLen(s: string): nat {
    |Utf8(s)|
  }

  predicate Cont(b: byte) {
    0x80 <= b <= 0xBF
  }

  /** Length of the well-formed sequence at the front of b, 0 when there is none. */
  function LeadLength(b: seq<byte>): (n: nat)
    ensures n <= |b| && n <= 4
  {
    if |b| == 0 then 0
    else if b[0] < 0x80 then 1
    else if 0xC2 <= b[0] <= 0xDF && |b| >= 2 && Cont(b[1]) then 2
    else if 0xE0 <= b[0] <= 0xEF && |b| >= 3 && Cont(b[1]) && Cont(b[2])
            && (b[0] == 0xE0 ==> b[1] >= 0xA0) && (b[0] == 0xED ==> b[1] <= 0x9F) then 3
    else if 0xF0 <= b[0] <= 0xF4 && |b| >= 4 && Cont(b[1]) && Cont(b[2]) && Cont(b[3])
            && (b[0] == 0xF0 ==> b[1] >= 0x90) && (b[0] == 0xF4 ==> b[1] <= 0x8F) then 4
    else 0
  }

  /** One left-to-right pass over the bytes. */
  predicate ValidUtf8(b: seq<byte>) {
    b == [] || (LeadLength(b) > 0 && ValidUtf8(b[LeadLength(b)..]))
  }

  lemma LeadOfChar(c: char, rest: seq<byte>)
    ensures LeadLength(Utf8Char(c) + rest) == |Utf8Char(c)|
  {
    var n := c as int;
    var b := Utf8Char(c) + rest;
    if 0x800 <= n < 0x10000 {
      assert b[0] == (0xE0 + n / 4096) as byte && b[1] == (0x80 + n / 64 % 64) as byte;
      assert n / 4096 == n / 64 / 64;
    } else if 0x10000 <= n {
      assert b[0] == (0xF0 + n / 262144) as byte && b[1] == (0x80 + n / 4096 % 64) as byte;
      assert n / 262144 == n / 4096 / 64;
      assert n < 0x110000;
    }
  }

  /** The scalar value a well-formed sequence stands for. */
  function LeadChar(b: seq<byte>): (c: char)
    requires LeadLength(b) > 0
  {
    var n := LeadLength(b);
    if n == 1 then b[0] as char
    else if n == 2 then ((b[0] as int - 0xC0) * 64 + (b[1] as int - 0x80)) as char
    else if n == 3 then
      ((b[0] as int - 0xE0) * 4096 + (b[1] as int - 0x80) * 64 + (b[2] as int - 0x80)) as char
    else
      ((b[0] as int - 0xF0) * 262144 + (b[1] as int - 0x80) * 4096
        + (b[2] as int - 0x80) * 64 + (b[3] as int - 0x80)) as char
  }

  /** Base-64 digits of a number given by its digits. */
  lemma Digits64(a: int, b: int, c: int, d: int)
    requires 0 <= b < 64 && 0 <= c < 64 && 0 <= d < 64
    ensures ((a * 64 + b) * 64 + c) * 64 + d == a * 262144 + b * 4096 + c * 64 + d
    ensures var n := a * 262144 + b * 4096 + c * 64 + d;
            n / 262144 == a && n / 4096 % 64 == b && n / 64 % 64 == c && n % 64 == d
  {
    var n := a * 262144 + b * 4096 + c * 64 + d;
    assert n / 64 == a * 4096 + b * 64 + c;
    assert n / 4096 == a * 64 + b;
  }

  lemma CharOfLead(b: seq<byte>)
    requires LeadLength(b) > 0
    ensures Utf8Char(LeadChar(b)) == b[..LeadLength(b)]
  {
    var k, n := LeadLength(b), LeadChar(b) as int;
    if k == 2 {
      Digits64(0, 0, b[0] as int - 0xC0, b[1] as int - 0x80);
      assert 0x80 <= n < 0x800;
    } else if k == 3 {
      Digits64(0, b[0] as int - 0xE0, b[1] as int - 0x80, b[2] as int - 0x80);
      assert 0x800 <= n < 0x10000;
      assert n / 4096 == b[0] as int - 0xE0;
    } else if k == 4 {
      Digits64(b[0] as int - 0xF0, b[1] as int - 0x80, b[2] as int - 0x80, b[3] as int - 0x80);
      assert 0x10000 <= n;
    }
  }

  lemma {:induction false} EncodedIsValid(s: string)
    ensures ValidUtf8(Utf8(s))
  {
    if s != [] {
      LeadOfChar(s[0], Utf8(s[1..]));
      EncodedIsValid(s[1..]);
      assert Utf8(s)[|Utf8Char(s[0])|..] == Utf8(s[1..]);
    }
  }

  lemma {:induction false} ValidIsEncoded(b: seq<byte>) returns (s: string)
    requires ValidUtf8(b)
    ensures Utf8(s) == b
  {
    if b == [] {
      s := [];
    } else {
      var n := LeadLength(b);
      var rest := ValidIsEncoded(b[n..]);
      CharOfLead(b);
      s := [LeadChar(b)] + rest;
      assert s[1..] == rest;
      assert b == b[..n] + b[n..];
    }
  }

  /** The table-driven pass accepts exactly the encodings of scalar-value strings. */
  lemma ValidUtf8Iff(b: seq<byte>)
    ensures ValidUtf8(b) <==> exists s: string :: Utf8(s) == b
  {
    if ValidUtf8(b) {
      var s := ValidIsEncoded(b);
    }
    if s: string :| Utf8(s) == b {
      EncodedIsValid(s);
    }
  }

  // ---------------------------------------------------------------- base64

  /** The standard alphabet (section 4 of RFC 4648). */
  function Digit(v: int): (c: char)
    requires 0 <= v < 64
  {
    if v < 26 then ('A' as int + v) as char
    else if v < 52 then ('a' as int + (v - 26)) as char
    else if v < 62 then ('0' as int + (v - 52)) as char
    else if v == 62 then '+' else '/'
  }

  predicate InAlphabet(c: char) {
    'A' <= c <= 'Z' || 'a' <= c <= 'z' || '0' <= c <= '9' || c == '+' || c == '/'
  }

  function Value(c: char): (v: int)
    requires InAlphabet(c)
    ensures 0 <= v < 64 && Digit(v) == c
  {
    if 'A' <= c <= 'Z' then c as int - 'A' as int
    else if 'a' <= c <= 'z' then c as int - 'a' as int + 26
    else if '0' <= c <= '9' then c as int - '0' as int + 52
    else if c == '+' then 62 else 63
  }

  /** The four digits of three bytes. */
  function Group(x: byte, y: byte, z: byte): string {
    [Digit(x as int / 4), Digit(x as int % 4 * 16 + y as int / 16),
     Digit(y as int % 16 * 4 + z as int / 64), Digit(z as int % 64)]
  }

  /** Unpadded encoding, three bytes to four digits. */
  function Encode64(d: seq<byte>): string {
    if |d| == 0 then []
    else if |d| == 1 then
      [Digit(d[0] as int / 4), Digit(d[0] as int % 4 * 16)]
    else if |d| == 2 then
      [Digit(d[0] as int / 4), Digit(d[0] as int % 4 * 16 + d[1] as int / 16), Digit(d[1] as int % 16 * 4)]
    else
      Group(d[0], d[1], d[2]) + Encode64(d[3..])
  }

  /** The decoder drops line breaks wherever they stand. */
  function SkipBreaks(s: string): string {
    if s == [] then []
    else if s[0] == '\r' || s[0] == '\n' then SkipBreaks(s[1..])
    else [s[0]] + SkipBreaks(s[1..])
  }

  /** Strict unpadded decoding of text without breaks: unused low bits must be zero. */
  function Decode64(s: string): Option<seq<byte>> {
    if |s| == 0 then Some([])
    else if exists i | 0 <= i < |s| && i < 4 :: !InAlphabet(s[i]) then None
    else if |s| == 1 then None
    else
      var a, b := Value(s[0]), Value(s[1]);
      var x := (a * 4 + b / 16) as byte;
      if |s| == 2 then (if b % 16 == 0 then Some([x]) else None)
      else
        var c := Value(s[2]);
        var y := (b % 16 * 16 + c / 4) as byte;
        if |s| == 3 then (if c % 4 == 0 then Some([x, y]) else None)
        else
          var z := (c % 4 * 64 + Value(s[3])) as byte;
          match Decode64(s[4..])
          case None => None
          case Some(rest) => Some([x, y, z] + rest)
  }

  lemma DigitValue(v: int)
    requires 0 <= v < 64
    ensures InAlphabet(Digit(v)) && Value(Digit(v)) == v
  {
  }

  /** Cutting three bytes into four six-bit digits and back. */
  lemma Regroup(x: int, y: int, z: int)
    requires 0 <= x < 256 && 0 <= y < 256 && 0 <= z < 256
    ensures var b := x % 4 * 16 + y / 16; var c := y % 16 * 4 + z / 64;
            x / 4 * 4 + b / 16 == x && b % 16 * 16 + c / 4 == y && c % 4 * 64 + z % 64 == z
  {
    var b := x % 4 * 16 + y / 16;
    var c := y % 16 * 4 + z / 64;
    assert b / 16 == x % 4 && b % 16 == y / 16 && c / 4 == y % 16 && c % 4 == z / 64;
  }

  lemma {:induction false} EncodedLength(d: seq<byte>)
    ensures |Encode64(d)| == (|d| * 4 + 2) / 3
    ensures forall i | 0 <= i < |Encode64(d)| :: InAlphabet(Encode64(d)[i])
  {
    if |d| >= 3 {
      EncodedLength(d[3..]);
    }
  }

  lemma {:induction false} NoBreaksToSkip(s: string)
    requires forall i | 0 <= i < |s| :: InAlphabet(s[i])
    ensures SkipBreaks(s) == s
  {
    if s != [] {
      assert s[0] != '\r' && s[0] != '\n';
      NoBreaksToSkip(s[1..]);
    }
  }

  lemma DecodeOne(x: byte)
    ensures Decode64(Encode64([x])) == Some([x])
  {
    DigitValue(x as int / 4);
    DigitValue(x as int % 4 * 16);
    Regroup(x as int, 0, 0);
  }

  lemma DecodeTwo(x: byte, y: byte)
    ensures Decode64(Encode64([x, y])) == Some([x, y])
  {
    DigitValue(x as int / 4);
    DigitValue(x as int % 4 * 16 + y as int / 16);
    DigitValue(y as int % 16 * 4);
    Regroup(x as int, y as int, 0);
    var e := Encode64([x, y]);
    assert |e| == 3 && Value(e[0]) == x as int / 4 && Value(e[2]) == y as int % 16 * 4;
  }

  lemma DecodeStep(s: string, rest: seq<byte>)
    requires |s| >= 4 && (forall i | 0 <= i < 4 :: InAlphabet(s[i])) && Decode64(s[4..]) == Some(rest)
    ensures var a, b, c, d := Value(s[0]), Value(s[1]), Value(s[2]), Value(s[3]);
            Decode64(s) ==
              Some([(a * 4 + b / 16) as byte, (b % 16 * 16 + c / 4) as byte, (c % 4 * 64 + d) as byte] + rest)
  {
    hide Value, InAlphabet;
  }

  lemma GroupValues(x: byte, y: byte, z: byte)
    ensures var g := Group(x, y, z);
      && (forall i | 0 <= i < 4 :: InAlphabet(g[i]))
      && Value(g[0]) * 4 + Value(g[1]) / 16 == x as int
      && Value(g[1]) % 16 * 16 + Value(g[2]) / 4 == y as int
      && Value(g[2]) % 4 * 64 + Value(g[3]) == z as int
  {
    DigitValue(x as int / 4);
    DigitValue(x as int % 4 * 16 + y as int / 16);
    DigitValue(y as int % 16 * 4 + z as int / 64);
    DigitValue(z as int % 64);
    Regroup(x as int, y as int, z as int);
    hide Digit, Value, InAlphabet;
  }

  lemma DecodeGroup(x: byte, y: byte, z: byte, text: string, rest: seq<byte>)
    requires Decode64(text) == Some(rest)
    ensures Decode64(Group(x, y, z) + text) == Some([x, y, z] + rest)
  {
    GroupValues(x, y, z);
    var g := Group(x, y, z);
    assert |g| == 4;
    hide Group, Value, InAlphabet, Decode64;
    assert (g + text)[4..] == text;
    DecodeStep(g + text, rest);
  }

  /** Decoding inverts encoding on every byte string. */
  lemma {:induction false} DecodeEncode64(d: seq<byte>)
    ensures Decode64(Encode64(d)) == Some(d)
  {
    if |d| < 3 {
      DecodeShort(d);
    } else {
      DecodeEncode64(d[3..]);
      DecodeGroup(d[0], d[1], d[2], Encode64(d[3..]), d[3..]);
      assert d == [d[0], d[1], d[2]] + d[3..];
    }
  }

  lemma DecodeShort(d: seq<byte>)
    requires |d| < 3
    ensures Decode64(Encode64(d)) == Some(d)
  {
    if |d| == 1 {
      DecodeOne(d[0]);
      assert d == [d[0]];
    } else if |d| == 2 {
      DecodeTwo(d[0], d[1]);
      assert d == [d[0], d[1]];
    }
  }
}
