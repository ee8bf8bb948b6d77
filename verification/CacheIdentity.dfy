/** Identities of cached credentials (internal/cache/identity.go). */
module CacheIdentity {
  import opened Text
  import opened Askpass

  datatype Identity = Identity(key: Key, stamp: string)

  predicate AgentPIN(k: Key) {
    k.kind == "pin" && k.path == "" && ValidFingerprint(k.fingerprint)
  }

  predicate ValidKey(k: Key) {
    AgentPIN(k) || (k.fingerprint == "" && k.path != "" && (k.kind == "passphrase" || k.kind == "pin"))
  }

  /** A stamp without NUL, as file metadata in decimal always is. */
  predicate Plain(stamp: string) {
    forall i | 0 <= i < |stamp| :: stamp[i] != '\0'
  }

  // ---------------------------------------------------------------- files

  /** What the file system shows of a file: its canonical path, whether it is a regular file of this user, and its
      device, inode, size and times of modification and change (seconds and nanoseconds). */
  datatype File = File(path: string, regular: bool, own: bool, numbers: seq<int>)

  /** Seven numbers. */
  predicate FileOk(f: File) {
    |f.numbers| == 7
  }

  function Decimal(n: nat): string {
    if n < 10 then ['0' + n as char] else Decimal(n / 10) + ['0' + (n % 10) as char]
  }

  function Signed(i: int): string {
    if i < 0 then "-" + Decimal(-i) else Decimal(i)
  }

  /** The numbers in decimal, with colons between them. */
  function Stamp(numbers: seq<int>): string {
    if numbers == [] then "" else if |numbers| == 1 then Signed(numbers[0])
    else Signed(numbers[0]) + ":" + Stamp(numbers[1..])
  }

  /** Resolving a key when the file system shows this file under its path, or none. */
  function Resolve(k: Key, file: Option<File>): (r: Option<Identity>) {
    if !ValidKey(k) then None
    else if AgentPIN(k) then Some(Identity(k, ""))
    else match file
         case None => None
         case Some(f) => if f.regular && f.own then Some(Identity(k.(path := f.path), Stamp(f.numbers))) else None
  }

  /** The number a decimal text stands for. */
  function Read(s: string): int {
    if s == "" then 0 else Read(s[..|s| - 1]) * 10 + (s[|s| - 1] as int - '0' as int)
  }

  predicate Digits(s: string) {
    s != "" && forall i | 0 <= i < |s| :: '0' <= s[i] <= '9'
  }

  lemma {:induction false} DecimalRead(n: nat)
    ensures Digits(Decimal(n)) && Read(Decimal(n)) == n
  {
    if n >= 10 {
      DecimalRead(n / 10);
      var init, s := Decimal(n / 10), Decimal(n);
      assert s[..|s| - 1] == init;
    } else {
      assert Decimal(n)[..0] == "";
    }
  }

  lemma SignedIs(i: int)
    ensures Lacks(Signed(i), ':') && Lacks(Signed(i), '\0')
    ensures i < 0 <==> Signed(i)[0] == '-'
  {
    var digits := Decimal(if i < 0 then -i else i);
    DecimalRead(if i < 0 then -i else i);
    assert Signed(i) == if i < 0 then "-" + digits else digits;
    hide Decimal, Signed, Read;
  }

  lemma SignedInjective(i: int, j: int)
    requires Signed(i) == Signed(j)
    ensures i == j
  {
    SignedIs(i);
    SignedIs(j);
    DecimalRead(if i < 0 then -i else i);
    DecimalRead(if j < 0 then -j else j);
    if i < 0 {
      assert Signed(i)[1..] == Decimal(-i) && Signed(j)[1..] == Decimal(-j);
    }
  }

  /** Different numbers make different stamps. */
  lemma {:induction false} StampInjective(a: seq<int>, b: seq<int>)
    requires |a| == |b| && Stamp(a) == Stamp(b)
    ensures a == b
  {
    hide Signed;
    if |a| == 1 {
      SignedInjective(a[0], b[0]);
    } else if |a| > 1 {
      SignedIs(a[0]);
      SignedIs(b[0]);
      SplitOnce(Signed(a[0]), Stamp(a[1..]), Signed(b[0]), Stamp(b[1..]), ':');
      SignedInjective(a[0], b[0]);
      StampInjective(a[1..], b[1..]);
      assert a == [a[0]] + a[1..] && b == [b[0]] + b[1..];
    }
  }

  lemma {:induction false} StampIsPlain(numbers: seq<int>)
    ensures Plain(Stamp(numbers))
  {
    hide Signed;
    if numbers != [] {
      SignedIs(numbers[0]);
      StampIsPlain(numbers[1..]);
    }
  }

  /** A key resolves if and only if it is the PIN of an agent key, known by its fingerprint, or a passphrase or PIN of
      a path under which there is a regular file of this user. */
  lemma ResolvesIff(k: Key, file: Option<File>)
    ensures Resolve(k, file).Some? <==>
      || AgentPIN(k)
      || (&& k.fingerprint == "" && k.path != "" && k.kind in {"passphrase", "pin"}
          && file.Some? && file.value.regular && file.value.own)
  {
    hide ValidFingerprint;
  }

  /** Two files are the same to the cache if and only if they have the same path, device, inode, size and times. */
  lemma SameFileIff(k: Key, f: File, g: File)
    requires FileOk(f) && FileOk(g) && !AgentPIN(k) && Resolve(k, Some(f)).Some? && Resolve(k, Some(g)).Some?
    ensures Resolve(k, Some(f)) == Resolve(k, Some(g)) <==> f.path == g.path && f.numbers == g.numbers
  {
    hide ValidFingerprint, Stamp;
    if Stamp(f.numbers) == Stamp(g.numbers) { StampInjective(f.numbers, g.numbers); }
  }

  // ---------------------------------------------------------------- devices

  const DEVICE := "\0device:"

  /** The stamp of a PIN bound to one device connection. */
  function DeviceStamp(base: string, connection: string): string {
    base + DEVICE + connection
  }

  /** Index of the first NUL, or the length. */
  function FirstNul(s: string): (n: nat)
    ensures n <= |s|
    ensures forall i | 0 <= i < n :: s[i] != '\0'
    ensures n < |s| ==> s[n] == '\0'
  {
    if s == [] || s[0] == '\0' then 0 else 1 + FirstNul(s[1..])
  }

  lemma FirstNulOfStamp(b: string, c: string)
    requires Plain(b)
    ensures FirstNul(b) == |b|
    ensures FirstNul(DeviceStamp(b, c)) == |b|
  {
    var s := DeviceStamp(b, c);
    assert s[|b|] == '\0';
    assert forall i | 0 <= i < |b| :: s[i] == b[i];
  }

  /** Device stamps are injective, whatever the connection text holds, and never a plain stamp. */
  lemma DeviceStampInjective(b1: string, c1: string, b2: string, c2: string)
    requires Plain(b1) && Plain(b2)
    ensures DeviceStamp(b1, c1) == DeviceStamp(b2, c2) ==> b1 == b2 && c1 == c2
    ensures DeviceStamp(b1, c1) != b2
  {
    FirstNulOfStamp(b1, c1);
    FirstNulOfStamp(b2, c2);
    var s1, s2 := DeviceStamp(b1, c1), DeviceStamp(b2, c2);
    if s1 == s2 {
      assert b1 == s1[..|b1|] && b2 == s2[..|b2|];
      assert c1 == s1[|b1| + |DEVICE|..] && c2 == s2[|b2| + |DEVICE|..];
    }
    assert |s1| > |b1|;
  }
}
