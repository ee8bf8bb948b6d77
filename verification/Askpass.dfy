/** Classification of OpenSSH prompts (internal/askpass/protocol.go). */
module Askpass {
  import opened Text

  datatype Mode = Input | Confirm | Notify

  const MAX_RESPONSE := 1022

  datatype Request = Request(prompt: string, mode: Mode, title: string, touch: bool)

  datatype Key = Key(path: string, kind: string, fingerprint: string)

  const PIN_TITLE := "Security key PIN"

  // ---------------------------------------------------------------- whitespace

  predicate IsSpace(c: char) {
    || 9 as char <= c <= 13 as char || c == ' ' || c as int == 0x85 || c as int == 0xA0
    || c as int == 0x1680 || 0x2000 <= c as int <= 0x200A || c as int == 0x2028 || c as int == 0x2029
    || c as int == 0x202F || c as int == 0x205F || c as int == 0x3000
  }

  /** Words of s, with `word` the part of the first one already read. */
  function Fields(s: string, word: string): seq<string>
    decreases s
  {
    if s == [] then (if word == [] then [] else [word])
    else if IsSpace(s[0]) then (if word == [] then [] else [word]) + Fields(s[1..], [])
    else Fields(s[1..], word + [s[0]])
  }

  function Join(words: seq<string>): string {
    if words == [] then [] else if |words| == 1 then words[0] else words[0] + " " + Join(words[1..])
  }

  function Normalize(prompt: string): string {
    Join(Fields(prompt, []))
  }

  // ---------------------------------------------------------------- requests

  const PRESENCE := "Confirm user presence for key"

  predicate IsTouch(prompt: string) {
    var n := Normalize(prompt);
    n == PRESENCE || HasPrefix(n, PRESENCE + " ")
  }

  /** None is the error for more than one argument. */
  function Parse(args: seq<string>, hint: string): Option<Request> {
    if |args| > 1 then None
    else
      var prompt := if |args| == 1 && args[0] != "" then args[0] else "Enter SSH passphrase:";
      var touch := IsTouch(prompt);
      if hint == "none" || (hint == "" && touch) then
        Some(Request(prompt, Notify, if touch then "Touch your security key" else "SSH notification", touch))
      else if hint == "confirm" then
        Some(Request(prompt, Confirm, "SSH confirmation", touch))
      else if HasPrefix(prompt, "Enter PIN for ")
              || HasPrefix(prompt, "Enter PIN and confirm user presence for ") then
        Some(Request(prompt, Input, PIN_TITLE, touch))
      else if HasPrefix(prompt, "Enter passphrase") || HasPrefix(prompt, "Bad passphrase") || |args| == 0 then
        Some(Request(prompt, Input, "SSH passphrase", touch))
      else
        Some(Request(prompt, Input, "SSH input", touch))
  }

  /** A response that may be printed or stored. */
  predicate Validate(value: seq<byte>) {
    && |value| <= MAX_RESPONSE
    && ValidUtf8(value)
    && forall i | 0 <= i < |value| :: value[i] != 0 && value[i] != 10 && value[i] != 13
  }

  const SHA256 := "SHA256:"

  predicate ValidFingerprint(value: string) {
    HasPrefix(value, SHA256) &&
    var encoded := value[|SHA256|..];
    match Decode64(SkipBreaks(encoded))
    case None => false
    case Some(digest) => |digest| == 32 && Encode64(digest) == encoded
  }

  // ---------------------------------------------------------------- cache keys

  const ALGORITHMS: seq<string> := ["ED25519-SK", "ECDSA-SK"]

  function PinPrefix(alg: string): string {
    "Enter PIN for " + alg + " key "
  }

  function PresencePrefix(alg: string): string {
    "Enter PIN and confirm user presence for " + alg + " key "
  }

  /** The group of `(.+): ?$`. */
  function BeforeColon(rest: string): Option<string> {
    if |rest| >= 2 && rest[|rest| - 1] == ':' then Some(rest[..|rest| - 1])
    else if |rest| >= 3 && rest[|rest| - 2..] == ": " then Some(rest[..|rest| - 2])
    else None
  }

  function AfterPrefix(prompt: string, prefix: string): Option<string> {
    if HasPrefix(prompt, prefix) then BeforeColon(prompt[|prefix|..]) else None
  }

  function Either(a: Option<string>, b: Option<string>): Option<string> {
    if a.Some? then a else b
  }

  /** The path group of the file PIN pattern. */
  function PinGroup(prompt: string): Option<string> {
    Either(AfterPrefix(prompt, PinPrefix(ALGORITHMS[0])), AfterPrefix(prompt, PinPrefix(ALGORITHMS[1])))
  }

  predicate FingerprintShape(g: string) {
    HasPrefix(g, SHA256) && |g| == |SHA256| + 43
    && forall i | |SHA256| <= i < |g| :: InAlphabet(g[i])
  }

  function Shaped(g: Option<string>): Option<string> {
    if g.Some? && FingerprintShape(g.value) then g else None
  }

  /** The fingerprint group of the agent PIN pattern. */
  function AgentGroup(prompt: string): Option<string> {
    Either(Shaped(PinGroup(prompt)),
           Shaped(Either(AfterPrefix(prompt, PresencePrefix(ALGORITHMS[0])),
                         AfterPrefix(prompt, PresencePrefix(ALGORITHMS[1])))))
  }

  const QUOTED := "Enter passphrase for key '"
  const PLAIN := "Enter passphrase for "
  const AGAIN := "Bad passphrase, try again for "
  const NO_KEY := Key("", "", "")

  predicate Unusable(path: string) {
    HasSuffix(path, " (will confirm each use)") || path == "(stdin)" || path == "PKCS#11"
  }

  function PassphraseKey(p: string, prefix: string): (Key, bool)
    requires HasPrefix(p, prefix)
  {
    var path := TrimSuffix(TrimPrefix(p, prefix), ":");
    if Unusable(path) then (NO_KEY, false) else (Key(path, "passphrase", ""), path != "")
  }

  function CacheKey(r: Request): (Key, bool) {
    if r.mode != Input || !SingleLine(r.prompt) then (NO_KEY, false)
    else
      var p := TrimSuffix(r.prompt, " ");
      var agent := AgentGroup(r.prompt);
      if agent.Some? then (Key("", "pin", agent.value), ValidFingerprint(agent.value))
      else if HasPrefix(p, QUOTED) && HasSuffix(p, "':") then
        var path := TrimSuffix(TrimPrefix(p, QUOTED), "':");
        (Key(path, "passphrase", ""), path != "" && ByteLen(path) < 100)
      else if HasPrefix(p, PLAIN) && HasSuffix(p, ":") && ByteLen(r.prompt) < 1023 then
        PassphraseKey(p, PLAIN)
      else if HasPrefix(p, AGAIN) && HasSuffix(p, ":") && ByteLen(r.prompt) < 1023 then
        PassphraseKey(p, AGAIN)
      else
        match PinGroup(r.prompt)
        case Some(path) =>
          if HasPrefix(path, SHA256) || HasPrefix(path, "MD5:") then (NO_KEY, false)
          else (Key(path, "pin", ""), true)
        case None => (NO_KEY, false)
  }

  // ---------------------------------------------------------------- responses

  predicate Printable(b: seq<byte>) {
    forall i | 0 <= i < |b| :: b[i] != 0 && b[i] != 10 && b[i] != 13
  }

  lemma PrintableChar(c: char)
    ensures Printable(Utf8Char(c)) <==> c != '\0' && c != '\n' && c != '\r'
  {
    assert Utf8Char(c)[0] in Utf8Char(c);
  }

  lemma PrintableBoth(a: seq<byte>, b: seq<byte>)
    ensures Printable(a + b) <==> Printable(a) && Printable(b)
  {
    if Printable(a + b) {
      forall i | 0 <= i < |a| ensures a[i] != 0 && a[i] != 10 && a[i] != 13 { assert (a + b)[i] == a[i]; }
      forall i | 0 <= i < |b| ensures b[i] != 0 && b[i] != 10 && b[i] != 13 { assert (a + b)[|a| + i] == b[i]; }
    }
  }

  lemma {:induction false} PrintableText(s: string)
    ensures Printable(Utf8(s)) <==> SingleLine(s)
  {
    hide Utf8Char, Printable;
    if s == "" {
      assert Printable([]) by { NothingToPrint(); }
    } else {
      PrintableText(s[1..]);
      PrintableChar(s[0]);
      PrintableBoth(Utf8Char(s[0]), Utf8(s[1..]));
      assert s == [s[0]] + s[1..];
    }
  }

  lemma NothingToPrint()
    ensures Printable([])
  {
  }

  /** A response is fit to print or keep if and only if it is the UTF-8 form of a text of at most 1022 bytes that has
      no NUL and no line break. */
  lemma ValidateIff(value: seq<byte>)
    ensures Validate(value) <==> |value| <= 1022 && exists s: string :: Utf8(s) == value && SingleLine(s)
  {
    assert Validate(value) <==> |value| <= 1022 && ValidUtf8(value) && Printable(value);
    hide Validate, ValidUtf8, Printable, SingleLine, Utf8;
    ValidUtf8Iff(value);
    forall s: string | Utf8(s) == value ensures Printable(value) <==> SingleLine(s) {
      PrintableText(s);
    }
  }

  // ---------------------------------------------------------------- fingerprints

  /** Accepted fingerprints are exactly the canonical encodings of 32-byte digests. */
  lemma FingerprintIff(value: string)
    ensures ValidFingerprint(value)
       <==> exists d: seq<byte> :: |d| == 32 && value == SHA256 + Encode64(d)
  {
    if ValidFingerprint(value) {
      var d := Decode64(SkipBreaks(value[|SHA256|..])).value;
      assert |d| == 32 && value == SHA256 + Encode64(d);
    }
    if d: seq<byte> :| |d| == 32 && value == SHA256 + Encode64(d) {
      EncodedLength(d);
      DecodeEncode64(d);
      assert value[|SHA256|..] == Encode64(d);
      NoBreaksToSkip(Encode64(d));
    }
  }

  /** The prompt pattern's 43-digit shape never excludes a valid fingerprint. */
  lemma ValidIsShaped(value: string)
    requires ValidFingerprint(value)
    ensures FingerprintShape(value)
  {
    FingerprintIff(value);
    var d: seq<byte> :| |d| == 32 && value == SHA256 + Encode64(d);
    EncodedLength(d);
    forall i | |SHA256| <= i < |value| ensures InAlphabet(value[i]) {
      assert value[i] == Encode64(d)[i - |SHA256|];
    }
  }
}
