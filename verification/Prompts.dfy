/** Printing an OpenSSH key prompt and reading it back (internal/askpass/protocol.go). */
module Prompts {
  import opened Text
  import opened Askpass

  /** The key prompts OpenSSH prints; `ed` tells the two security-key algorithms apart. */
  datatype Form = Pin(ed: bool) | Presence(ed: bool) | Quoted | Plain | Again

  function Algorithm(ed: bool): string {
    ALGORITHMS[if ed then 0 else 1]
  }

  function Stem(form: Form): string {
    match form
    case Pin(ed) => PinPrefix(Algorithm(ed))
    case Presence(ed) => PresencePrefix(Algorithm(ed))
    case Quoted => QUOTED
    case Plain => PLAIN
    case Again => AGAIN
  }

  function Closing(form: Form): string {
    if form.Quoted? then "':" else ":"
  }

  function Space(space: bool): string {
    if space then " " else ""
  }

  function Print(form: Form, subject: string, space: bool): string {
    Stem(form) + subject + Closing(form) + Space(space)
  }

  /** A path the code reads in an unquoted prompt as a quoted one. */
  predicate LooksQuoted(path: string) {
    HasPrefix(path, "key '") && HasSuffix(path, "'")
  }

  /** What a path must satisfy for its prompt to be read back. */
  predicate PathOk(form: Form, path: string, space: bool) {
    && path != "" && SingleLine(path)
    && match form
       case Pin(_) => !HasPrefix(path, SHA256) && !HasPrefix(path, "MD5:")
       case Presence(_) => false
       case Quoted => ByteLen(path) < 100
       case Plain => !Unusable(path) && !LooksQuoted(path) && ByteLen(Print(form, path, space)) < 1023
       case Again => !Unusable(path) && ByteLen(Print(form, path, space)) < 1023
  }

  function FileKey(form: Form, path: string): Key {
    Key(path, if form.Pin? then "pin" else "passphrase", "")
  }

  function AgentKey(fingerprint: string): Key {
    Key("", "pin", fingerprint)
  }

  // ---------------------------------------------------------------- a prompt is an input request

  lemma {:induction false} FirstWord(s: string, word: string)
    requires word != []
    ensures Fields(s, word) != [] && word <= Fields(s, word)[0]
    decreases s
  {
    if s != [] && !IsSpace(s[0]) {
      FirstWord(s[1..], word + [s[0]]);
    }
  }

  /** Normalizing keeps a first character that is no space. */
  lemma NormalizedHead(p: string)
    requires p != [] && !IsSpace(p[0])
    ensures Normalize(p) != [] && Normalize(p)[0] == p[0]
  {
    assert [] + [p[0]] == [p[0]];
    FirstWord(p[1..], [p[0]]);
    assert Fields(p, []) == Fields(p[1..], [p[0]]);
    var words := Fields(p, []);
    assert words[0][0] == p[0];
  }

  lemma StemHead(form: Form)
    ensures Stem(form) != [] && Stem(form)[0] in {'E', 'B'}
  {
  }

  lemma PrintedIsInput(form: Form, subject: string, space: bool, hint: string)
    requires hint != "none" && hint != "confirm"
    ensures var p := Print(form, subject, space);
            var r := Parse([p], hint);
            && r.Some? && r.value.mode == Input && r.value.prompt == p && !r.value.touch
            && (form.Pin? || form.Presence? ==> r.value.title == PIN_TITLE)
  {
    hide *;
    PrintedIsNoTouch(form, subject, space);
    PinTitles(form, subject, space);
    InputOf(Print(form, subject, space), hint);
    if form.Pin? || form.Presence? { Titled([Print(form, subject, space)], hint); }
  }

  lemma PrintedIsNoTouch(form: Form, subject: string, space: bool)
    ensures Print(form, subject, space) != "" && !IsTouch(Print(form, subject, space))
  {
    var p := Print(form, subject, space);
    StemHead(form);
    hide Stem;
    assert p[0] == Stem(form)[0];
    NormalizedHead(p);
    assert PRESENCE[0] == 'C';
  }

  lemma InputOf(p: string, hint: string)
    requires p != "" && !IsTouch(p) && hint != "none" && hint != "confirm"
    ensures var r := Parse([p], hint); r.Some? && r.value.mode == Input && r.value.prompt == p && !r.value.touch
  {
    hide IsTouch, HasPrefix;
  }

  lemma PinTitles(form: Form, subject: string, space: bool)
    ensures form.Pin? ==> HasPrefix(Print(form, subject, space), "Enter PIN for ")
    ensures form.Presence? ==> HasPrefix(Print(form, subject, space), "Enter PIN and confirm user presence for ")
  {
    match form
    case Pin(ed) => StartsAs(PinPrefix(Algorithm(ed)), "Enter PIN for ", Algorithm(ed) + " key ", subject, space);
    case Presence(ed) =>
      StartsAs(PresencePrefix(Algorithm(ed)), "Enter PIN and confirm user presence for ", Algorithm(ed) + " key ",
               subject, space);
    case _ =>
  }

  lemma StartsAs(stem: string, a: string, b: string, subject: string, space: bool)
    requires stem == a + b
    ensures HasPrefix(stem + subject + ":" + Space(space), a)
  {
    PrefixOf(a, b, stem + subject + ":" + Space(space));
  }

  lemma PrefixOf(a: string, b: string, p: string)
    ensures a + b <= p ==> a <= p
  {
    if a + b <= p {
      assert p[..|a|] == (a + b)[..|a|] == a;
    }
  }

  // ---------------------------------------------------------------- telling the forms apart

  lemma Differ(p: string, a: string, b: string, i: nat)
    requires a <= p && i < |a| && i < |b| && a[i] != b[i]
    ensures !HasPrefix(p, b)
  {
    assert p[i] == a[i];
  }

  lemma StemLetters(ed: bool)
    ensures |PinPrefix(Algorithm(ed))| >= 16 && |PresencePrefix(Algorithm(ed))| >= 42
    ensures PinPrefix(Algorithm(ed))[6] == 'P' && PresencePrefix(Algorithm(ed))[6] == 'P'
    ensures PinPrefix(Algorithm(ed))[10] == 'f' && PresencePrefix(Algorithm(ed))[10] == 'a'
    ensures PinPrefix(Algorithm(ed))[15] == (if ed then 'D' else 'C')
    ensures PresencePrefix(Algorithm(ed))[41] == (if ed then 'D' else 'C')
    ensures PinPrefix(Algorithm(ed))[0] == 'E' && PresencePrefix(Algorithm(ed))[0] == 'E'
  {
  }

  lemma PassphraseLetters()
    ensures |QUOTED| >= 22 && |PLAIN| >= 21 && |AGAIN| >= 21
    ensures QUOTED[6] == 'p' && PLAIN[6] == 'p' && QUOTED[0] == 'E' && PLAIN[0] == 'E' && AGAIN[0] == 'B'
    ensures PLAIN <= QUOTED && QUOTED[|PLAIN|..] == "key '"
  {
  }

  /** A prompt of one PIN form has no other form's beginning. */
  lemma PinStems(p: string, ed: bool)
    requires PinPrefix(Algorithm(ed)) <= p
    ensures !HasPrefix(p, PinPrefix(Algorithm(!ed)))
    ensures forall e :: !HasPrefix(p, PresencePrefix(Algorithm(e)))
    ensures !HasPrefix(p, QUOTED) && !HasPrefix(p, PLAIN) && !HasPrefix(p, AGAIN)
  {
    StemLetters(ed);
    StemLetters(!ed);
    PassphraseLetters();
    hide PinPrefix, PresencePrefix;
    var a := PinPrefix(Algorithm(ed));
    Differ(p, a, PinPrefix(Algorithm(!ed)), 15);
    Differ(p, a, PresencePrefix(Algorithm(ed)), 10);
    Differ(p, a, PresencePrefix(Algorithm(!ed)), 10);
    Differ(p, a, QUOTED, 6);
    Differ(p, a, PLAIN, 6);
    Differ(p, a, AGAIN, 0);
    forall e ensures !HasPrefix(p, PresencePrefix(Algorithm(e))) {
      if e != ed { assert e == !ed; }
    }
  }

  lemma PresenceStems(p: string, ed: bool)
    requires PresencePrefix(Algorithm(ed)) <= p
    ensures !HasPrefix(p, PresencePrefix(Algorithm(!ed)))
    ensures forall e :: !HasPrefix(p, PinPrefix(Algorithm(e)))
    ensures !HasPrefix(p, QUOTED) && !HasPrefix(p, PLAIN) && !HasPrefix(p, AGAIN)
  {
    StemLetters(ed);
    StemLetters(!ed);
    PassphraseLetters();
    hide PinPrefix, PresencePrefix;
    var a := PresencePrefix(Algorithm(ed));
    Differ(p, a, PresencePrefix(Algorithm(!ed)), 41);
    Differ(p, a, PinPrefix(Algorithm(ed)), 10);
    Differ(p, a, PinPrefix(Algorithm(!ed)), 10);
    Differ(p, a, QUOTED, 6);
    Differ(p, a, PLAIN, 6);
    Differ(p, a, AGAIN, 0);
    forall e ensures !HasPrefix(p, PinPrefix(Algorithm(e))) {
      if e != ed { assert e == !ed; }
    }
  }

  lemma PassphraseStems(p: string)
    requires PLAIN <= p || AGAIN <= p
    ensures forall e :: !HasPrefix(p, PinPrefix(Algorithm(e))) && !HasPrefix(p, PresencePrefix(Algorithm(e)))
    ensures AGAIN <= p ==> !HasPrefix(p, QUOTED) && !HasPrefix(p, PLAIN)
  {
    PassphraseLetters();
    forall e ensures !HasPrefix(p, PinPrefix(Algorithm(e))) && !HasPrefix(p, PresencePrefix(Algorithm(e))) {
      StemLetters(e);
      hide PinPrefix, PresencePrefix;
      if PLAIN <= p {
        Differ(p, PLAIN, PinPrefix(Algorithm(e)), 6);
        Differ(p, PLAIN, PresencePrefix(Algorithm(e)), 6);
      } else {
        Differ(p, AGAIN, PinPrefix(Algorithm(e)), 0);
        Differ(p, AGAIN, PresencePrefix(Algorithm(e)), 0);
      }
    }
    if AGAIN <= p {
      Differ(p, AGAIN, QUOTED, 0);
      Differ(p, AGAIN, PLAIN, 0);
    }
  }

  // ---------------------------------------------------------------- reading the subject back

  lemma ColonBack(subject: string, space: bool)
    ensures BeforeColon(subject + ":" + Space(space)) == if subject == "" then None else Some(subject)
  {
    var rest := subject + ":" + Space(space);
    if space {
      assert rest == subject + ": ";
      assert rest[|rest| - 2..] == ": " && rest[..|rest| - 2] == subject;
      assert rest[|rest| - 1] == ' ';
    } else {
      assert rest == subject + ":" && rest[..|rest| - 1] == subject;
    }
  }

  /** The prompt without its trailing space. */
  function Trimmed(form: Form, subject: string): string {
    Stem(form) + subject + Closing(form)
  }

  lemma TrimBack(form: Form, subject: string, space: bool)
    ensures TrimSuffix(Print(form, subject, space), " ") == Trimmed(form, subject)
  {
    hide Stem;
    var p := Print(form, subject, space);
    if space {
      assert p == Trimmed(form, subject) + " ";
    } else {
      assert p == Trimmed(form, subject);
      assert p[|p| - 1] == ':';
    }
  }

  lemma SingleLinePrint(form: Form, subject: string, space: bool)
    ensures SingleLine(Print(form, subject, space)) <==> SingleLine(subject)
  {
    StemSingleLine(form);
    hide Stem;
    var p := Print(form, subject, space);
    if SingleLine(p) {
      forall i | 0 <= i < |subject| ensures subject[i] != '\0' && subject[i] != '\r' && subject[i] != '\n' {
        assert p[|Stem(form)| + i] == subject[i];
      }
    }
  }

  lemma Joined(a: string, b: string)
    requires SingleLine(a) && SingleLine(b)
    ensures SingleLine(a + b)
  {
  }

  lemma StemSingleLine(form: Form)
    ensures SingleLine(Stem(form))
  {
    hide SingleLine;
    match form
    case Pin(ed) => PinStart(); PinSingleLine(ed, "Enter PIN for ");
    case Presence(ed) => PresenceStart(); PinSingleLine(ed, "Enter PIN and confirm user presence for ");
    case _ => PassphraseStarts();
  }

  lemma PinStart()
    ensures SingleLine("Enter PIN for ")
  {
  }

  lemma PresenceStart()
    ensures SingleLine("Enter PIN and confirm user presence for ")
  {
  }

  lemma PassphraseStarts()
    ensures SingleLine(QUOTED) && SingleLine(PLAIN) && SingleLine(AGAIN)
  {
  }

  lemma PinSingleLine(ed: bool, start: string)
    requires SingleLine(start)
    ensures SingleLine(start + Algorithm(ed) + " key ")
  {
    assert SingleLine(Algorithm(ed));
    hide SingleLine;
    Joined(start, Algorithm(ed));
    assert SingleLine(" key ") by { KeySingleLine(); }
    Joined(start + Algorithm(ed), " key ");
  }

  lemma KeySingleLine()
    ensures SingleLine(" key ")
  {
  }

  // ---------------------------------------------------------------- the groups of the two patterns

  /** A pattern group of a printed prompt. */
  lemma GroupBack(prefix: string, subject: string, space: bool)
    ensures AfterPrefix(prefix + subject + ":" + Space(space), prefix) == if subject == "" then None else Some(subject)
  {
    hide BeforeColon;
    var p := prefix + subject + ":" + Space(space);
    assert p[|prefix|..] == subject + ":" + Space(space);
    ColonBack(subject, space);
  }

  function Named(subject: string): Option<string> {
    if subject == "" then None else Some(subject)
  }

  lemma PinGroups(ed: bool, subject: string, space: bool)
    ensures var p := Print(Pin(ed), subject, space);
            && PinGroup(p) == Named(subject)
            && AgentGroup(p) == Shaped(Named(subject))
  {
    var p := Print(Pin(ed), subject, space);
    assert p == PinPrefix(Algorithm(ed)) + subject + ":" + Space(space);
    GroupBack(PinPrefix(Algorithm(ed)), subject, space);
    PinStems(p, ed);
    hide PinPrefix, PresencePrefix, BeforeColon, FingerprintShape;
    NoPresence(p);
    assert Algorithm(true) == ALGORITHMS[0] && Algorithm(false) == ALGORITHMS[1];
  }

  lemma NoPresence(p: string)
    requires forall e :: !HasPrefix(p, PresencePrefix(Algorithm(e)))
    ensures AfterPrefix(p, PresencePrefix(ALGORITHMS[0])) == AfterPrefix(p, PresencePrefix(ALGORITHMS[1])) == None
  {
    hide PresencePrefix;
    assert Algorithm(true) == ALGORITHMS[0] && Algorithm(false) == ALGORITHMS[1];
  }

  lemma NoPin(p: string)
    requires forall e :: !HasPrefix(p, PinPrefix(Algorithm(e)))
    ensures PinGroup(p) == None
  {
    hide PinPrefix;
    assert Algorithm(true) == ALGORITHMS[0] && Algorithm(false) == ALGORITHMS[1];
  }

  lemma PresenceGroups(ed: bool, subject: string, space: bool)
    ensures var p := Print(Presence(ed), subject, space);
            PinGroup(p) == None && AgentGroup(p) == Shaped(Named(subject))
  {
    var p := Print(Presence(ed), subject, space);
    assert p == PresencePrefix(Algorithm(ed)) + subject + ":" + Space(space);
    GroupBack(PresencePrefix(Algorithm(ed)), subject, space);
    PresenceStems(p, ed);
    hide PinPrefix, PresencePrefix, BeforeColon, FingerprintShape;
    NoPin(p);
    assert Algorithm(true) == ALGORITHMS[0] && Algorithm(false) == ALGORITHMS[1];
  }

  lemma NoGroups(p: string)
    requires PLAIN <= p || AGAIN <= p
    ensures PinGroup(p) == None && AgentGroup(p) == None
  {
    PassphraseStems(p);
    NoPin(p);
    NoPresence(p);
    hide PinPrefix, PresencePrefix, PinGroup;
  }

  // ---------------------------------------------------------------- the key of a printed prompt

  /** CacheKey of an input request, when the prompt is one line. */
  function KeyIn(p: string): (Key, bool) {
    CacheKey(Request(p, Input, "", false))
  }

  lemma KeyOnly(r: Request)
    requires r.mode == Input
    ensures CacheKey(r) == KeyIn(r.prompt)
  {
    hide AgentGroup, PinGroup, SingleLine, PassphraseKey;
  }

  lemma PinKey(ed: bool, subject: string, space: bool)
    ensures var (k, ok) := KeyIn(Print(Pin(ed), subject, space));
            && (k == FileKey(Pin(ed), subject) && ok <==> PathOk(Pin(ed), subject, space))
            && (k == AgentKey(subject) && ok <==> ValidFingerprint(subject))
  {
    var p := Print(Pin(ed), subject, space);
    PinGroups(ed, subject, space);
    SingleLinePrint(Pin(ed), subject, space);
    assert PinPrefix(Algorithm(ed)) <= p;
    PinStems(p, ed);
    Trim(p, QUOTED);
    Trim(p, PLAIN);
    Trim(p, AGAIN);
    Fingerprints(subject);
    hide PinPrefix, PresencePrefix, AgentGroup, PinGroup, SingleLine, Print, ValidFingerprint, PassphraseKey;
  }

  /** Trimming a trailing space gives a prompt no new beginning. */
  lemma Trim(p: string, prefix: string)
    ensures HasPrefix(TrimSuffix(p, " "), prefix) ==> HasPrefix(p, prefix)
  {
  }

  /** A fingerprint names no file, and has the shape the pattern asks for. */
  lemma Fingerprints(value: string)
    ensures FingerprintShape(value) ==> HasPrefix(value, SHA256)
    ensures ValidFingerprint(value) ==> FingerprintShape(value) && value != "" && SingleLine(value)
  {
    if ValidFingerprint(value) {
      ValidIsShaped(value);
      forall i | 0 <= i < |value| ensures value[i] != '\0' && value[i] != '\r' && value[i] != '\n' {
        if i < |SHA256| { assert value[i] == SHA256[i]; }
      }
    }
  }

  lemma PresenceKey(ed: bool, subject: string, space: bool)
    ensures var (k, ok) := KeyIn(Print(Presence(ed), subject, space));
            && !(k == FileKey(Presence(ed), subject) && ok)
            && (k == AgentKey(subject) && ok <==> ValidFingerprint(subject))
  {
    var p := Print(Presence(ed), subject, space);
    PresenceGroups(ed, subject, space);
    SingleLinePrint(Presence(ed), subject, space);
    assert PresencePrefix(Algorithm(ed)) <= p;
    PresenceStems(p, ed);
    Trim(p, QUOTED);
    Trim(p, PLAIN);
    Trim(p, AGAIN);
    Fingerprints(subject);
    hide PinPrefix, PresencePrefix, AgentGroup, PinGroup, SingleLine, Print, ValidFingerprint, PassphraseKey;
  }

  lemma Unwrapped(prefix: string, subject: string, suffix: string)
    ensures var t := prefix + subject + suffix;
            HasPrefix(t, prefix) && HasSuffix(t, suffix) && TrimSuffix(TrimPrefix(t, prefix), suffix) == subject
  {
    var t := prefix + subject + suffix;
    assert t[|prefix|..] == subject + suffix;
    assert (subject + suffix)[|subject|..] == suffix;
    assert t[|t| - |suffix|..] == suffix;
  }

  lemma QuotedKey(subject: string, space: bool)
    ensures var (k, ok) := KeyIn(Print(Quoted, subject, space));
            k == FileKey(Quoted, subject) && ok <==> PathOk(Quoted, subject, space)
  {
    var p := Print(Quoted, subject, space);
    PassphraseLetters();
    assert QUOTED <= p;
    NoGroups(p);
    TrimBack(Quoted, subject, space);
    SingleLinePrint(Quoted, subject, space);
    Unwrapped(QUOTED, subject, "':");
    hide AgentGroup, PinGroup, SingleLine, Print, PassphraseKey, ByteLen;
  }

  /** The passphrase branches, once the other forms are out of the way. */
  lemma ReadsAgain(p: string, t: string, path: string)
    requires AgentGroup(p) == None && PinGroup(p) == None && t == TrimSuffix(p, " ")
    requires !HasPrefix(t, QUOTED) && !HasPrefix(t, PLAIN) && HasPrefix(t, AGAIN) && HasSuffix(t, ":")
    requires TrimSuffix(TrimPrefix(t, AGAIN), ":") == path
    ensures KeyIn(p) == if !SingleLine(p) || ByteLen(p) >= 1023 || Unusable(path) then (NO_KEY, false)
                        else (Key(path, "passphrase", ""), path != "")
  {
    hide AgentGroup, PinGroup, SingleLine, ByteLen, Unusable, HasPrefix, HasSuffix, TrimPrefix, TrimSuffix;
  }

  lemma AgainKey(subject: string, space: bool)
    ensures var (k, ok) := KeyIn(Print(Again, subject, space));
            k == FileKey(Again, subject) && ok <==> PathOk(Again, subject, space)
  {
    AgainReads(subject, space);
    SingleLinePrint(Again, subject, space);
    hide KeyIn, Print, SingleLine, ByteLen, Unusable;
  }

  lemma AgainReads(subject: string, space: bool)
    ensures var p := Print(Again, subject, space);
            KeyIn(p) == if !SingleLine(p) || ByteLen(p) >= 1023 || Unusable(subject) then (NO_KEY, false)
                        else (Key(subject, "passphrase", ""), subject != "")
  {
    hide *;
    var p := Print(Again, subject, space);
    AgainStarts(subject, space);
    NoGroups(p);
    PassphraseStems(p);
    Trim(p, QUOTED);
    Trim(p, PLAIN);
    TrimBack(Again, subject, space);
    Unwrapped(AGAIN, subject, ":");
    ReadsAgain(p, AGAIN + subject + ":", subject);
  }

  lemma AgainStarts(subject: string, space: bool)
    ensures AGAIN <= Print(Again, subject, space) && Trimmed(Again, subject) == AGAIN + subject + ":"
  {
  }

  /** An unquoted prompt reads as a quoted one exactly when its path looks quoted. */
  lemma QuoteIff(subject: string)
    ensures var t := Trimmed(Form.Plain, subject);
            HasPrefix(t, QUOTED) && HasSuffix(t, "':") <==> LooksQuoted(subject)
  {
    var t := Trimmed(Form.Plain, subject);
    PassphraseLetters();
    assert QUOTED == PLAIN + "key '";
    assert t == PLAIN + (subject + ":");
    assert HasPrefix(t, QUOTED) <==> HasPrefix(subject + ":", "key '") by {
      UnderPrefix(PLAIN, subject + ":", "key '");
    }
    QuoteStart(subject);
    QuoteEnd(subject);
  }

  lemma UnderPrefix(a: string, b: string, c: string)
    ensures HasPrefix(a + b, a + c) <==> HasPrefix(b, c)
  {
    if a + c <= a + b {
      assert (a + b)[|a|..] == b && (a + c)[|a|..] == c;
      assert c == (a + b)[|a|..|a| + |c|] == b[..|c|];
    }
    if c <= b {
      assert (a + b)[..|a| + |c|] == a + b[..|c|] == a + c;
    }
  }

  lemma QuoteStart(subject: string)
    ensures HasPrefix(subject + ":", "key '") <==> HasPrefix(subject, "key '")
  {
    var t := subject + ":";
    if HasPrefix(t, "key '") {
      assert t[4] == '\'' && t[|subject|] == ':';
      assert |subject| >= 5;
      assert subject[..5] == t[..5] == "key '";
    }
    if HasPrefix(subject, "key '") {
      assert t[..5] == subject[..5];
    }
  }

  lemma QuoteEnd(subject: string)
    ensures HasSuffix(PLAIN + (subject + ":"), "':") <==> HasSuffix(subject, "'")
  {
    var t := PLAIN + (subject + ":");
    assert t[|t| - 1] == ':';
    if subject == "" {
      assert t[|t| - 2] == PLAIN[|PLAIN| - 1] == ' ';
      assert t[|t| - 2..][0] == t[|t| - 2];
    } else {
      assert t[|t| - 2] == subject[|subject| - 1];
      assert t[|t| - 2..] == [subject[|subject| - 1], ':'];
      assert subject[|subject| - 1..] == [subject[|subject| - 1]];
    }
  }

  lemma PlainKey(subject: string, space: bool)
    ensures var (k, ok) := KeyIn(Print(Form.Plain, subject, space));
            k == FileKey(Form.Plain, subject) && ok <==> PathOk(Form.Plain, subject, space)
  {
    var p := Print(Form.Plain, subject, space);
    assert PLAIN <= p;
    NoGroups(p);
    TrimBack(Form.Plain, subject, space);
    SingleLinePrint(Form.Plain, subject, space);
    QuoteIff(subject);
    Unwrapped(PLAIN, subject, ":");
    if LooksQuoted(subject) {
      Shorter(subject);
    } else {
      NotAgain(p);
    }
    hide AgentGroup, PinGroup, SingleLine, Print, ByteLen, Unusable, PinPrefix, PresencePrefix, LooksQuoted;
  }

  lemma NotAgain(p: string)
    requires PLAIN <= p
    ensures !HasPrefix(TrimSuffix(p, " "), AGAIN)
  {
    PassphraseLetters();
    Differ(p, PLAIN, AGAIN, 0);
    Trim(p, AGAIN);
  }

  /** The quoted reading gives another path. */
  lemma Shorter(subject: string)
    ensures var t := Trimmed(Form.Plain, subject);
            HasPrefix(t, QUOTED) ==> TrimSuffix(TrimPrefix(t, QUOTED), "':") != subject
  {
    PassphraseLetters();
    var t := Trimmed(Form.Plain, subject);
    assert |t| == |PLAIN| + |subject| + 1;
    assert |QUOTED| == |PLAIN| + 5;
  }

  // ---------------------------------------------------------------- main results

  /** Printing a path into any form and reading the prompt back gives the path and its kind, exactly
      for the paths the form can carry. */
  lemma PathRoundTrip(form: Form, path: string, space: bool, hint: string)
    requires hint != "none" && hint != "confirm"
    ensures var r := Parse([Print(form, path, space)], hint);
            r.Some? && (CacheKey(r.value) == (FileKey(form, path), true) <==> PathOk(form, path, space))
  {
    hide CacheKey, Parse, Print, PathOk, KeyIn;
    PrintedIsInput(form, path, space, hint);
    KeyOnly(Parse([Print(form, path, space)], hint).value);
    match form
    case Pin(ed) => PinKey(ed, path, space);
    case Presence(ed) => PresenceKey(ed, path, space); NoPresencePath(form, path, space);
    case Quoted => QuotedKey(path, space);
    case Plain => PlainKey(path, space);
    case Again => AgainKey(path, space);
  }

  lemma NoPresencePath(form: Form, path: string, space: bool)
    requires form.Presence?
    ensures !PathOk(form, path, space)
  {
  }

  /** The same for fingerprints of agent keys: exactly the valid ones come back. */
  lemma FingerprintRoundTrip(form: Form, fingerprint: string, space: bool, hint: string)
    requires hint != "none" && hint != "confirm" && (form.Pin? || form.Presence?)
    ensures var r := Parse([Print(form, fingerprint, space)], hint);
            && r.Some? && r.value.title == PIN_TITLE
            && (CacheKey(r.value) == (AgentKey(fingerprint), true) <==> ValidFingerprint(fingerprint))
  {
    hide CacheKey, Parse, Print, PathOk, KeyIn, ValidFingerprint;
    PrintedIsInput(form, fingerprint, space, hint);
    KeyOnly(Parse([Print(form, fingerprint, space)], hint).value);
    match form
    case Pin(ed) => PinKey(ed, fingerprint, space);
    case Presence(ed) => PresenceKey(ed, fingerprint, space);
  }

  /** A key of kind pin always comes with the PIN title, so that its verification cannot be skipped. */
  lemma PinsAreTitled(args: seq<string>, hint: string)
    requires Parse(args, hint).Some?
    ensures var r := Parse(args, hint).value; CacheKey(r).0.kind == "pin" ==> r.title == PIN_TITLE
  {
    hide *;
    var r := Parse(args, hint).value;
    if CacheKey(r).0.kind == "pin" {
      Grouped(r);
      if PinGroup(r.prompt).Some? {
        StartsWithPin(r.prompt);
      } else {
        StartsWithPresence(r.prompt);
      }
      Titled(args, hint);
    }
  }

  /** Of the keys that may be cached, the PINs are exactly those asked for under the PIN title. */
  lemma PinsIffTitled(args: seq<string>, hint: string)
    requires Parse(args, hint).Some? && CacheKey(Parse(args, hint).value).1
    ensures var r := Parse(args, hint).value; CacheKey(r).0.kind == "pin" <==> r.title == PIN_TITLE
  {
    hide *;
    var r := Parse(args, hint).value;
    PinsAreTitled(args, hint);
    if r.title == PIN_TITLE {
      TitlePrompts(args, hint);
      NoPassphrase(r.prompt);
      ElsePin(r);
    }
  }

  lemma TitlePrompts(args: seq<string>, hint: string)
    requires Parse(args, hint).Some? && Parse(args, hint).value.title == PIN_TITLE
    ensures var p := Parse(args, hint).value.prompt;
            HasPrefix(p, "Enter PIN for ") || HasPrefix(p, "Enter PIN and confirm user presence for ")
  {
    OtherTitles();
    hide IsTouch, HasPrefix;
  }

  lemma OtherTitles()
    ensures PIN_TITLE != "Touch your security key" && PIN_TITLE != "SSH notification" && PIN_TITLE != "SSH confirmation"
    ensures PIN_TITLE != "SSH passphrase" && PIN_TITLE != "SSH input"
  {
    assert PIN_TITLE[1] == 'e' && "SSH notification"[1] == 'S' && "SSH confirmation"[1] == 'S';
  }

  lemma NoPassphrase(p: string)
    requires HasPrefix(p, "Enter PIN for ") || HasPrefix(p, "Enter PIN and confirm user presence for ")
    ensures var t := TrimSuffix(p, " "); !HasPrefix(t, QUOTED) && !HasPrefix(t, PLAIN) && !HasPrefix(t, AGAIN)
  {
    PassphraseLetters();
    assert |p| > 6 && p[6] == 'P' && p[0] == 'E' by { PinLetters(p); }
    Differ(p, p, QUOTED, 6);
    Differ(p, p, PLAIN, 6);
    Differ(p, p, AGAIN, 0);
    Trim(p, QUOTED);
    Trim(p, PLAIN);
    Trim(p, AGAIN);
  }

  lemma PinLetters(p: string)
    requires HasPrefix(p, "Enter PIN for ") || HasPrefix(p, "Enter PIN and confirm user presence for ")
    ensures |p| > 6 && p[6] == 'P' && p[0] == 'E'
  {
    if HasPrefix(p, "Enter PIN for ") {
      assert p[6] == "Enter PIN for "[6] && p[0] == "Enter PIN for "[0];
    } else {
      var long := "Enter PIN and confirm user presence for ";
      assert p[6] == long[6] && p[0] == long[0];
    }
  }

  lemma ElsePin(r: Request)
    requires CacheKey(r).1
    requires var t := TrimSuffix(r.prompt, " "); !HasPrefix(t, QUOTED) && !HasPrefix(t, PLAIN) && !HasPrefix(t, AGAIN)
    ensures CacheKey(r).0.kind == "pin"
  {
    hide AgentGroup, PinGroup, SingleLine, ByteLen, HasPrefix, HasSuffix, TrimSuffix, PassphraseKey;
  }

  lemma Titled(args: seq<string>, hint: string)
    requires Parse(args, hint).Some? && Parse(args, hint).value.mode == Input
    requires var p := Parse(args, hint).value.prompt;
             HasPrefix(p, "Enter PIN for ") || HasPrefix(p, "Enter PIN and confirm user presence for ")
    ensures Parse(args, hint).value.title == PIN_TITLE
  {
    hide IsTouch, HasPrefix;
  }

  lemma Grouped(r: Request)
    requires CacheKey(r).0.kind == "pin"
    ensures r.mode == Input && (PinGroup(r.prompt).Some? || AgentGroup(r.prompt).Some?)
  {
    hide PinGroup, AgentGroup, SingleLine, Unusable;
    assert "passphrase" != "pin" by { assert |"passphrase"| != |"pin"|; }
  }

  lemma StartsWithPin(p: string)
    requires PinGroup(p).Some?
    ensures HasPrefix(p, "Enter PIN for ")
  {
    var e := HasPrefix(p, PinPrefix(Algorithm(true)));
    assert PinPrefix(Algorithm(e)) <= p;
    PrefixOf("Enter PIN for ", Algorithm(e) + " key ", p);
    assert "Enter PIN for " + (Algorithm(e) + " key ") == PinPrefix(Algorithm(e));
  }

  lemma StartsWithPresence(p: string)
    requires PinGroup(p) == None && AgentGroup(p).Some?
    ensures HasPrefix(p, "Enter PIN and confirm user presence for ")
  {
    hide PinGroup;
    var e := HasPrefix(p, PresencePrefix(Algorithm(true)));
    assert PresencePrefix(Algorithm(e)) <= p;
    PrefixOf("Enter PIN and confirm user presence for ", Algorithm(e) + " key ", p);
    assert "Enter PIN and confirm user presence for " + (Algorithm(e) + " key ") == PresencePrefix(Algorithm(e));
  }

  // ---------------------------------------------------------------- nothing else is recognised

  function Subject(k: Key): string {
    if k.path != "" then k.path else k.fingerprint
  }

  /** The quotes of the prompt overlap: one character serves as the opening and the closing one. This is
      the guard of the quoted branch and a bound on the length. */
  predicate QuotesOverlap(p: string) {
    var t := TrimSuffix(p, " ");
    HasPrefix(t, QUOTED) && HasSuffix(t, "':") && |t| < |QUOTED| + 2
  }

  ghost predicate PrintedFrom(p: string, k: Key) {
    exists form, space :: p == Print(form, Subject(k), space)
  }

  lemma PrintedAs(p: string, k: Key, form: Form, space: bool)
    requires p == Print(form, Subject(k), space)
    ensures PrintedFrom(p, k)
  {
    hide Print;
  }

  lemma GroupForward(p: string, prefix: string, g: string) returns (space: bool)
    requires AfterPrefix(p, prefix) == Some(g)
    ensures p == prefix + g + ":" + Space(space) && g != ""
  {
    var rest := p[|prefix|..];
    assert p == prefix + rest;
    space := rest[|rest| - 1] != ':';
    if space {
      assert rest == g + ": ";
    } else {
      assert rest == g + ":";
    }
  }

  lemma PinForward(p: string, g: string) returns (form: Form, space: bool)
    requires PinGroup(p) == Some(g)
    ensures g != "" && p == Print(form, g, space)
  {
    var ed := AfterPrefix(p, PinPrefix(ALGORITHMS[0])).Some?;
    assert AfterPrefix(p, PinPrefix(Algorithm(ed))) == Some(g);
    hide AfterPrefix, PinPrefix;
    form := Pin(ed);
    space := GroupForward(p, PinPrefix(Algorithm(ed)), g);
  }

  lemma PresenceForward(p: string, g: string) returns (form: Form, space: bool)
    requires Some(g)
          == Either(AfterPrefix(p, PresencePrefix(ALGORITHMS[0])), AfterPrefix(p, PresencePrefix(ALGORITHMS[1])))
    ensures g != "" && p == Print(form, g, space)
  {
    var ed := AfterPrefix(p, PresencePrefix(ALGORITHMS[0])).Some?;
    assert AfterPrefix(p, PresencePrefix(Algorithm(ed))) == Some(g);
    hide AfterPrefix, PresencePrefix;
    form := Presence(ed);
    space := GroupForward(p, PresencePrefix(Algorithm(ed)), g);
  }

  lemma AgentForward(p: string, g: string) returns (form: Form, space: bool)
    requires AgentGroup(p) == Some(g)
    ensures g != "" && p == Print(form, g, space)
  {
    hide FingerprintShape, PresencePrefix, AfterPrefix, Print, PinGroup;
    if PinGroup(p) == Some(g) {
      form, space := PinForward(p, g);
    } else {
      form, space := PresenceForward(p, g);
    }
  }

  lemma TrimForward(p: string) returns (space: bool)
    ensures p == TrimSuffix(p, " ") + Space(space)
  {
    space := HasSuffix(p, " ");
    if space {
      assert p == p[..|p| - 1] + p[|p| - 1..];
    }
  }

  /** A beginning and an end that do not overlap leave the subject between them. */
  lemma Between(t: string, prefix: string, suffix: string)
    requires HasPrefix(t, prefix) && HasSuffix(t, suffix) && |t| >= |prefix| + |suffix|
    ensures t == prefix + TrimSuffix(TrimPrefix(t, prefix), suffix) + suffix
  {
    var rest := t[|prefix|..];
    assert rest[|rest| - |suffix|..] == t[|t| - |suffix|..];
    assert t == prefix + rest && rest == rest[..|rest| - |suffix|] + suffix;
  }

  lemma EndsInSpace(form: Form)
    requires form.Plain? || form.Again?
    ensures Stem(form) != "" && Stem(form)[|Stem(form)| - 1] == ' '
  {
  }

  lemma PassphraseForward(p: string, form: Form) returns (space: bool)
    requires form.Plain? || form.Again?
    requires var t := TrimSuffix(p, " "); HasPrefix(t, Stem(form)) && HasSuffix(t, ":")
    ensures p == Print(form, TrimSuffix(TrimPrefix(TrimSuffix(p, " "), Stem(form)), ":"), space)
  {
    space := TrimForward(p);
    EndsInSpace(form);
    hide Stem;
    var t := TrimSuffix(p, " ");
    assert t[|t| - 1] == ':';
    assert |t| > |Stem(form)|;
    Between(t, Stem(form), ":");
  }

  lemma QuotedForward(p: string, k: Key)
    requires var t := TrimSuffix(p, " ");
             HasPrefix(t, QUOTED) && HasSuffix(t, "':") && k.path == TrimSuffix(TrimPrefix(t, QUOTED), "':") != ""
    requires !QuotesOverlap(p)
    ensures PrintedFrom(p, k)
  {
    var space := TrimForward(p);
    Between(TrimSuffix(p, " "), QUOTED, "':");
    PrintedAs(p, k, Quoted, space);
  }

  /** The only trimmed prompt whose quotes overlap is that of the unquoted path `key '`. */
  lemma Overlap(t: string)
    requires HasPrefix(t, QUOTED) && HasSuffix(t, "':") && |t| < |QUOTED| + 2
    ensures t == QUOTED + ":" == Trimmed(Form.Plain, "key '") && TrimSuffix(TrimPrefix(t, QUOTED), "':") == ":"
  {
    PassphraseLetters();
    assert QUOTED[|QUOTED| - 1] == '\'';
    assert t[|t| - 1] == ':' && t[|t| - 2] == '\'' by { assert t[|t| - 2..] == "':"; }
    assert t[|QUOTED| - 1] == QUOTED[|QUOTED| - 1];
    assert t == QUOTED + ":";
    assert QUOTED == PLAIN + "key '";
  }

  /** No form prints the path ":" to that prompt. */
  lemma ColonPrintsOther(form: Form)
    ensures Trimmed(form, ":") != QUOTED + ":"
  {
    var t := Trimmed(form, ":");
    PassphraseLetters();
    if form.Pin? || form.Presence? {
      StemLetters(form.ed);
      hide PinPrefix, PresencePrefix;
      assert t[6] == Stem(form)[6] == 'P';
      assert (QUOTED + ":")[6] == 'p';
    } else if form.Again? {
      assert t[0] == AGAIN[0] && (QUOTED + ":")[0] == 'E';
    } else {
      assert |QUOTED| == |PLAIN| + 5;
    }
  }

  /** The unquoted prompt for the path `key '`, with and without the space at its end, is read as the key
      of the path ":", which is printed in no form to that prompt. */
  lemma OverlapMisread(space: bool, hint: string)
    requires hint != "none" && hint != "confirm"
    ensures var p := Print(Form.Plain, "key '", space);
            && Parse([p], hint).Some? && QuotesOverlap(p)
            && CacheKey(Parse([p], hint).value) == (Key(":", "passphrase", ""), true)
            && !PrintedFrom(p, Key(":", "passphrase", ""))
  {
    hide *;
    var p := Print(Form.Plain, "key '", space);
    PrintedIsInput(Form.Plain, "key '", space, hint);
    KeyOnly(Parse([p], hint).value);
    KeyMisread(space);
    NotPrinted(p, Key(":", "passphrase", ""));
  }

  lemma KeyMisread(space: bool)
    ensures var p := Print(Form.Plain, "key '", space);
            QuotesOverlap(p) && KeyIn(p) == (Key(":", "passphrase", ""), true)
  {
    var p := Print(Form.Plain, "key '", space);
    MisreadStarts(space);
    NoGroups(p);
    TrimBack(Form.Plain, "key '", space);
    SingleLinePrint(Form.Plain, "key '", space);
    assert SingleLine("key '");
    QuoteIff("key '");
    assert LooksQuoted("key '");
    assert |Trimmed(Form.Plain, "key '")| < |QUOTED| + 2;
    Overlap(Trimmed(Form.Plain, "key '"));
    ShortColon();
    hide *;
    ReadsQuoted(p, Trimmed(Form.Plain, "key '"), ":");
    OverlapsWhen(p, Trimmed(Form.Plain, "key '"));
  }

  lemma MisreadStarts(space: bool)
    ensures PLAIN <= Print(Form.Plain, "key '", space)
  {
  }

  lemma ShortColon()
    ensures ByteLen(":") < 100
  {
    assert Utf8(":") == Utf8Char(':') + Utf8("");
  }

  lemma OverlapsWhen(p: string, t: string)
    requires t == TrimSuffix(p, " ") && HasPrefix(t, QUOTED) && HasSuffix(t, "':") && |t| < |QUOTED| + 2
    ensures QuotesOverlap(p)
  {
  }

  /** The quoted branch. */
  lemma ReadsQuoted(p: string, t: string, path: string)
    requires AgentGroup(p) == None && t == TrimSuffix(p, " ") && SingleLine(p)
    requires HasPrefix(t, QUOTED) && HasSuffix(t, "':") && TrimSuffix(TrimPrefix(t, QUOTED), "':") == path
    ensures KeyIn(p) == (Key(path, "passphrase", ""), path != "" && ByteLen(path) < 100)
  {
    hide AgentGroup, PinGroup, SingleLine, ByteLen, Unusable, HasPrefix, HasSuffix, TrimPrefix, TrimSuffix,
      PassphraseKey;
  }

  lemma NotPrinted(p: string, k: Key)
    requires QuotesOverlap(p) && k.path == ":"
    ensures !PrintedFrom(p, k)
  {
    Overlap(TrimSuffix(p, " "));
    hide Print, Trimmed, QuotesOverlap, TrimSuffix, TrimPrefix;
    forall form, space ensures p != Print(form, ":", space) {
      TrimBack(form, ":", space);
      ColonPrintsOther(form);
    }
  }

  lemma OverlapIsColon(r: Request)
    requires CacheKey(r).1 && QuotesOverlap(r.prompt)
    ensures CacheKey(r).0.path == ":"
  {
    var t := TrimSuffix(r.prompt, " ");
    Overlap(t);
    assert QUOTED <= r.prompt by { Trim(r.prompt, QUOTED); }
    PassphraseLetters();
    assert PLAIN <= r.prompt by { PrefixOf(PLAIN, "key '", r.prompt); assert QUOTED == PLAIN + "key '"; }
    NoGroups(r.prompt);
    hide AgentGroup, PinGroup, SingleLine, ByteLen, Unusable, HasPrefix, HasSuffix, TrimPrefix, TrimSuffix,
      PassphraseKey;
  }

  /** What is recognised as a key was printed from that key if and only if the quotes of the prompt do
      not overlap. */
  lemma OnlyPrinted(r: Request)
    requires CacheKey(r).1
    ensures PrintedFrom(r.prompt, CacheKey(r).0) <==> !QuotesOverlap(r.prompt)
  {
    if QuotesOverlap(r.prompt) {
      OverlapIsColon(r);
      hide *;
      NotPrinted(r.prompt, CacheKey(r).0);
    } else {
      WasPrinted(r);
    }
  }

  lemma WasPrinted(r: Request)
    requires CacheKey(r).1 && !QuotesOverlap(r.prompt)
    ensures PrintedFrom(r.prompt, CacheKey(r).0)
  {
    var p, k := r.prompt, CacheKey(r).0;
    var t := TrimSuffix(p, " ");
    hide AgentGroup, PinGroup, SingleLine, ByteLen, Unusable, ValidFingerprint, PrintedFrom, Print;
    hide HasPrefix, HasSuffix, TrimSuffix, TrimPrefix, QuotesOverlap;
    if AgentGroup(p).Some? {
      var form, space := AgentForward(p, AgentGroup(p).value);
      PrintedAs(p, k, form, space);
    } else if HasPrefix(t, QUOTED) && HasSuffix(t, "':") {
      QuotedForward(p, k);
    } else if HasPrefix(t, PLAIN) && HasSuffix(t, ":") && ByteLen(p) < 1023 {
      var space := PassphraseForward(p, Form.Plain);
      PrintedAs(p, k, Form.Plain, space);
    } else if HasPrefix(t, AGAIN) && HasSuffix(t, ":") && ByteLen(p) < 1023 {
      var space := PassphraseForward(p, Again);
      PrintedAs(p, k, Again, space);
    } else {
      var form, space := PinForward(p, k.path);
      PrintedAs(p, k, form, space);
    }
  }
}
