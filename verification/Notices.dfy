/** Which prompts announce a touch: the words of a prompt and the spaces between them. */
module Notices {
  import opened Text
  import opened Askpass

  // ---------------------------------------------------------------- words

  predicate IsWord(w: string) {
    w != "" && forall i | 0 <= i < |w| :: !IsSpace(w[i])
  }

  predicate IsGap(g: string) {
    forall i | 0 <= i < |g| :: IsSpace(g[i])
  }

  /** A gap before each word and one after the last; only the outer two may be empty. */
  predicate Spaced(gaps: seq<string>, words: seq<string>) {
    && |gaps| == |words| + 1
    && (forall i | 0 <= i < |words| :: IsWord(words[i]))
    && (forall i | 0 <= i < |gaps| :: IsGap(gaps[i]))
    && (forall i | 0 < i < |words| :: gaps[i] != "")
  }

  function Write(gaps: seq<string>, words: seq<string>): string
    requires |gaps| == |words| + 1
  {
    if words == [] then gaps[0] else gaps[0] + words[0] + Write(gaps[1..], words[1..])
  }

  lemma {:induction false} SkipGap(g: string, s: string)
    requires IsGap(g)
    ensures Fields(g + s, "") == Fields(s, "")
  {
    if g == "" {
      assert g + s == s;
    } else {
      assert (g + s)[1..] == g[1..] + s;
      SkipGap(g[1..], s);
      assert Fields(g + s, "") == [] + Fields(g[1..] + s, "");
    }
  }

  lemma {:induction false} ReadWord(word: string, w: string, s: string)
    requires forall i | 0 <= i < |w| :: !IsSpace(w[i])
    ensures Fields(w + s, word) == Fields(s, word + w)
    decreases |w|
  {
    if w == "" {
      assert w + s == s && word + w == word;
    } else {
      assert (w + s)[1..] == w[1..] + s && word + [w[0]] + w[1..] == word + w;
      ReadWord(word + [w[0]], w[1..], s);
    }
  }

  lemma AfterWord(word: string, s: string)
    requires word != "" && (s == "" || IsSpace(s[0]))
    ensures Fields(s, word) == [word] + Fields(s, "")
  {
    if s != "" {
      assert Fields(s, "") == [] + Fields(s[1..], "");
    }
  }

  lemma StartsWithGap(gaps: seq<string>, words: seq<string>)
    requires Spaced(gaps, words) && (words != [] ==> gaps[0] != "")
    ensures var s := Write(gaps, words); s == "" || IsSpace(s[0])
  {
  }

  lemma TailSpaced(gaps: seq<string>, words: seq<string>)
    requires Spaced(gaps, words) && words != []
    ensures Spaced(gaps[1..], words[1..]) && (words[1..] != [] ==> gaps[1..][0] != "")
  {
    hide IsWord, IsGap;
  }

  /** Splitting a text into words gives back the words it was written with. */
  lemma {:induction false} WordsBack(gaps: seq<string>, words: seq<string>)
    requires Spaced(gaps, words)
    ensures Fields(Write(gaps, words), "") == words
    decreases |words|
  {
    if words == [] {
      SkipGap(gaps[0], "");
      assert gaps[0] + "" == gaps[0];
    } else {
      var rest := Write(gaps[1..], words[1..]);
      TailSpaced(gaps, words);
      WordsBack(gaps[1..], words[1..]);
      StartsWithGap(gaps[1..], words[1..]);
      SkipGap(gaps[0], words[0] + rest);
      ReadWord("", words[0], rest);
      AfterWord(words[0], rest);
      assert gaps[0] + words[0] + rest == gaps[0] + (words[0] + rest) && "" + words[0] == words[0];
      assert [words[0]] + words[1..] == words;
    }
  }

  /** The first character of no word, or the end. */
  function GapLength(s: string): (n: nat)
    ensures n <= |s| && (forall i | 0 <= i < n :: IsSpace(s[i])) && (n < |s| ==> !IsSpace(s[n]))
  {
    if s == "" || !IsSpace(s[0]) then 0 else 1 + GapLength(s[1..])
  }

  function WordLength(s: string): (n: nat)
    ensures n <= |s| && (forall i | 0 <= i < n :: !IsSpace(s[i])) && (n < |s| ==> IsSpace(s[n]))
  {
    if s == "" || IsSpace(s[0]) then 0 else 1 + WordLength(s[1..])
  }

  /** One more word in front. */
  lemma OneMore(g: string, w: string, gaps: seq<string>, words: seq<string>)
    requires IsGap(g) && IsWord(w) && Spaced(gaps, words) && (words != [] ==> gaps[0] != "")
    ensures Spaced([g] + gaps, [w] + words) && Write([g] + gaps, [w] + words) == g + w + Write(gaps, words)
  {
    assert ([g] + gaps)[1..] == gaps && ([w] + words)[1..] == words;
    hide IsGap, IsWord;
  }

  /** Every text is words with gaps. */
  lemma {:induction false} SomeWords(s: string) returns (gaps: seq<string>, words: seq<string>)
    ensures Spaced(gaps, words) && Write(gaps, words) == s
    decreases |s|
  {
    var g := GapLength(s);
    if g == |s| {
      gaps, words := [s], [];
    } else {
      var w := WordLength(s[g..]);
      var gap, word, rest := s[..g], s[g..][..w], s[g..][w..];
      assert s == gap + word + rest;
      var gs, ws := SomeWords(rest);
      FirstGap(gs, ws);
      OneMore(gap, word, gs, ws);
      gaps, words := [gap] + gs, [word] + ws;
    }
  }

  /** A text that does not begin with a word begins with a gap. */
  lemma FirstGap(gaps: seq<string>, words: seq<string>)
    requires Spaced(gaps, words)
    ensures var s := Write(gaps, words);
            (s == "" || IsSpace(s[0])) && words != [] ==> gaps[0] != ""
  {
    if words != [] && gaps[0] == "" {
      assert IsWord(words[0]);
      assert Write(gaps, words)[0] == words[0][0];
    }
  }

  // ---------------------------------------------------------------- joined words

  predicate NoBlank(w: string) {
    Lacks(w, ' ')
  }

  lemma NoBlankIn(a: string, b: string, y: string)
    requires NoBlank(a)
    ensures a != b + " " + y
  {
    assert (b + " " + y)[|b|] == ' ';
  }

  predicate Starts(words: seq<string>, first: seq<string>) {
    Join(words) == Join(first) || HasPrefix(Join(words), Join(first) + " ")
  }

  predicate Plainly(words: seq<string>) {
    forall i | 0 <= i < |words| :: NoBlank(words[i]) && words[i] != ""
  }

  /** Joined by blanks, one list of words begins with another exactly if it does as a list. */
  lemma {:induction false} StartsIff(words: seq<string>, first: seq<string>)
    requires first != [] && Plainly(first) && Plainly(words)
    ensures Starts(words, first) <==> first <= words
    decreases |first|
  {
    hide Starts, Join, NoBlank;
    if words == [] {
      NothingStarts(first);
    } else if |first| == 1 {
      OneStarts(words, first[0]);
      assert first == [first[0]];
    } else if |words| == 1 {
      ShortStarts(words, first);
    } else {
      StartsIff(words[1..], first[1..]);
      RestStarts(words, first);
      assert first <= words <==> first[0] == words[0] && first[1..] <= words[1..] by {
        PrefixIs(first, words);
      }
    }
  }

  lemma PrefixIs(first: seq<string>, words: seq<string>)
    requires first != [] && words != []
    ensures first <= words <==> first[0] == words[0] && first[1..] <= words[1..]
  {
    assert first == [first[0]] + first[1..] && words == [words[0]] + words[1..];
  }

  lemma NothingStarts(first: seq<string>)
    requires first != [] && Plainly(first)
    ensures !Starts([], first)
  {
    JoinNotEmpty(first);
  }

  /** A single word does not begin with two. */
  lemma ShortStarts(words: seq<string>, first: seq<string>)
    requires |words| == 1 && |first| > 1 && Plainly(words) && Plainly(first)
    ensures !Starts(words, first)
  {
    var b, y := first[0], Join(first[1..]);
    NoBlankIn(words[0], b, y);
    assert Join(first) + " " == b + " " + (y + " ");
    PrefixHasBlank(words[0], b, y + " ");
  }

  lemma PrefixHasBlank(a: string, b: string, y: string)
    requires NoBlank(a)
    ensures !HasPrefix(a, b + " " + y)
  {
    assert (b + " " + y)[|b|] == ' ';
  }

  /** With a word and more on both sides, the first words must be equal and the rests begin alike. */
  lemma RestStarts(words: seq<string>, first: seq<string>)
    requires |words| > 1 && |first| > 1 && Plainly(words) && Plainly(first)
    ensures Starts(words, first) <==> words[0] == first[0] && Starts(words[1..], first[1..])
  {
    var a, b, x, y := words[0], first[0], Join(words[1..]), Join(first[1..]);
    assert Join(words) == a + " " + x && Join(first) == b + " " + y;
    hide Join;
    SameStart(a, x, b, y);
    LongerStart(a, x, b, y);
  }

  lemma SameStart(a: string, x: string, b: string, y: string)
    requires NoBlank(a) && NoBlank(b)
    ensures a + " " + x == b + " " + y <==> a == b && x == y
  {
    if a + " " + x == b + " " + y { SplitOnce(a, x, b, y, ' '); }
  }

  lemma LongerStart(a: string, x: string, b: string, y: string)
    requires NoBlank(a) && NoBlank(b)
    ensures HasPrefix(a + " " + x, b + " " + y + " ") <==> a == b && HasPrefix(x, y + " ")
  {
    var s, p := a + " " + x, b + " " + y + " ";
    if HasPrefix(s, p) {
      var z := s[|p|..];
      assert s == p + z == b + " " + (y + " " + z);
      SplitOnce(a, x, b, y + " " + z, ' ');
      assert (y + " " + z)[..|y + " "|] == y + " ";
    }
    if a == b && HasPrefix(x, y + " ") {
      var z := x[|y + " "|..];
      assert x == y + " " + z;
      assert s == p + z;
      assert (p + z)[..|p|] == p;
    }
  }

  lemma JoinNotEmpty(first: seq<string>)
    requires first != [] && first[0] != ""
    ensures Join(first) != "" && Join([]) == ""
  {
  }

  lemma OneStarts(words: seq<string>, w: string)
    requires words != [] && NoBlank(w) && Plainly(words)
    ensures Starts(words, [w]) <==> words[0] == w
  {
    var a := words[0];
    if |words| == 1 {
      PrefixHasBlank(a, w, "");
      assert w + " " + "" == w + " ";
    } else {
      var x := Join(words[1..]);
      NoBlankIn(w, a, x);
      BlankStart(a, x, w);
    }
  }

  lemma BlankStart(a: string, x: string, w: string)
    requires NoBlank(a) && NoBlank(w)
    ensures HasPrefix(a + " " + x, w + " ") <==> a == w
  {
    if HasPrefix(a + " " + x, w + " ") {
      var z := (a + " " + x)[|w + " "|..];
      assert a + " " + x == w + " " + z;
      SplitOnce(a, x, w, z, ' ');
    }
    if a == w { assert (a + " " + x)[..|w + " "|] == w + " "; }
  }

  // ---------------------------------------------------------------- touch notifications

  const FIRST_WORDS: seq<string> := ["Confirm", "user", "presence", "for", "key"]

  lemma FirstWordsJoined()
    ensures Join(FIRST_WORDS) == PRESENCE
  {
    var four := ["user", "presence", "for", "key"];
    LastWordsJoined();
    JoinMore("Confirm", four);
    assert FIRST_WORDS == ["Confirm"] + four;
    hide Join;
    assert "Confirm" + " " + "user presence for key" == PRESENCE;
  }

  lemma LastWordsJoined()
    ensures Join(["user", "presence", "for", "key"]) == "user presence for key"
  {
    var two := ["for", "key"];
    JoinMore("user", ["presence"] + two);
    JoinMore("presence", two);
    JoinMore("for", ["key"]);
    assert Join(["key"]) == "key" && two == ["for"] + ["key"];
    assert ["user", "presence", "for", "key"] == ["user"] + (["presence"] + two);
    hide Join;
    assert "for" + " " + "key" == "for key" && "presence" + " " + "for key" == "presence for key";
    assert "user" + " " + "presence for key" == "user presence for key";
  }

  lemma JoinMore(w: string, words: seq<string>)
    requires words != []
    ensures Join([w] + words) == w + " " + Join(words)
  {
    assert ([w] + words)[1..] == words;
  }

  lemma WordsHaveNoBlank(words: seq<string>)
    requires forall i | 0 <= i < |words| :: IsWord(words[i])
    ensures Plainly(words)
  {
  }

  /** However it is spaced, a prompt announces a touch if and only if these are its first five words. */
  lemma TouchIff(gaps: seq<string>, words: seq<string>)
    requires Spaced(gaps, words)
    ensures IsTouch(Write(gaps, words)) <==> ["Confirm", "user", "presence", "for", "key"] <= words
  {
    WordsBack(gaps, words);
    WordsHaveNoBlank(words);
    FirstWordsJoined();
    assert Plainly(FIRST_WORDS);
    hide Write, IsWord, IsGap, Join, Fields, Plainly;
    StartsIff(words, FIRST_WORDS);
  }

  /** Every prompt is spaced words, so this settles it for all: a request is a silent notification if the hint says
      so, or says nothing and the prompt announces a touch; the flag tells the latter whatever the hint. */
  lemma NotifiesIff(args: seq<string>, hint: string) returns (gaps: seq<string>, words: seq<string>)
    requires |args| <= 1
    ensures Spaced(gaps, words)
    ensures Write(gaps, words) == if args != [] && args[0] != "" then args[0] else "Enter SSH passphrase:"
    ensures Parse(args, hint).Some?
    ensures var r, touch := Parse(args, hint).value, ["Confirm", "user", "presence", "for", "key"] <= words;
      && r.prompt == Write(gaps, words) && (r.touch <==> touch)
      && (r.mode == Notify <==> hint == "none" || (hint == "" && touch))
      && (r.mode == Confirm <==> hint == "confirm")
  {
    gaps, words := SomeWords(if args != [] && args[0] != "" then args[0] else "Enter SSH passphrase:");
    TouchIff(gaps, words);
    hide IsTouch, Write, Spaced;
  }
}
