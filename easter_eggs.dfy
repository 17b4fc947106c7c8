/**
 * Easter eggs of the chat front end: a message, once trimmed, is compared
 * against an ordered list of triggers and the first egg whose trigger
 * matches is returned; two pickers choose a hint or an achievement message
 * from constant lists.
 *
 * A trigger is either a literal string, compared case-insensitively, or a
 * regular expression. The regular expressions of the list are anchored
 * (`^...$`) and case-insensitive (`/i`); each is written here as the
 * predicate on strings that it decides.
 */
module EasterEggs {
  import opened Wrappers

  // ---------------------------------------------------------------------
  // Characters and strings
  // ---------------------------------------------------------------------

  /** The characters that `String.prototype.trim` removes and that `\s`
      matches: the WhiteSpace and LineTerminator code points of ECMAScript. */
  predicate IsWhitespace(c: char) {
    c == '\t' || c == '\n' || c == '\U{000B}' || c == '\U{000C}' || c == '\r' ||
    c == ' ' || c == '\U{00A0}' || c == '\U{1680}' ||
    ('\U{2000}' <= c <= '\U{200A}') ||
    c == '\U{2028}' || c == '\U{2029}' || c == '\U{202F}' || c == '\U{205F}' ||
    c == '\U{3000}' || c == '\U{FEFF}'
  }

  predicate AllWhitespace(s: string) {
    forall i :: 0 <= i < |s| ==> IsWhitespace(s[i])
  }

  /** Lower-casing of one character, restricted to the ASCII letters. */
  function LowerChar(c: char): char {
    if 'A' <= c <= 'Z' then (c as int + 32) as char else c
  }

  function Lower(s: string): string {
    seq(|s|, i requires 0 <= i < |s| => LowerChar(s[i]))
  }

  /** The number of whitespace characters at the start of `s`. */
  function LeadingWhitespace(s: string): (n: nat)
    ensures n <= |s|
  {
    if s != [] && IsWhitespace(s[0]) then 1 + LeadingWhitespace(s[1..]) else 0
  }

  /** The number of whitespace characters at the end of `s`. */
  function TrailingWhitespace(s: string): (n: nat)
    ensures n <= |s|
  {
    if s != [] && IsWhitespace(s[|s| - 1]) then 1 + TrailingWhitespace(s[..|s| - 1]) else 0
  }

  /** `String.prototype.trim`: `s` without its leading and trailing
      whitespace. */
  function Trim(s: string): string {
    var a := LeadingWhitespace(s);
    s[a..|s| - TrailingWhitespace(s[a..])]
  }

  // ---------------------------------------------------------------------
  // Eggs
  // ---------------------------------------------------------------------

  datatype Trigger =
    | Literal(text: string)
    | Pattern(test: string -> bool)

  /** An egg. The optional `action` callback of the source is never set by
      any egg of the list and is not modelled. */
  datatype EasterEgg = EasterEgg(trigger: Trigger, response: string, emoji: Option<string>)

  /** Whether `egg` fires on the (already trimmed) message `m`: a literal
      compares lower-cased, a pattern is tested on `m` itself. */
  predicate Triggers(egg: EasterEgg, m: string) {
    match egg.trigger
    case Literal(t) => Lower(m) == Lower(t)
    case Pattern(p) => p(m)
  }

  /** A pattern that, ignoring case, accepts the whole message when it is
      one of a fixed set of phrases: the lower-case message is one of
      them. */
  predicate OneOf(words: set<string>, s: string) {
    Lower(s) in words
  }

  /** The greeting egg: "hello", "hi" or "hey", one or more blanks, then
      "there", in any case. */
  predicate HelloThere(s: string) {
    var l := Lower(s);
    |l| > 5 && l[|l| - 5..] == "there" && GreetingThenSpace(l[..|l| - 5])
  }

  /** A lower-case greeting word followed by at least one blank. */
  predicate GreetingThenSpace(h: string) {
    (|h| > 5 && h[..5] == "hello" && AllWhitespace(h[5..])) ||
    (|h| > 3 && h[..3] == "hey" && AllWhitespace(h[3..])) ||
    (|h| > 2 && h[..2] == "hi" && AllWhitespace(h[2..]))
  }

  /** The answer-to-life egg, with or without each of its two commas. */
  predicate AnswerToLife(s: string) {
    OneOf({"the answer to life the universe and everything",
           "the answer to life, the universe and everything",
           "the answer to life the universe, and everything",
           "the answer to life, the universe, and everything"}, s)
  }

  /** The do-you-like-coding egg, with or without a question mark. */
  predicate LikeCoding(s: string) {
    OneOf({"do you like coding", "do you like coding?"}, s)
  }

  /** The sandwich egg. */
  predicate Sandwich(s: string) {
    OneOf({"sudo make me a sandwich"}, s)
  }

  /** The joke egg, under either of its two wordings. */
  predicate TellJoke(s: string) {
    OneOf({"tell me a joke", "make me laugh"}, s)
  }

  /** The compliment egg: "you're" or "you are", then one of three
      adjectives. */
  predicate Compliment(s: string) {
    OneOf({"you're awesome", "you're amazing", "you're great",
           "you are awesome", "you are amazing", "you are great"}, s)
  }

  /** The thank-you egg: "thank you" or "thanks" and nothing more. */
  predicate Thanks(s: string) {
    OneOf({"thank you", "thanks"}, s)
  }

  /** The song egg, under either of its two lines. */
  predicate WhatIsLove(s: string) {
    OneOf({"what is love", "baby don't hurt me"}, s)
  }

  /** The Konami-code egg, by name or by its first moves. */
  predicate Konami(s: string) {
    OneOf({"konami", "up up down down"}, s)
  }

  /** The bugs egg, with or without a question mark. */
  predicate WhereAreTheBugs(s: string) {
    OneOf({"where are the bugs", "where are the bugs?"}, s)
  }

  /** The coffee egg, under either of its two wordings. */
  predicate Coffee(s: string) {
    OneOf({"coffee", "i need coffee"}, s)
  }

  /** The hunger egg: "pizza", or "i'm" or "i am" then "hungry". */
  predicate Hungry(s: string) {
    OneOf({"pizza", "i'm hungry", "i am hungry"}, s)
  }

  /** The robot egg, with or without the article and the question mark. */
  predicate AreYouRobot(s: string) {
    OneOf({"are you robot", "are you robot?", "are you a robot", "are you a robot?"}, s)
  }

  /** The show-me egg, for money or for code. */
  predicate ShowMe(s: string) {
    OneOf({"show me the money", "show me the code"}, s)
  }

  /** The over-9000 egg: an optional apostrophe and an optional "s" after
      "it", and an optional exclamation mark at the end. */
  predicate Over9000(s: string) {
    OneOf({"it over 9000", "it' over 9000", "its over 9000", "it's over 9000",
           "it over 9000!", "it' over 9000!", "its over 9000!", "it's over 9000!"}, s)
  }

  /** The ordered list of eggs; the first that fires wins. */
  const Eggs: seq<EasterEgg> := [
    EasterEgg(Pattern(HelloThere),
      "General Kenobi! 👋 (Oops, wrong franchise... but hello to you too!)", Some("👋")),
    EasterEgg(Pattern(AnswerToLife), "42! 🌌 (Don't forget your towel!)", Some("🌌")),
    EasterEgg(Pattern(LikeCoding), "I love it! It's like poetry, but with more semicolons. 💻✨", Some("💻")),
    EasterEgg(Pattern(Sandwich), "🥪 Here's your sandwich! (With extra permissions on the side)", Some("🥪")),
    EasterEgg(Pattern(TellJoke),
      "Why do programmers prefer dark mode? Because light attracts bugs! 🐛😄", Some("😄")),
    EasterEgg(Pattern(Compliment),
      "No, YOU'RE awesome! 🌟 Now get back to building something amazing!", Some("🌟")),
    EasterEgg(Pattern(Thanks), "You're welcome! Remember: happy coding is the best coding! 😊", Some("😊")),
    EasterEgg(Pattern(WhatIsLove),
      "🎵 Baby don't hurt me... don't hurt me... no more! 🎵 (Now that's stuck in your head!)", Some("🎵")),
    EasterEgg(Pattern(Konami),
      "↑ ↑ ↓ ↓ ← → ← → B A START! 🎮 You've unlocked... absolutely nothing! (But you tried, and that's what counts)", Some("🎮")),
    EasterEgg(Pattern(WhereAreTheBugs), "They're not bugs, they're undocumented features! 🐛✨", Some("🐛")),
    EasterEgg(Pattern(Coffee),
      "☕ Here's a virtual coffee! Fun fact: The first webcam was created at Cambridge to monitor a coffee pot!", Some("☕")),
    EasterEgg(Pattern(Hungry), "🍕 Virtual pizza incoming! No calories, all the satisfaction!", Some("🍕")),
    EasterEgg(Pattern(AreYouRobot), "Beep boop! 🤖 Just kidding... or am I? *winks in binary*", Some("🤖")),
    EasterEgg(Pattern(ShowMe),
      "💰 The best code is the code you don't have to write! But here's a $ anyway.", Some("💰")),
    EasterEgg(Pattern(Over9000),
      "WHAT?! 9000?! ⚡ *crushes scouter* There's no way that can be right!", Some("⚡"))
  ]

  /** Index of the first egg of `eggs` that fires on `m`, if any. */
  function FirstMatchIndex(eggs: seq<EasterEgg>, m: string): (r: Option<nat>)
    ensures r.Some? ==> r.value < |eggs| && Triggers(eggs[r.value], m)
    ensures r.Some? ==> forall j :: 0 <= j < r.value ==> !Triggers(eggs[j], m)
    ensures r.None? <==> forall j :: 0 <= j < |eggs| ==> !Triggers(eggs[j], m)
  {
    if eggs == [] then None
    else if Triggers(eggs[0], m) then Some(0)
    else
      match FirstMatchIndex(eggs[1..], m)
      case None => None
      case Some(k) => Some(k + 1)
  }

  /** The first egg of `eggs` that fires on `m`, or `null`. */
  function FirstMatch(eggs: seq<EasterEgg>, m: string): Option<EasterEgg> {
    match FirstMatchIndex(eggs, m)
    case None => None
    case Some(k) => Some(eggs[k])
  }

  /** The scan of `checkEasterEgg` over a list of eggs: the first egg, in
      list order, whose trigger matches the trimmed message, or `null`. */
  method CheckEasterEggIn(eggs: seq<EasterEgg>, message: string) returns (r: Option<EasterEgg>)
    ensures r == FirstMatch(eggs, Trim(message))
    ensures r.Some? ==> exists i :: 0 <= i < |eggs| && r.value == eggs[i] &&
                                    Triggers(eggs[i], Trim(message)) &&
                                    forall j :: 0 <= j < i ==> !Triggers(eggs[j], Trim(message))
    ensures r.None? <==> forall i :: 0 <= i < |eggs| ==> !Triggers(eggs[i], Trim(message))
  {
    var trimmed := Trim(message);
    var i := 0;
    while i < |eggs|
      invariant 0 <= i <= |eggs|
      invariant forall j :: 0 <= j < i ==> !Triggers(eggs[j], trimmed)
    {
      var egg := eggs[i];
      match egg.trigger {
        case Literal(t) =>
          if Lower(trimmed) == Lower(t) {
            return Some(egg);
          }
        case Pattern(p) =>
          if p(trimmed) {
            return Some(egg);
          }
      }
      i := i + 1;
    }
    return None;
  }

  /** `checkEasterEgg`: the scan over the list of eggs above. */
  method CheckEasterEgg(message: string) returns (r: Option<EasterEgg>)
    ensures r == FirstMatch(Eggs, Trim(message))
  {
    r := CheckEasterEggIn(Eggs, message);
  }

  // ---------------------------------------------------------------------
  // Trimming
  // ---------------------------------------------------------------------

  /** `LeadingWhitespace(s)` is the index of the first non-whitespace
      character of `s`, or `|s|` when there is none. */
  lemma {:induction false} LeadingWhitespaceSpec(s: string)
    ensures forall i :: 0 <= i < LeadingWhitespace(s) ==> IsWhitespace(s[i])
    ensures LeadingWhitespace(s) == |s| || !IsWhitespace(s[LeadingWhitespace(s)])
    decreases |s|
  {
    if s != [] && IsWhitespace(s[0]) {
      LeadingWhitespaceSpec(s[1..]);
      forall i | 0 < i < LeadingWhitespace(s)
        ensures IsWhitespace(s[i])
      {
        assert s[i] == s[1..][i - 1];
      }
    }
  }

  /** `TrailingWhitespace(s)` counts the whitespace run that ends `s`, and the
      character before that run, if any, is not whitespace. */
  lemma {:induction false} TrailingWhitespaceSpec(s: string)
    ensures forall i :: |s| - TrailingWhitespace(s) <= i < |s| ==> IsWhitespace(s[i])
    ensures TrailingWhitespace(s) == |s| || !IsWhitespace(s[|s| - TrailingWhitespace(s) - 1])
    decreases |s|
  {
    if s != [] && IsWhitespace(s[|s| - 1]) {
      var s' := s[..|s| - 1];
      TrailingWhitespaceSpec(s');
      forall i | |s| - TrailingWhitespace(s) <= i < |s| - 1
        ensures IsWhitespace(s[i])
      {
        assert s[i] == s'[i];
      }
      if TrailingWhitespace(s) < |s| {
        assert s[|s| - TrailingWhitespace(s) - 1] == s'[|s'| - TrailingWhitespace(s') - 1];
      }
    }
  }

  lemma {:induction false} LeadingOfConcat(pre: string, s: string)
    requires AllWhitespace(pre)
    ensures LeadingWhitespace(pre + s) == |pre| + LeadingWhitespace(s)
    decreases |pre|
  {
    if pre == [] {
      assert pre + s == s;
    } else {
      assert (pre + s)[1..] == pre[1..] + s;
      assert (pre + s)[0] == pre[0];
      LeadingOfConcat(pre[1..], s);
    }
  }

  lemma {:induction false} LeadingIgnoresTail(s: string, post: string)
    requires LeadingWhitespace(s) < |s|
    ensures LeadingWhitespace(s + post) == LeadingWhitespace(s)
    decreases |s|
  {
    assert (s + post)[0] == s[0];
    if IsWhitespace(s[0]) {
      assert (s + post)[1..] == s[1..] + post;
      LeadingIgnoresTail(s[1..], post);
    }
  }

  lemma {:induction false} TrailingOfConcat(s: string, post: string)
    requires AllWhitespace(post)
    ensures TrailingWhitespace(s + post) == TrailingWhitespace(s) + |post|
    decreases |post|
  {
    if post == [] {
      assert s + post == s;
    } else {
      var t := s + post;
      assert t[|t| - 1] == post[|post| - 1];
      assert t[..|t| - 1] == s + post[..|post| - 1];
      TrailingOfConcat(s, post[..|post| - 1]);
    }
  }

  lemma BlankIsWhitespace(s: string)
    requires LeadingWhitespace(s) == |s|
    ensures AllWhitespace(s)
  {
    LeadingWhitespaceSpec(s);
  }

  lemma TrimAt(t: string, a: nat, b: nat)
    requires a + b <= |t|
    requires LeadingWhitespace(t) == a
    requires TrailingWhitespace(t[a..]) == b
    ensures Trim(t) == t[a..|t| - b]
  {
  }

  /** What `trim` returns: the infix of `s` that remains once a whitespace
      prefix and a whitespace suffix are cut off, and that neither starts
      nor ends with whitespace. */
  lemma TrimSpec(s: string) returns (pre: string, post: string)
    ensures s == pre + Trim(s) + post
    ensures AllWhitespace(pre) && AllWhitespace(post)
    ensures Trim(s) == [] || (!IsWhitespace(Trim(s)[0]) && !IsWhitespace(Trim(s)[|Trim(s)| - 1]))
  {
    var a := LeadingWhitespace(s);
    var b := TrailingWhitespace(s[a..]);
    LeadingWhitespaceSpec(s);
    TrailingWhitespaceSpec(s[a..]);
    pre, post := s[..a], s[|s| - b..];
    var r := Trim(s);
    assert r == s[a..|s| - b];
    assert s == pre + r + post;
    forall i | 0 <= i < |post|
      ensures IsWhitespace(post[i])
    {
      assert post[i] == s[a..][|s[a..]| - b + i];
    }
    if r != [] {
      assert r[0] == s[a];
      assert r[|r| - 1] == s[a..][|s[a..]| - b - 1];
    }
  }

  lemma SliceAround(pre: string, s: string, post: string, a: nat, b: nat)
    requires a + b <= |s|
    ensures (pre + s + post)[|pre| + a..] == s[a..] + post
    ensures (pre + s + post)[|pre| + a..|pre + s + post| - (b + |post|)] == s[a..|s| - b]
  {
  }

  lemma LeadingAroundText(pre: string, s: string, post: string)
    requires AllWhitespace(pre)
    requires LeadingWhitespace(s) < |s|
    ensures LeadingWhitespace(pre + s + post) == |pre| + LeadingWhitespace(s)
  {
    assert pre + s + post == pre + (s + post);
    LeadingOfConcat(pre, s + post);
    LeadingIgnoresTail(s, post);
  }

  lemma TrailingAroundText(pre: string, s: string, post: string, a: nat)
    requires AllWhitespace(post)
    requires a <= |s|
    ensures TrailingWhitespace((pre + s + post)[|pre| + a..]) == TrailingWhitespace(s[a..]) + |post|
  {
    SliceAround(pre, s, post, a, 0);
    TrailingOfConcat(s[a..], post);
  }

  lemma TrimAround(pre: string, s: string, post: string, a: nat, b: nat)
    requires a + b <= |s|
    requires LeadingWhitespace(pre + s + post) == |pre| + a
    requires TrailingWhitespace((pre + s + post)[|pre| + a..]) == b + |post|
    ensures Trim(pre + s + post) == s[a..|s| - b]
  {
    TrimAt(pre + s + post, |pre| + a, b + |post|);
    SliceAround(pre, s, post, a, b);
  }

  lemma AbsorbAroundText(pre: string, s: string, post: string)
    requires AllWhitespace(pre) && AllWhitespace(post)
    requires LeadingWhitespace(s) < |s|
    ensures Trim(pre + s + post) == Trim(s)
  {
    var a := LeadingWhitespace(s);
    var b := TrailingWhitespace(s[a..]);
    LeadingAroundText(pre, s, post);
    TrailingAroundText(pre, s, post, a);
    TrimAround(pre, s, post, a, b);
    TrimAt(s, a, b);
  }

  lemma AbsorbAroundBlank(pre: string, s: string, post: string)
    requires AllWhitespace(pre) && AllWhitespace(post)
    requires LeadingWhitespace(s) == |s|
    ensures Trim(pre + s + post) == Trim(s) == []
  {
    assert pre + s + post == pre + (s + post);
    LeadingOfConcat(pre, s + post);
    BlankIsWhitespace(s);
    LeadingOfConcat(s, post);
    LeadingOfConcat(post, []);
    assert post + [] == post;
    TrimAt(pre + s + post, |pre + s + post|, 0);
    TrimAt(s, |s|, 0);
  }

  /** Whitespace around a message never changes what it trims to. */
  lemma TrimAbsorbsWhitespace(pre: string, s: string, post: string)
    requires AllWhitespace(pre) && AllWhitespace(post)
    ensures Trim(pre + s + post) == Trim(s)
  {
    if LeadingWhitespace(s) == |s| {
      AbsorbAroundBlank(pre, s, post);
    } else {
      AbsorbAroundText(pre, s, post);
    }
  }

  /** Trimming twice is trimming once. */
  lemma TrimIdempotent(s: string)
    ensures Trim(Trim(s)) == Trim(s)
  {
    var pre, post := TrimSpec(s);
    TrimAbsorbsWhitespace(pre, Trim(s), post);
  }

  // ---------------------------------------------------------------------
  // Properties of the matching
  // ---------------------------------------------------------------------

  /** Leading and trailing whitespace never changes which egg fires. */
  lemma CheckIgnoresSurroundingWhitespace(pre: string, m: string, post: string)
    requires AllWhitespace(pre) && AllWhitespace(post)
    ensures FirstMatch(Eggs, Trim(pre + m + post)) == FirstMatch(Eggs, Trim(m))
  {
    TrimAbsorbsWhitespace(pre, m, post);
  }

  /** A message that is already trimmed fires the same egg. */
  lemma CheckOfTrimmed(m: string)
    ensures FirstMatch(Eggs, Trim(Trim(m))) == FirstMatch(Eggs, Trim(m))
  {
    TrimIdempotent(m);
  }

  lemma LowerIdempotent(s: string)
    ensures Lower(Lower(s)) == Lower(s)
  {
  }

  /** A literal trigger ignores the case of the message. */
  lemma LiteralIgnoresCase(t: string, m: string, response: string, emoji: Option<string>)
    ensures Triggers(EasterEgg(Literal(t), response, emoji), m) ==
            Triggers(EasterEgg(Literal(t), response, emoji), Lower(m))
  {
    LowerIdempotent(m);
  }

  /** The thank-you pattern ignores case and is anchored at both ends. */
  lemma ThanksPatternExamples()
    ensures Thanks("Thanks") && Thanks("THANK YOU")
    ensures !Thanks("thanks a lot") && !Thanks("no thanks")
  {
    assert Lower("Thanks") == "thanks";
    assert Lower("THANK YOU") == "thank you";
    assert Lower("thanks a lot") == "thanks a lot";
    assert Lower("no thanks") == "no thanks";
  }

  /** `\s+` in the greeting pattern accepts a run of blanks, and the pattern
      ignores case; a trailing word is refused. */
  lemma HelloTherePatternExamples()
    ensures HelloThere("Hey   THERE")
    ensures !HelloThere("hey there you")
  {
    var l := Lower("Hey   THERE");
    assert l == "hey   there";
    assert l[|l| - 5..] == "there";
    assert l[..|l| - 5] == "hey   ";
    assert AllWhitespace(l[..|l| - 5][3..]);
    assert Lower("hey there you") == "hey there you";
    assert "hey there you"[8..] != "there";
  }

  /** Which egg fires when only the eggs at `k` and after could fire. */
  lemma FirstMatchIsAt(m: string, k: nat)
    requires k < |Eggs| && Triggers(Eggs[k], m)
    requires forall j :: 0 <= j < k ==> !Triggers(Eggs[j], m)
    ensures FirstMatch(Eggs, m) == Some(Eggs[k])
  {
  }

  /** The first four eggs, as the scan meets them. */
  lemma FirstFourEggs()
    ensures Eggs[0].trigger == Pattern(HelloThere) && Eggs[1].trigger == Pattern(AnswerToLife)
    ensures Eggs[2].trigger == Pattern(LikeCoding) && Eggs[3].trigger == Pattern(Sandwich)
  {
  }

  /** The three eggs after those, the last being the thank-you egg. */
  lemma NextThreeEggs()
    ensures Eggs[4].trigger == Pattern(TellJoke) && Eggs[5].trigger == Pattern(Compliment)
    ensures Eggs[6].trigger == Pattern(Thanks)
  {
  }

  /** Lower-casing "Thanks". */
  lemma LowerThanks()
    ensures Lower("Thanks") == "thanks"
  {
    var l := Lower("Thanks");
    assert |l| == 6;
    assert l[0] == 't' && l[1] == 'h' && l[2] == 'a';
    assert l[3] == 'n' && l[4] == 'k' && l[5] == 's';
  }

  /** "Thanks" is refused by the first three patterns. */
  lemma ThanksRefusedByFirstThree()
    ensures !HelloThere("Thanks") && !AnswerToLife("Thanks") && !LikeCoding("Thanks")
  {
    LowerThanks();
    assert "thanks"[1..] != "there";
  }

  /** "Thanks" is refused by the next three patterns and accepted by the
      thank-you pattern. */
  lemma ThanksRefusedByNextThree()
    ensures !Sandwich("Thanks") && !TellJoke("Thanks") && !Compliment("Thanks")
    ensures Thanks("Thanks")
  {
    LowerThanks();
  }

  /** Trimming "  Thanks " leaves "Thanks". */
  lemma TrimThanks()
    ensures Trim("  Thanks ") == "Thanks"
  {
    assert LeadingWhitespace("  Thanks ") == 2;
    assert TrailingWhitespace("Thanks ") == 1;
  }

  /** "  Thanks " fires the thank-you egg: trimmed it is "Thanks", which
      the six eggs before the thank-you egg all refuse. */
  lemma ThanksFiresThankYouEgg()
    ensures FirstMatch(Eggs, Trim("  Thanks ")) == Some(Eggs[6])
  {
    var m := "Thanks";
    TrimThanks();
    ThanksRefusedByFirstThree();
    ThanksRefusedByNextThree();
    FirstFourEggs();
    NextThreeEggs();
    forall j | 0 <= j < 6
      ensures !Triggers(Eggs[j], m)
    {
      assert j == 0 || j == 1 || j == 2 || j == 3 || j == 4 || j == 5;
    }
    FirstMatchIsAt(m, 6);
  }

  // ---------------------------------------------------------------------
  // Random pickers
  // ---------------------------------------------------------------------

  const Hints: seq<string> := [
    "💡 Psst... try typing 'sudo make me a sandwich'",
    "🎮 Know any Konami codes?",
    "🌌 What's the answer to life, the universe, and everything?",
    "☕ Sometimes saying 'coffee' helps...",
    "🥚 There might be some hidden commands... just saying!",
    "✨ Type 'tell me a joke' for a surprise!"
  ]

  const AchievementMessages: seq<string> := [
    "🏆 Achievement Unlocked: Easter Egg Hunter!",
    "⭐ You found a secret! Have a virtual high-five! ✋",
    "🎯 Bulls-eye! You discovered a hidden feature!",
    "🔍 Detective skills: Level 100!",
    "🎪 You found the fun! Keep exploring!"
  ]

  /** `Math.floor(u * n)` for a draw `u` of `Math.random()`, which lies in
      [0, 1): always an index into a list of length `n`. */
  function RandomIndex(u: real, n: nat): (i: nat)
    requires 0.0 <= u < 1.0 && 0 < n
    ensures i < n
  {
    var x := u * n as real;
    assert 0.0 <= x < n as real by {
      assert u * n as real < 1.0 * n as real;
    }
    x.Floor
  }

  /** `getRandomEasterEggHint`: one of the hints, for any draw `u`. */
  function RandomEasterEggHint(u: real): (r: string)
    requires 0.0 <= u < 1.0
    ensures r in Hints
  {
    Hints[RandomIndex(u, |Hints|)]
  }

  /** `getAchievementMessage`: one of the achievement messages, for any
      draw `u`. */
  function AchievementMessage(u: real): (r: string)
    requires 0.0 <= u < 1.0
    ensures r in AchievementMessages
  {
    AchievementMessages[RandomIndex(u, |AchievementMessages|)]
  }
}
