/**
 * Surprises of the backend router: constant pools of quotes, jokes, facts,
 * ASCII art, coding challenges and motivational messages; one generator per
 * category, which draws an entry from its pool with the process-wide random
 * number generator and wraps it in a `{type, content}` record; a random pick
 * among the registered generators; and a daily pick that seeds the generator
 * with the date, picks, and reseeds it.
 *
 * The clock is not modelled: the date of the daily pick and the timestamp of
 * a response are inputs. The random number generator is modelled by its
 * state, a function of its last seed and of the draws made since.
 */
module Surprises {

  // ---------------------------------------------------------------------
  // Records
  // ---------------------------------------------------------------------

  /** A value of a content map: a string, a boolean or an integer. */
  datatype Value = Text(text: string) | Flag(flag: bool) | Number(number: int)

  type Content = map<string, Value>

  /** What a generator returns: the `type` tag and the `content` map. */
  datatype Surprise = Surprise(kind: string, content: Content)

  /** The body every endpoint returns. */
  datatype SurpriseResponse = SurpriseResponse(kind: string, content: Content, timestamp: string)

  datatype Quote = Quote(quote: string, author: string)
  datatype Joke = Joke(setup: string, punchline: string)
  datatype Art = Art(name: string, art: string)
  datatype Challenge = Challenge(challenge: string, difficulty: string, hint: string)

  /** A mini game of the list. Its `secret_number`, drawn once when the
      module is loaded, is not part of the record: the only reader replaces
      it on a copy and never returns it. */
  datatype MiniGame = MiniGame(name: string, description: string, instructions: string)

  // ---------------------------------------------------------------------
  // Pools
  // ---------------------------------------------------------------------

  const Quotes: seq<Quote> := [
    Quote("The best way to predict the future is to invent it.",
      "Alan Kay"),
    Quote("Code is like humor. When you have to explain it, it's bad.",
      "Cory House"),
    Quote("First, solve the problem. Then, write the code.",
      "John Johnson"),
    Quote("Simplicity is the soul of efficiency.",
      "Austin Freeman"),
    Quote("Make it work, make it right, make it fast.",
      "Kent Beck"),
    Quote("The only way to learn a new programming language is by writing programs in it.",
      "Dennis Ritchie"),
    Quote("Talk is cheap. Show me the code.",
      "Linus Torvalds"),
    Quote("Any fool can write code that a computer can understand. Good programmers write code that humans can understand.",
      "Martin Fowler")
  ]

  const TechJokes: seq<Joke> := [
    Joke("Why do programmers prefer dark mode?",
      "Because light attracts bugs! 🐛"),
    Joke("Why do Java developers wear glasses?",
      "Because they can't C# 😎"),
    Joke("How many programmers does it take to change a light bulb?",
      "None. It's a hardware problem! 💡"),
    Joke("What's a programmer's favorite place?",
      "Foo Bar! 🍺"),
    Joke("Why did the programmer quit his job?",
      "Because he didn't get arrays! 💰"),
    Joke("What do you call a programmer from Finland?",
      "Nerdic! 🇫🇮")
  ]

  const FunFacts: seq<string> := [
    "The first computer bug was an actual bug! In 1947, a moth was found trapped in a relay of the Harvard Mark II computer.",
    "The first computer programmer was Ada Lovelace in the 1840s, about 100 years before the first modern computer was built!",
    "The first 1GB hard drive, released in 1980, weighed over 500 pounds and cost $40,000.",
    "Python was named after Monty Python's Flying Circus, not the snake! 🐍",
    "The original name of Windows was 'Interface Manager'.",
    "The first domain ever registered was Symbolics.com on March 15, 1985.",
    "The first email was sent in 1971 by Ray Tomlinson to himself as a test."
  ]

  const AsciiArts: seq<Art> := [
    Art("Robot",
      "\n    ╔═══╗\n    ║ ◉ ║  Beep boop!\n    ╚═╤═╝  I'm here to help!\n      ║\n    ╔═╧═╗\n    ║   ║\n    ╚═══╝\n        "),
    Art("Computer",
      "\n    ┌─────────────────┐\n    │ > Code is Art  │\n    │ > Keep Coding! │\n    └─────────────────┘\n         │││││││\n        ═══════════\n        "),
    Art("Trophy",
      "\n        ___\n       '   `\n      |  ★  |  You're\n       '._.‚   Awesome!\n        ║║║\n       ═════\n        "),
    Art("Rocket",
      "\n         /\\\n        |  |\n        |  |   To the moon! 🚀\n       /____\\\n      | o  o |\n      |______|\n       /|  |\\\n        "),
    Art("Cat",
      "\n     /\\_/\\\n    ( o.o )  Meow!\n     > ^ <   *purr*\n    /|   |\\\n        ")
  ]

  const CodingChallenges: seq<Challenge> := [
    Challenge("Write a function that reverses a string without using built-in reverse methods",
      "Easy",
      "Try using a loop and string concatenation!"),
    Challenge("Implement a function to check if a number is prime",
      "Easy",
      "A prime number is only divisible by 1 and itself"),
    Challenge("Create a function that finds the longest palindrome in a string",
      "Medium",
      "Consider expanding around each character"),
    Challenge("Write a function to detect if two strings are anagrams",
      "Easy",
      "Anagrams have the same characters in different orders")
  ]

  const MotivationalMessages: seq<string> := [
    "🌟 You're doing amazing! Keep up the great work!",
    "💪 Every expert was once a beginner. Keep learning!",
    "🚀 Your code today is better than your code yesterday!",
    "✨ Debugging is just another way of learning!",
    "🎯 Small progress is still progress. Keep going!",
    "🌈 Your creativity makes the world better through code!",
    "⚡ You've got this! One line of code at a time!"
  ]

  const MiniGames: seq<MiniGame> := [
    MiniGame("Number Guessing Game",
      "I'm thinking of a number between 1 and 100!",
      "Try to guess it! Use the chat to make your guesses.")
  ]

  const CelebrationMessage := "🎉 Surprise! You're awesome! 🎉"

  // ---------------------------------------------------------------------
  // Random number generator
  // ---------------------------------------------------------------------

  /** How the generator was last seeded: with an integer, or from the
      operating system's entropy (`random.seed()` without an argument). */
  datatype Seed = FromInt(n: nat) | FromEntropy(entropy: nat)

  /** The generator's state: its last seed and the number of draws made
      since. */
  datatype RngState = RngState(seed: Seed, draws: nat)

  /** The state after `random.seed(n)`. An integer seed is taken by its
      absolute value. */
  function Seeded(n: int): RngState {
    RngState(FromInt(if n < 0 then -n else n), 0)
  }

  /** The state after `random.seed()`, given the entropy it reads. */
  function Reseeded(entropy: nat): RngState {
    RngState(FromEntropy(entropy), 0)
  }

  function Advance(st: RngState): RngState {
    st.(draws := st.draws + 1)
  }

  /** The raw output of the next draw. The Mersenne Twister is not modelled:
      this stand-in is a fixed function of the seed and the draw count, and
      no property below depends on which function it is. */
  function Output(st: RngState): nat {
    var key := match st.seed
      case FromInt(n) => 2 * n
      case FromEntropy(e) => 2 * e + 1;
    (key * 2654435761 + st.draws * 40503 + 12345) % 4294967296
  }

  /** The value of the next draw below `n` (`_randbelow(n)`). */
  function Below(st: RngState, n: nat): (r: nat)
    requires 0 < n
    ensures r < n
  {
    Output(st) % n
  }

  /** The process-wide generator of the `random` module. */
  class Random {
    var state: RngState

    /** The generator as the process starts, seeded from entropy. */
    constructor (entropy: nat)
      ensures state == Reseeded(entropy)
    {
      state := Reseeded(entropy);
    }

    /** `random.seed(n)` for an integer `n`. */
    method Seed(n: int)
      modifies this
      ensures state == Seeded(n)
    {
      state := Seeded(n);
    }

    /** `random.seed()`: reseed from fresh entropy. */
    method Reseed(entropy: nat)
      modifies this
      ensures state == Reseeded(entropy)
    {
      state := Reseeded(entropy);
    }

    /** `random.choice(xs)`: one draw picks the element. */
    method Choice<T>(xs: seq<T>) returns (x: T)
      requires |xs| > 0
      modifies this
      ensures x == xs[Below(old(state), |xs|)] && x in xs
      ensures state == Advance(old(state))
    {
      x := xs[Below(state, |xs|)];
      state := Advance(state);
    }

    /** `random.randint(a, b)`: one draw picks a value of `[a, b]`. */
    method RandInt(a: int, b: int) returns (r: int)
      requires a <= b
      modifies this
      ensures r == a + Below(old(state), b - a + 1) && a <= r <= b
      ensures state == Advance(old(state))
    {
      r := a + Below(state, b - a + 1);
      state := Advance(state);
    }
  }

  // ---------------------------------------------------------------------
  // Generators
  // ---------------------------------------------------------------------

  /** The pools the generators draw from. The generators below are stated
      over any pools; the router's own are `Collection`. */
  datatype Pools = Pools(quotes: seq<Quote>, jokes: seq<Joke>, facts: seq<string>, arts: seq<Art>,
                         challenges: seq<Challenge>, games: seq<MiniGame>, messages: seq<string>)

  /** Every pool has an entry to choose. */
  predicate Stocked(p: Pools) {
    |p.quotes| > 0 && |p.jokes| > 0 && |p.facts| > 0 && |p.arts| > 0 &&
    |p.challenges| > 0 && |p.games| > 0 && |p.messages| > 0
  }

  const Collection: Pools :=
    Pools(Quotes, TechJokes, FunFacts, AsciiArts, CodingChallenges, MiniGames, MotivationalMessages)

  datatype Generator =
    | QuoteGen | JokeGen | FactGen | ArtGen | ChallengeGen
    | MiniGameGen | MotivationGen | CelebrationGen

  /** The generators a random pick chooses from, in their registered order;
      the mini game is not among them. */
  const SurpriseGenerators: seq<Generator> :=
    [QuoteGen, JokeGen, FactGen, ArtGen, ChallengeGen, MotivationGen, CelebrationGen]

  /** The `type` tag of each generator's records. */
  function Kind(g: Generator): string {
    match g
    case QuoteGen => "quote"
    case JokeGen => "joke"
    case FactGen => "fact"
    case ArtGen => "ascii_art"
    case ChallengeGen => "challenge"
    case MiniGameGen => "game"
    case MotivationGen => "motivation"
    case CelebrationGen => "celebration"
  }

  /** The emoji each generator puts in its content. */
  function Emoji(g: Generator): string {
    match g
    case QuoteGen => "💭"
    case JokeGen => "😄"
    case FactGen => "🤓"
    case ArtGen => "🎨"
    case ChallengeGen => "💻"
    case MiniGameGen => "🎮"
    case MotivationGen => "✨"
    case CelebrationGen => "🎊"
  }

  /** The keys of each generator's content. */
  function Fields(g: Generator): set<string> {
    match g
    case QuoteGen => {"quote", "author", "emoji"}
    case JokeGen => {"setup", "punchline", "emoji"}
    case FactGen => {"fact", "emoji"}
    case ArtGen => {"name", "art", "emoji"}
    case ChallengeGen => {"challenge", "difficulty", "hint", "emoji"}
    case MiniGameGen => {"name", "description", "instructions", "emoji"}
    case MotivationGen => {"message", "emoji"}
    case CelebrationGen => {"message", "confetti", "emoji"}
  }

  /** The tags a random pick can produce. */
  const RegisteredKinds: set<string> :=
    {"quote", "joke", "fact", "ascii_art", "challenge", "motivation", "celebration"}

  /** The shape a generator promises of its record: its tag, its keys and
      its emoji. */
  predicate WellFormed(g: Generator, s: Surprise) {
    s.kind == Kind(g) && s.content.Keys == Fields(g) && s.content["emoji"] == Text(Emoji(g))
  }

  predicate Has(s: Surprise, key: string, text: string) {
    key in s.content && s.content[key] == Text(text)
  }

  /** Whether `s` carries, field for field, an entry of `g`'s pool in `p`;
      the mini game always carries the first game of its list, and the
      celebration its fixed message and confetti. */
  predicate FromPool(p: Pools, g: Generator, s: Surprise) {
    match g
    case QuoteGen =>
      exists q :: q in p.quotes && Has(s, "quote", q.quote) && Has(s, "author", q.author)
    case JokeGen =>
      exists j :: j in p.jokes && Has(s, "setup", j.setup) && Has(s, "punchline", j.punchline)
    case FactGen =>
      exists f :: f in p.facts && Has(s, "fact", f)
    case ArtGen =>
      exists a :: a in p.arts && Has(s, "name", a.name) && Has(s, "art", a.art)
    case ChallengeGen =>
      exists c :: c in p.challenges && Has(s, "challenge", c.challenge) &&
                  Has(s, "difficulty", c.difficulty) && Has(s, "hint", c.hint)
    case MiniGameGen =>
      |p.games| > 0 && Has(s, "name", p.games[0].name) &&
      Has(s, "description", p.games[0].description) && Has(s, "instructions", p.games[0].instructions)
    case MotivationGen =>
      exists m :: m in p.messages && Has(s, "message", m)
    case CelebrationGen =>
      Has(s, "message", CelebrationMessage) && "confetti" in s.content && s.content["confetti"] == Flag(true)
  }

  // The records built around a chosen entry.

  function QuoteRecord(q: Quote): Surprise {
    Surprise("quote", map["quote" := Text(q.quote), "author" := Text(q.author), "emoji" := Text("💭")])
  }

  function JokeRecord(j: Joke): Surprise {
    Surprise("joke", map["setup" := Text(j.setup), "punchline" := Text(j.punchline), "emoji" := Text("😄")])
  }

  function FactRecord(f: string): Surprise {
    Surprise("fact", map["fact" := Text(f), "emoji" := Text("🤓")])
  }

  function ArtRecord(a: Art): Surprise {
    Surprise("ascii_art", map["name" := Text(a.name), "art" := Text(a.art), "emoji" := Text("🎨")])
  }

  function ChallengeRecord(c: Challenge): Surprise {
    Surprise("challenge", map["challenge" := Text(c.challenge), "difficulty" := Text(c.difficulty),
                              "hint" := Text(c.hint), "emoji" := Text("💻")])
  }

  /** A mini game's dictionary as the list holds it, without its secret
      number. */
  function GameDict(m: MiniGame): Content {
    map["name" := Text(m.name), "description" := Text(m.description),
        "instructions" := Text(m.instructions)]
  }

  function GameRecord(m: MiniGame): Surprise {
    Surprise("game", map["name" := Text(m.name), "description" := Text(m.description),
                         "instructions" := Text(m.instructions), "emoji" := Text("🎮")])
  }

  function MotivationRecord(m: string): Surprise {
    Surprise("motivation", map["message" := Text(m), "emoji" := Text("✨")])
  }

  const CelebrationRecord: Surprise :=
    Surprise("celebration", map["message" := Text(CelebrationMessage), "confetti" := Flag(true),
                                "emoji" := Text("🎊")])

  // The generators, each from the generator state before it runs to its
  // record and the state after.

  /** `generate_inspirational_quote` */
  function GenerateQuote(p: Pools, st: RngState): (r: (Surprise, RngState))
    requires |p.quotes| > 0
    ensures WellFormed(QuoteGen, r.0) && FromPool(p, QuoteGen, r.0)
    ensures r.1 == Advance(st)
  {
    var q := p.quotes[Below(st, |p.quotes|)];
    assert q in p.quotes;
    (QuoteRecord(q), Advance(st))
  }

  /** `generate_tech_joke` */
  function GenerateJoke(p: Pools, st: RngState): (r: (Surprise, RngState))
    requires |p.jokes| > 0
    ensures WellFormed(JokeGen, r.0) && FromPool(p, JokeGen, r.0)
    ensures r.1 == Advance(st)
  {
    var j := p.jokes[Below(st, |p.jokes|)];
    assert j in p.jokes;
    (JokeRecord(j), Advance(st))
  }

  /** `generate_fun_fact` */
  function GenerateFact(p: Pools, st: RngState): (r: (Surprise, RngState))
    requires |p.facts| > 0
    ensures WellFormed(FactGen, r.0) && FromPool(p, FactGen, r.0)
    ensures r.1 == Advance(st)
  {
    var f := p.facts[Below(st, |p.facts|)];
    assert f in p.facts;
    (FactRecord(f), Advance(st))
  }

  /** `generate_ascii_art` */
  function GenerateArt(p: Pools, st: RngState): (r: (Surprise, RngState))
    requires |p.arts| > 0
    ensures WellFormed(ArtGen, r.0) && FromPool(p, ArtGen, r.0)
    ensures r.1 == Advance(st)
  {
    var a := p.arts[Below(st, |p.arts|)];
    assert a in p.arts;
    (ArtRecord(a), Advance(st))
  }

  /** `generate_coding_challenge` */
  function GenerateChallenge(p: Pools, st: RngState): (r: (Surprise, RngState))
    requires |p.challenges| > 0
    ensures WellFormed(ChallengeGen, r.0) && FromPool(p, ChallengeGen, r.0)
    ensures r.1 == Advance(st)
  {
    var c := p.challenges[Below(st, |p.challenges|)];
    assert c in p.challenges;
    (ChallengeRecord(c), Advance(st))
  }

  /** `generate_mini_game`: the first game of the list, whose copy gets a
      new secret number. The draw advances the generator, but the number
      is not part of the record. */
  function GenerateMiniGame(p: Pools, st: RngState): (r: (Surprise, RngState))
    requires |p.games| > 0
    ensures WellFormed(MiniGameGen, r.0) && FromPool(p, MiniGameGen, r.0)
    ensures "secret_number" !in r.0.content
    ensures r.1 == Advance(st)
  {
    (GameRecord(p.games[0]), Advance(st))
  }

  /** `generate_motivational_message` */
  function GenerateMotivation(p: Pools, st: RngState): (r: (Surprise, RngState))
    requires |p.messages| > 0
    ensures WellFormed(MotivationGen, r.0) && FromPool(p, MotivationGen, r.0)
    ensures r.1 == Advance(st)
  {
    var m := p.messages[Below(st, |p.messages|)];
    assert m in p.messages;
    (MotivationRecord(m), Advance(st))
  }

  /** `generate_celebration`: the same record every time, and no draw. */
  function GenerateCelebration(p: Pools, st: RngState): (r: (Surprise, RngState))
    ensures WellFormed(CelebrationGen, r.0) && FromPool(p, CelebrationGen, r.0)
    ensures r.1 == st
  {
    (CelebrationRecord, st)
  }

  /** Running generator `g` from state `st`. */
  function Run(p: Pools, g: Generator, st: RngState): (r: (Surprise, RngState))
    requires Stocked(p)
    ensures WellFormed(g, r.0) && FromPool(p, g, r.0)
    ensures r.1 == if g == CelebrationGen then st else Advance(st)
  {
    match g
    case QuoteGen => GenerateQuote(p, st)
    case JokeGen => GenerateJoke(p, st)
    case FactGen => GenerateFact(p, st)
    case ArtGen => GenerateArt(p, st)
    case ChallengeGen => GenerateChallenge(p, st)
    case MiniGameGen => GenerateMiniGame(p, st)
    case MotivationGen => GenerateMotivation(p, st)
    case CelebrationGen => GenerateCelebration(p, st)
  }

  /** No generator's content has a `daily` key. */
  lemma NoGeneratorWritesDaily(g: Generator)
    ensures "daily" !in Fields(g)
  {
  }

  /** A random pick: one draw chooses a registered generator, which then
      runs. */
  function RandomPick(p: Pools, st: RngState): (r: (Surprise, RngState))
    requires Stocked(p)
    ensures r.0.kind in RegisteredKinds && r.0.kind != "game"
    ensures exists g :: g in SurpriseGenerators && WellFormed(g, r.0) && FromPool(p, g, r.0)
  {
    var g := SurpriseGenerators[Below(st, |SurpriseGenerators|)];
    assert g in SurpriseGenerators;
    Run(p, g, Advance(st))
  }

  /** Running a generator against the process-wide generator. */
  method Generate(p: Pools, g: Generator, rng: Random) returns (s: Surprise)
    requires Stocked(p)
    modifies rng
    ensures (s, rng.state) == Run(p, g, old(rng.state))
  {
    match g {
      case QuoteGen =>
        var q := rng.Choice(p.quotes);
        s := QuoteRecord(q);
      case JokeGen =>
        var j := rng.Choice(p.jokes);
        s := JokeRecord(j);
      case FactGen =>
        var f := rng.Choice(p.facts);
        s := FactRecord(f);
      case ArtGen =>
        var a := rng.Choice(p.arts);
        s := ArtRecord(a);
      case ChallengeGen =>
        var c := rng.Choice(p.challenges);
        s := ChallengeRecord(c);
      case MiniGameGen =>
        // A copy of the list's dictionary gets a fresh secret number; the
        // record is built from the copy, without it.
        var game := GameDict(p.games[0]);
        var n := rng.RandInt(1, 100);
        game := game["secret_number" := Number(n)];
        s := Surprise("game", map["name" := game["name"], "description" := game["description"],
                                  "instructions" := game["instructions"], "emoji" := Text("🎮")]);
      case MotivationGen =>
        var m := rng.Choice(p.messages);
        s := MotivationRecord(m);
      case CelebrationGen =>
        s := CelebrationRecord;
    }
  }

  /** The pick of `get_random_surprise`: choose a registered generator,
      then run it. */
  method PickSurprise(p: Pools, rng: Random) returns (s: Surprise)
    requires Stocked(p)
    modifies rng
    ensures (s, rng.state) == RandomPick(p, old(rng.state))
  {
    var g := rng.Choice(SurpriseGenerators);
    s := Generate(p, g, rng);
  }

  /** `get_random_surprise`, with the timestamp of the response as an
      input. */
  method GetRandomSurprise(rng: Random, timestamp: string) returns (resp: SurpriseResponse)
    modifies rng
    ensures Surprise(resp.kind, resp.content) == RandomPick(Collection, old(rng.state)).0
    ensures resp.kind in RegisteredKinds && resp.kind != "game"
    ensures resp.timestamp == timestamp
    ensures rng.state == RandomPick(Collection, old(rng.state)).1
  {
    var s := PickSurprise(Collection, rng);
    resp := SurpriseResponse(s.kind, s.content, timestamp);
  }

  // ---------------------------------------------------------------------
  // The daily seed
  // ---------------------------------------------------------------------

  /** A calendar date, as `datetime.date` holds it. */
  datatype Date = Date(year: nat, month: nat, day: nat)

  predicate IsLeapYear(y: nat) {
    y % 4 == 0 && (y % 100 != 0 || y % 400 == 0)
  }

  function DaysInMonth(year: nat, month: nat): nat
    requires 1 <= month <= 12
  {
    if month == 2 then (if IsLeapYear(year) then 29 else 28)
    else if month == 4 || month == 6 || month == 9 || month == 11 then 30
    else 31
  }

  /** The dates `datetime.date` can hold: years 1 to 9999 of the Gregorian
      calendar. */
  predicate ValidDate(d: Date) {
    1 <= d.year <= 9999 && 1 <= d.month <= 12 && 1 <= d.day <= DaysInMonth(d.year, d.month)
  }

  predicate IsDigit(c: char) {
    '0' <= c <= '9'
  }

  predicate IsDecimal(s: string) {
    forall i :: 0 <= i < |s| ==> IsDigit(s[i])
  }

  function DigitChar(d: nat): char
    requires d < 10
  {
    ('0' as int + d) as char
  }

  function DigitValue(c: char): nat
    requires IsDigit(c)
  {
    c as int - '0' as int
  }

  function Pow10(k: nat): (r: nat)
    ensures r > 0
  {
    if k == 0 then 1 else 10 * Pow10(k - 1)
  }

  /** The decimal digits of `n`, left-padded with zeros to at least `width`
      characters: `strftime` prints `%Y` with width 4, `%m` and `%d` with
      width 2. */
  function Digits(n: nat, width: nat): (s: string)
    ensures IsDecimal(s)
    decreases n, width
  {
    if n == 0 && width == 0 then ""
    else Digits(n / 10, if width == 0 then 0 else width - 1) + [DigitChar(n % 10)]
  }

  /** `int(s)` on a string of decimal digits. */
  function ParseDecimal(s: string): nat
    requires IsDecimal(s)
  {
    if s == [] then 0 else 10 * ParseDecimal(s[..|s| - 1]) + DigitValue(s[|s| - 1])
  }

  /** The daily seed, `int(today.strftime("%Y%m%d"))`. */
  function DailySeed(d: Date): nat {
    var text := Digits(d.year, 4) + Digits(d.month, 2) + Digits(d.day, 2);
    assert IsDecimal(text);
    ParseDecimal(text)
  }

  /** Reading back the digits of `n` gives `n`, whatever the padding. */
  lemma {:induction false} ParseDigits(n: nat, width: nat)
    ensures ParseDecimal(Digits(n, width)) == n
    decreases n, width
  {
    if n == 0 && width == 0 {
    } else {
      var w := if width == 0 then 0 else width - 1;
      var s := Digits(n, width);
      assert s[..|s| - 1] == Digits(n / 10, w);
      ParseDigits(n / 10, w);
    }
  }

  /** A number below `10^width` prints in exactly `width` digits. */
  lemma {:induction false} DigitsLength(n: nat, width: nat)
    requires n < Pow10(width)
    ensures |Digits(n, width)| == width
    decreases width
  {
    if width == 0 {
      assert n == 0;
    } else {
      DigitsLength(n / 10, width - 1);
    }
  }

  /** Reading a concatenation of digit strings. */
  lemma {:induction false} ParseAppend(a: string, b: string)
    requires IsDecimal(a) && IsDecimal(b)
    ensures IsDecimal(a + b)
    ensures ParseDecimal(a + b) == ParseDecimal(a) * Pow10(|b|) + ParseDecimal(b)
    decreases |b|
  {
    if b == [] {
      assert a + b == a;
    } else {
      var c := b[..|b| - 1];
      assert (a + b)[..|a + b| - 1] == a + c;
      assert (a + b)[|a + b| - 1] == b[|b| - 1];
      ParseAppend(a, c);
      ShiftDigit(ParseDecimal(a), Pow10(|c|), ParseDecimal(c), DigitValue(b[|b| - 1]));
    }
  }

  /** One more digit after `p * k + q`. */
  lemma ShiftDigit(p: int, k: int, q: int, v: int)
    ensures 10 * (p * k + q) + v == p * (10 * k) + (10 * q + v)
  {
    assert 10 * (p * k) == p * (10 * k);
  }

  /** The daily seed is the date written as the number `YYYYMMDD`. */
  lemma DailySeedValue(d: Date)
    requires ValidDate(d)
    ensures DailySeed(d) == d.year * 10000 + d.month * 100 + d.day
  {
    var y, m, dd := Digits(d.year, 4), Digits(d.month, 2), Digits(d.day, 2);
    assert Pow10(2) == 100 by {
      assert Pow10(1) == 10;
    }
    DigitsLength(d.month, 2);
    DigitsLength(d.day, 2);
    ParseDigits(d.year, 4);
    ParseDigits(d.month, 2);
    ParseDigits(d.day, 2);
    ParseAppend(y, m);
    ParseAppend(y + m, dd);
  }

  /** The date a daily seed was made from. */
  function DateOfSeed(seed: nat): Date {
    Date(seed / 10000, seed / 100 % 100, seed % 100)
  }

  /** `YYYYMMDD` splits back into its three fields. */
  lemma SplitSeed(y: nat, m: nat, d: nat)
    requires m < 100 && d < 100
    ensures DateOfSeed(y * 10000 + m * 100 + d) == Date(y, m, d)
  {
    var n := y * 10000 + m * 100 + d;
    assert n == (y * 100 + m) * 100 + d;
    assert n / 100 == y * 100 + m;
    assert n / 10000 == n / 100 / 100;
  }

  /** The seed determines the date back. */
  lemma SeedRoundTrip(d: Date)
    requires ValidDate(d)
    ensures DateOfSeed(DailySeed(d)) == d
  {
    DailySeedValue(d);
    SplitSeed(d.year, d.month, d.day);
  }

  /** Two valid dates share a daily seed exactly when they are the same
      date. */
  lemma DailySeedInjective(d1: Date, d2: Date)
    requires ValidDate(d1) && ValidDate(d2)
    ensures DailySeed(d1) == DailySeed(d2) <==> d1 == d2
  {
    SeedRoundTrip(d1);
    SeedRoundTrip(d2);
  }

  // ---------------------------------------------------------------------
  // The daily pick
  // ---------------------------------------------------------------------

  /** The rewrite of a daily pick: `daily_` before the tag, and `daily`
      set in the content over whatever was there. */
  function DailyRewrite(s: Surprise): (r: Surprise)
    ensures r.kind == "daily_" + s.kind
    ensures r.content.Keys == s.content.Keys + {"daily"}
    ensures r.content["daily"] == Flag(true)
    ensures forall k :: k in s.content && k != "daily" ==> r.content[k] == s.content[k]
  {
    Surprise("daily_" + s.kind, s.content["daily" := Flag(true)])
  }

  predicate IsDaily(s: Surprise) {
    |s.kind| >= 6 && s.kind[..6] == "daily_"
  }

  /** The inverse of the rewrite: the tag without `daily_`, the content
      without `daily`. */
  function Undaily(s: Surprise): Surprise
    requires IsDaily(s)
  {
    Surprise(s.kind[6..], s.content - {"daily"})
  }

  /** The rewrite loses nothing of a record without a `daily` key. */
  lemma UndailyDailyRewrite(s: Surprise)
    requires "daily" !in s.content
    ensures IsDaily(DailyRewrite(s))
    ensures Undaily(DailyRewrite(s)) == s
  {
    var r := DailyRewrite(s);
    assert r.kind[..6] == "daily_";
    assert r.kind[6..] == s.kind;
    assert r.content - {"daily"} == s.content;
  }

  /** `get_daily_inspiration` without the response wrapper: the random pick
      made right after seeding with the date, rewritten. */
  function DailyPick(p: Pools, d: Date): Surprise
    requires Stocked(p)
  {
    DailyRewrite(RandomPick(p, Seeded(DailySeed(d))).0)
  }

  /** A daily pick is a registered generator's record from its pool,
      rewritten, and it gives that record back. */
  lemma DailyPickSpec(p: Pools, d: Date)
    requires Stocked(p)
    ensures var r := DailyPick(p, d);
      IsDaily(r) && r.content["daily"] == Flag(true) &&
      exists g :: g in SurpriseGenerators && r.kind == "daily_" + Kind(g) &&
                  WellFormed(g, Undaily(r)) && FromPool(p, g, Undaily(r))
  {
    var s := RandomPick(p, Seeded(DailySeed(d))).0;
    var g :| g in SurpriseGenerators && WellFormed(g, s) && FromPool(p, g, s);
    NoGeneratorWritesDaily(g);
    UndailyDailyRewrite(s);
  }

  /** Dates with the same seed get the same daily pick. */
  lemma SameSeedSameDailyPick(p: Pools, d1: Date, d2: Date)
    requires Stocked(p)
    requires DailySeed(d1) == DailySeed(d2)
    ensures DailyPick(p, d1) == DailyPick(p, d2)
  {
  }

  /** `get_daily_inspiration`, with the date, the entropy of the final
      reseed and the timestamp of the response as inputs: seed with the
      date, pick, reseed, rewrite. */
  method GetDailyInspiration(rng: Random, today: Date, entropy: nat, timestamp: string)
    returns (resp: SurpriseResponse)
    modifies rng
    ensures Surprise(resp.kind, resp.content) == DailyPick(Collection, today)
    ensures resp.timestamp == timestamp
    ensures rng.state == Reseeded(entropy) && rng.state != Seeded(DailySeed(today))
  {
    var seed := DailySeed(today);
    rng.Seed(seed);
    var s := PickSurprise(Collection, rng);
    rng.Reseed(entropy);
    var daily := DailyRewrite(s);
    resp := SurpriseResponse(daily.kind, daily.content, timestamp);
  }
}
