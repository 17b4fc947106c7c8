# Surprises, verification e-mail and Easter eggs — a Dafny model

This project models three small pieces of the AnswerAI application and proves
what they promise.

- **Surprises** (`surprises.dfy`, module `Surprises`). This is the backend's
  surprise router without its HTTP layer:
  - the constant content pools;
  - one generator per category, each turning one pool entry into a
    `{type, content}` record with a fixed type tag and emoji;
  - the random pick among the seven registered generators;
  - the daily pick, which seeds the shared random generator with the date as
    the integer `YYYYMMDD`, picks, reseeds, and rewrites the result into a
    `daily_` record.

  The process-wide random generator is a class `Random` whose state is a
  function of its last seed and of the number of draws since then. The
  generators are functions of the pools and that state. `Generate`,
  `PickSurprise`, `GetRandomSurprise` and `GetDailyInspiration` are methods on
  the generator object, proved against those functions.
- **Verification e-mail** (`email.dfy`, module `Email`). This covers:
  - the verification token, as hexadecimal text of 32 random bytes;
  - the verification link, with and without a base URL;
  - the two-part MIME message, built header by header and part by part on a
    `MimeMultipart` object;
  - the SMTP session.

  The server is a `Transport` object that records every command it is sent
  and refuses the kinds of command it is set up to refuse. A refused command
  stands for any exception raised at that point. The session is specified by
  the function `Session`, and `SendVerificationEmail` is proved against it.
  The product name, a module constant in the program, is a parameter.
- **Easter eggs** (`easter_eggs.dfy`, module `EasterEggs`). This covers the
  front end's list of eggs and `checkEasterEgg`: trim the message, then scan
  the list for the first egg whose trigger fires. It also covers the two
  random pickers for hints and achievement messages. Triggers are predicates
  on strings. Each regular expression of the list is written out as the
  finite set of phrases it accepts, or, for the greeting egg, as a predicate.

`wrappers.dfy` holds the `Option` type shared by the modules.

## Model

| member | source | states |
|---|---|---|
| Surprises.Random.Choice | backend/answerai/routers/surprises.py:160 | `random.choice` on a non-empty list returns an element of the list, at the index the current state selects, and advances the state by one draw |
| Surprises.Random.RandInt | backend/answerai/routers/surprises.py:226 | `random.randint(a, b)` returns a number in `[a, b]` and advances the state by one draw |
| Surprises.Random.Seed | backend/answerai/routers/surprises.py:364 | `random.seed(n)` puts the generator in the state fixed by `n`, whatever it was before |
| Surprises.Random.Reseed | backend/answerai/routers/surprises.py:370 | `random.seed()` puts the generator in a state drawn from fresh entropy |
| Surprises.GenerateQuote | backend/answerai/routers/surprises.py:158-168 | the record has type `quote`, the keys `quote`, `author` and `emoji`, the quote emoji, and the text of some entry of the quote pool; one draw is used |
| Surprises.GenerateJoke | backend/answerai/routers/surprises.py:171-181 | type `joke`, keys `setup`, `punchline` and `emoji`, taken from some entry of the joke pool |
| Surprises.GenerateFact | backend/answerai/routers/surprises.py:184-193 | type `fact`, keys `fact` and `emoji`, the fact being an element of the fact pool |
| Surprises.GenerateArt | backend/answerai/routers/surprises.py:196-206 | type `ascii_art`, keys `name`, `art` and `emoji`, taken from some entry of the art pool |
| Surprises.GenerateChallenge | backend/answerai/routers/surprises.py:209-220 | type `challenge`, keys `challenge`, `difficulty`, `hint` and `emoji`, taken from some entry of the challenge pool |
| Surprises.GenerateMiniGame | backend/answerai/routers/surprises.py:223-235 | type `game`, the fields of the first mini-game and the game emoji; the returned content has no `secret_number` |
| Surprises.GenerateMotivation | backend/answerai/routers/surprises.py:238-247 | type `motivation`, keys `message` and `emoji`, the message being an element of the motivational pool |
| Surprises.GenerateCelebration | backend/answerai/routers/surprises.py:250-259 | constant record: type `celebration`, the fixed message, `confetti` true and the celebration emoji; no draw is used |
| Surprises.Run | backend/answerai/routers/surprises.py:158-259 | whichever generator runs, its record is well formed for that generator and drawn from that generator's pool |
| Surprises.Generate | backend/answerai/routers/surprises.py:223-235 | running a generator on the shared generator object gives the record and the new state that `Run` gives; the mini-game copies the first game, draws `secret_number`, and leaves it out of the content |
| Surprises.RandomPick | backend/answerai/routers/surprises.py:262-270 | a pick is one `choice` over `SurpriseGenerators`, the seven generators of the registered list in its order (the mini-game is not among them), then a run of the generator chosen; the pick has one of the seven registered type tags, never `game`, and is well formed and drawn from the pool of a registered generator |
| Surprises.PickSurprise | backend/answerai/routers/surprises.py:279-280 | choosing a generator and running it gives the record and state of `RandomPick` |
| Surprises.GetRandomSurprise | backend/answerai/routers/surprises.py:273-286 | the response's type is one of the seven registered tags and never `game`; the timestamp is the one given |
| Surprises.ParseDigits | backend/answerai/routers/surprises.py:363 | reading back the zero-padded decimal text of `n` gives `n` |
| Surprises.DigitsLength | backend/answerai/routers/surprises.py:363 | a number below `10^w`, zero-padded to width `w`, has exactly `w` digits |
| Surprises.ParseAppend | backend/answerai/routers/surprises.py:363 | the value of two digit strings written one after the other is the first shifted left by the length of the second, plus the second |
| Surprises.DailySeed | backend/answerai/routers/surprises.py:362-363 | the seed of a date: the text of `strftime("%Y%m%d")`, four digits of year, two of month and two of day, read as a decimal integer |
| Surprises.DailySeedValue | backend/answerai/routers/surprises.py:362-363 | the daily seed of a valid date is `year*10000 + month*100 + day` |
| Surprises.SeedRoundTrip | backend/answerai/routers/surprises.py:362-363 | the date can be read back from its daily seed |
| Surprises.DailySeedInjective | backend/answerai/routers/surprises.py:362-363 | two valid dates have the same seed if and only if they are the same date |
| Surprises.NoGeneratorWritesDaily | backend/answerai/routers/surprises.py:158-259 | no generator's record has a `daily` key, so the daily rewrite adds that key and overwrites nothing |
| Surprises.DailyRewrite | backend/answerai/routers/surprises.py:373-374 | the type becomes `"daily_" + type`; the keys are the old keys plus `daily`; `daily` is true and every other key keeps its value |
| Surprises.UndailyDailyRewrite | backend/answerai/routers/surprises.py:373-374 | the rewrite is undone by dropping the prefix and the `daily` key, when the content had no `daily` key |
| Surprises.DailyPick | backend/answerai/routers/surprises.py:362-374 | the daily record of a date: a random pick from the state the date's seed fixes, rewritten by `DailyRewrite` |
| Surprises.DailyPickSpec | backend/answerai/routers/surprises.py:362-374 | the daily pick is a daily record whose type is `"daily_"` plus a registered generator's tag, and whose content without `daily` is a well-formed record from that generator's pool |
| Surprises.SameSeedSameDailyPick | backend/answerai/routers/surprises.py:362-367 | two dates with the same seed get the same generator and the same entry |
| Surprises.GetDailyInspiration | backend/answerai/routers/surprises.py:355-376 | the response is the daily pick for the date; afterwards the generator has been reseeded from entropy and is not left at the date's seed |
| Email.TokenHex | backend/answerai/utils/email.py:19 | the hex text of `n` bytes has `2n` characters, all lower-case hexadecimal digits |
| Email.HexRoundTrip | backend/answerai/utils/email.py:19 | decoding the hex text gives the bytes back |
| Email.GenerateVerificationToken | backend/answerai/utils/email.py:14-19 | the token is 64 lower-case hexadecimal characters that encode the 32 random bytes drawn |
| Email.IndexOf | backend/answerai/utils/email.py:56-59 | the index of the first occurrence of a character, or the length when it is absent |
| Email.VerificationUrl | backend/answerai/utils/email.py:56-59 | the link: `base_url + "/auth/verify?token=" + token` when the base URL is present and non-empty, `"/auth/verify?token=" + token` otherwise |
| Email.VerificationUrlParts | backend/answerai/utils/email.py:56-59 | for a base URL without `?`, the link's query is `token=` followed by the token, and its path is `base_url + "/auth/verify"` when the base URL is non-empty and `"/auth/verify"` otherwise |
| Email.FillContainsLink | backend/answerai/utils/email.py:65-128 | a template with a link slot, once filled in, contains the link |
| Email.PlainBody | backend/answerai/utils/email.py:117-128 | the plain-text body: the program's text, with the product name in its four places and the link in its one |
| Email.HtmlBody | backend/answerai/utils/email.py:65-114 | the HTML body: the heading, the paragraphs, the button whose target is the link, the link again as text and the footer, with the product name in its four places |
| Email.BodiesCarryLink | backend/answerai/utils/email.py:84-123 | both the plain-text body and the HTML body contain the verification link |
| Email.Header | backend/answerai/utils/email.py:132-134 | an exact-case header lookup finds a value if and only if a header of that name exists, and the value is that of the first such header |
| Email.MimeMultipart.constructor | backend/answerai/utils/email.py:131 | a new multipart message has its content-type and MIME-version headers and no part |
| Email.MimeMultipart.SetHeader | backend/answerai/utils/email.py:132-134 | a header assignment appends the header and leaves the parts unchanged |
| Email.MimeMultipart.Attach | backend/answerai/utils/email.py:139-140 | `attach` appends the part and leaves the headers unchanged |
| Email.VerificationMessage | backend/answerai/utils/email.py:131-140 | the message: the multipart headers, then `Subject`, `From` and `To` in that order, and the plain part before the HTML part |
| Email.BuildMessage | backend/answerai/utils/email.py:131-140 | the message built step by step is `VerificationMessage` |
| Email.VerificationMessageSpec | backend/answerai/utils/email.py:62-140 | `Subject` is `"Verify your email for "` plus the product name, `From` is the configured sender and `To` the recipient; there are exactly two parts, plain first and HTML second, and both contain the link |
| Email.Transport.Perform | backend/answerai/utils/email.py:143-150 | a command is appended to the trace, and it succeeds exactly when its kind is not refused |
| Email.Plan | backend/answerai/utils/email.py:143-150 | the commands the session means to send: connect to the configured host and port, `starttls` when TLS is on, `login` with the configured credentials when both are non-empty, then `send_message` |
| Email.Session | backend/answerai/utils/email.py:143-163 | the trace and the result of the session: the plan up to its first refused command, then `QUIT` unless the connection was refused; true when the plan and `QUIT` all went through |
| Email.Attempted | backend/answerai/utils/email.py:143-150 | the commands a server sees are a prefix of the plan: all accepted except possibly the last, which is refused when the plan was cut short |
| Email.AttemptedAppend | backend/answerai/utils/email.py:143-150 | a second list of commands is reached only when every command of the first was accepted |
| Email.PlanAttempts | backend/answerai/utils/email.py:143-150 | the session stops after the connection, the TLS upgrade or the login, whichever is refused first, and otherwise runs through to the send |
| Email.ConnectRefused | backend/answerai/utils/email.py:143 | a refused connection ends the session at once, with no `QUIT`, and the result is false |
| Email.RunSession | backend/answerai/utils/email.py:143-163 | the trace and the result of the session are those of `Session` |
| Email.SendVerificationEmail | backend/answerai/utils/email.py:50-163 | an empty host or sender gives false with no transport action; otherwise the trace and the result are those of `Session` on the verification message |
| Email.SessionFrame | backend/answerai/utils/email.py:143 | the session opens with the connection; once the connection is accepted it ends with one `QUIT` and no other |
| Email.SessionTls | backend/answerai/utils/email.py:144-145 | `starttls` is sent if and only if TLS is on and the connection was accepted |
| Email.SessionTlsBeforeLogin | backend/answerai/utils/email.py:144-148 | `starttls` always comes before any login |
| Email.SessionLogin | backend/answerai/utils/email.py:147-148 | a login uses the configured credentials and happens only when both are non-empty; it does happen when both are non-empty and the steps before it were accepted |
| Email.SessionSendLast | backend/answerai/utils/email.py:150 | `send_message` is followed only by `QUIT`, and it is sent if and only if the connection, the TLS upgrade and the login were accepted |
| Email.SessionResult | backend/answerai/utils/email.py:152-163 | the result is true if and only if every command of the session was accepted, and then the full plan and `QUIT` were sent; every failure gives false |
| Email.SendPasswordResetEmail | backend/answerai/utils/email.py:166-182 | the stub returns no value, never true |
| EasterEggs.LeadingWhitespaceSpec | src/lib/utils/easterEggs.ts:98 | the leading count is the index of the first non-whitespace character, or the length for an all-blank string |
| EasterEggs.TrailingWhitespaceSpec | src/lib/utils/easterEggs.ts:98 | the trailing count covers exactly the whitespace run that ends the string |
| EasterEggs.Trim | src/lib/utils/easterEggs.ts:98 | `trim`: the message without its leading and trailing whitespace runs |
| EasterEggs.TrimSpec | src/lib/utils/easterEggs.ts:98 | `trim` returns the infix left once the leading and trailing whitespace runs are removed; it neither starts nor ends with whitespace |
| EasterEggs.TrimAbsorbsWhitespace | src/lib/utils/easterEggs.ts:98 | adding whitespace around a message does not change what it trims to |
| EasterEggs.TrimIdempotent | src/lib/utils/easterEggs.ts:98 | trimming twice is trimming once |
| EasterEggs.Triggers | src/lib/utils/easterEggs.ts:101-109 | an egg fires on the trimmed message when its string trigger equals the message once both are lower-cased, or when its pattern accepts the message |
| EasterEggs.HelloThere | src/lib/utils/easterEggs.ts:18 | the whole message is "hello", "hi" or "hey", one or more whitespace characters, then "there", ignoring case, and nothing else |
| EasterEggs.AnswerToLife | src/lib/utils/easterEggs.ts:23 | the whole message is "the answer to life the universe and everything", with or without each of its two commas, ignoring case |
| EasterEggs.LikeCoding | src/lib/utils/easterEggs.ts:28 | the whole message is "do you like coding", with or without a final question mark, ignoring case |
| EasterEggs.Sandwich | src/lib/utils/easterEggs.ts:33 | the whole message is "sudo make me a sandwich", ignoring case |
| EasterEggs.TellJoke | src/lib/utils/easterEggs.ts:38 | the whole message is "tell me a joke" or "make me laugh", ignoring case |
| EasterEggs.Compliment | src/lib/utils/easterEggs.ts:43 | the whole message is "you're" or "you are", a space, then "awesome", "amazing" or "great", ignoring case |
| EasterEggs.Thanks | src/lib/utils/easterEggs.ts:48 | the whole message is "thank you" or "thanks", ignoring case |
| EasterEggs.WhatIsLove | src/lib/utils/easterEggs.ts:53 | the whole message is "what is love" or "baby don't hurt me", ignoring case |
| EasterEggs.Konami | src/lib/utils/easterEggs.ts:58 | the whole message is "konami" or "up up down down", ignoring case |
| EasterEggs.WhereAreTheBugs | src/lib/utils/easterEggs.ts:63 | the whole message is "where are the bugs", with or without a final question mark, ignoring case |
| EasterEggs.Coffee | src/lib/utils/easterEggs.ts:68 | the whole message is "coffee" or "i need coffee", ignoring case |
| EasterEggs.Hungry | src/lib/utils/easterEggs.ts:73 | the whole message is "pizza", "i'm hungry" or "i am hungry", ignoring case |
| EasterEggs.AreYouRobot | src/lib/utils/easterEggs.ts:78 | the whole message is "are you robot" with an optional "a " before "robot" and an optional final question mark, ignoring case |
| EasterEggs.ShowMe | src/lib/utils/easterEggs.ts:83 | the whole message is "show me the money" or "show me the code", ignoring case |
| EasterEggs.Over9000 | src/lib/utils/easterEggs.ts:88 | the whole message is "it", an optional apostrophe, an optional "s", " over 9000" and an optional "!", ignoring case |
| EasterEggs.FirstMatchIndex | src/lib/utils/easterEggs.ts:100-112 | the index found is that of an egg that fires, with no earlier egg firing; no index is found if and only if no egg fires |
| EasterEggs.CheckEasterEggIn | src/lib/utils/easterEggs.ts:97-113 | the loop returns the first egg of the list that fires on the trimmed message; a result is an element of the list that fires; the result is null if and only if no egg fires |
| EasterEggs.CheckEasterEgg | src/lib/utils/easterEggs.ts:16-113 | the same, over `Eggs`: the fifteen eggs of the list in their order, each with its pattern, response and emoji |
| EasterEggs.CheckIgnoresSurroundingWhitespace | src/lib/utils/easterEggs.ts:98 | whitespace around a message never changes which egg fires |
| EasterEggs.CheckOfTrimmed | src/lib/utils/easterEggs.ts:98 | a message and its trimmed form fire the same egg |
| EasterEggs.LiteralIgnoresCase | src/lib/utils/easterEggs.ts:101-103 | a string trigger compares without regard to case |
| EasterEggs.ThanksPatternExamples | src/lib/utils/easterEggs.ts:48 | "Thanks" and "THANK YOU" match the thank-you pattern; "thanks a lot" and "no thanks" do not |
| EasterEggs.HelloTherePatternExamples | src/lib/utils/easterEggs.ts:18 | "Hey   THERE" matches the greeting pattern; "hey there you" does not |
| EasterEggs.FirstMatchIsAt | src/lib/utils/easterEggs.ts:100-110 | when the egg at `k` fires and none before it does, the scan returns the egg at `k` |
| EasterEggs.ThanksFiresThankYouEgg | src/lib/utils/easterEggs.ts:16-113 | `"  Thanks "` fires the thank-you egg and no earlier one |
| EasterEggs.RandomIndex | src/lib/utils/easterEggs.ts:128 | `Math.floor(u * n)` for `u` in `[0, 1)` is a valid index below `n` |
| EasterEggs.RandomEasterEggHint | src/lib/utils/easterEggs.ts:118-129 | the hint returned is one of the six hints |
| EasterEggs.AchievementMessage | src/lib/utils/easterEggs.ts:169-182 | the message returned is one of the five achievement messages |

## Left out

- The FastAPI routes, the `get_verified_user` dependency and the pydantic validation of `SurpriseResponse` are left out. That includes the per-category endpoints (backend/answerai/routers/surprises.py:289-352), which only wrap one generator each. They are HTTP plumbing.
- Surprises.GetDailyInspiration: the date and the timestamp are inputs, because the clock is not modelled. The program reads the clock twice; the model takes the date and the timestamp as two independent inputs.
- Surprises.Random.Choice: the Mersenne Twister is not modelled. A draw is an abstract function of the seed and the number of draws since seeding, and a `choice` counts as one draw. The proofs hold for any such function.
- Surprises.Random.Reseed: the entropy `random.seed()` reads from the operating system is a parameter.
- The process-wide random generator is shared by concurrent requests; the model runs the daily pick as one uninterrupted sequence. Concurrency is not modelled.
- Surprises.GenerateQuote: the pool is a parameter, and the generators over it require it to be non-empty; the program's pools are non-empty constants. `random.choice` raising `IndexError` on an empty list is not modelled.
- Surprises.DailySeed: `%Y` is written with four digits for every year; whether a platform pads years below 1000 does not change the integer.
- The import-time `secret_number` of the mini-game list is never read and is not modelled.
- Email.GenerateVerificationToken: the 32 random bytes from `secrets` are a parameter.
- Email.SendVerificationEmail: sockets, TLS, MIME encoding and the log messages are not modelled. The server is the abstract `Transport`, and the three `except` branches collapse into one refused command, since all three return false.
- Email.Session: a refused `QUIT` after a failure inside the `with` block is folded into that failure, since the result is false either way. `SMTPServerDisconnected` swallowed during `QUIT` is not modelled.
- Email.HtmlBody: the HTML template keeps the heading, the paragraphs, the button link, the link as text and the footer, with every place the product name and the link appear. It leaves out the two `<meta>` tags, the `<div>` containers, the `<hr>`, the inline styles and the indentation. The plain-text template is exact.
- Email.VerificationUrlParts: the path and query split is proved only for a base URL without `?`. With a `?` in the base URL, the first `?` of the link belongs to the base and `token=` is not the start of its query. The link is still built as `VerificationUrl` says.
- Email.Header: the lookup compares header names exactly, while Python's `message[name]` ignores case. The names looked up here are written in the same case as they are set, so the two agree on this message.
- EasterEggs.IsWhitespace: the model uses ECMAScript's whitespace set, but `toLowerCase` is modelled on the ASCII letters only. Unicode case folding is not modelled, and no egg's phrase needs it.
- EasterEggs.RandomIndex: `Math.random()` is a real number `u` in `[0, 1)` given as a parameter, not a floating-point value.
- The optional `action` callback of an egg, the `ASCII_CELEBRATIONS` table and the front end's HTTP client for the surprise routes are not modelled. No egg sets an action, and the table and client hold no logic.
- The database migration for the verification fields and the startup script are not modelled. They are schema operations and process start-up.

## Notes

- The doc-comment of `generate_verification_token` (backend/answerai/utils/email.py:17) promises a 32-character string. The code calls `token_hex(32)`, which writes 32 bytes as 64 characters. The model follows the code.
