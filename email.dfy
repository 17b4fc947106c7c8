/**
 * The verification e-mail of the backend: a random token, the link built
 * from it, a two-part message, and the SMTP session that sends it.
 *
 * The SMTP server is modelled as a transport that records every command it
 * is sent and refuses the kinds of command it is set up to refuse; a refused
 * command stands for any exception the session raises at that point
 * (authentication, SMTP or other), all of which end the session with the
 * result `False`.
 */
module Email {
  import opened Wrappers

  // ---------------------------------------------------------------------
  // The token
  // ---------------------------------------------------------------------

  type byte = b: nat | b < 256

  /** A lower-case hexadecimal digit. */
  predicate IsHexDigit(c: char) {
    '0' <= c <= '9' || 'a' <= c <= 'f'
  }

  predicate IsHex(s: string) {
    forall i :: 0 <= i < |s| ==> IsHexDigit(s[i])
  }

  /** The digit for `k`, as `token_hex` writes it. */
  function HexDigit(k: nat): (c: char)
    requires k < 16
    ensures IsHexDigit(c)
  {
    if k < 10 then ('0' as int + k) as char else ('a' as int + k - 10) as char
  }

  function HexPair(b: byte): string {
    [HexDigit(b / 16), HexDigit(b % 16)]
  }

  /** `secrets.token_hex` once its random bytes are drawn: each byte as two
      lower-case hexadecimal digits. */
  function TokenHex(bytes: seq<byte>): (t: string)
    ensures |t| == 2 * |bytes| && IsHex(t)
  {
    if bytes == [] then "" else HexPair(bytes[0]) + TokenHex(bytes[1..])
  }

  function HexValue(c: char): (v: nat)
    requires IsHexDigit(c)
    ensures v < 16 && HexDigit(v) == c
  {
    if '0' <= c <= '9' then c as int - '0' as int else c as int - 'a' as int + 10
  }

  /** Reading a string of hexadecimal digit pairs back into bytes. */
  function HexDecode(t: string): seq<byte>
    requires |t| % 2 == 0 && IsHex(t)
  {
    if t == [] then [] else [HexValue(t[0]) * 16 + HexValue(t[1])] + HexDecode(t[2..])
  }

  /** The hexadecimal text of a byte string gives the bytes back. */
  lemma {:induction false} HexRoundTrip(bytes: seq<byte>)
    ensures HexDecode(TokenHex(bytes)) == bytes
  {
    if bytes != [] {
      var b := bytes[0];
      var t := TokenHex(bytes);
      assert t[2..] == TokenHex(bytes[1..]);
      assert HexValue(t[0]) == b / 16 && HexValue(t[1]) == b % 16;
      HexRoundTrip(bytes[1..]);
    }
  }

  /** `generate_verification_token`, given the 32 random bytes it draws: 64
      lower-case hexadecimal digits that encode them. */
  function GenerateVerificationToken(entropy: seq<byte>): (t: string)
    requires |entropy| == 32
    ensures |t| == 64 && IsHex(t)
    ensures HexDecode(t) == entropy
  {
    HexRoundTrip(entropy);
    TokenHex(entropy)
  }

  // ---------------------------------------------------------------------
  // The link and the bodies
  // ---------------------------------------------------------------------

  datatype SmtpConfig = SmtpConfig(
    host: string, port: int, username: string, password: string, fromEmail: string, useTls: bool)

  /** Whether the configuration names a server and a sender. */
  predicate Complete(cfg: SmtpConfig) {
    cfg.host != "" && cfg.fromEmail != ""
  }

  const VerifyPath: string := "/auth/verify"

  /** The verification link: a present, non-empty `base_url` goes in front
      of the path; an absent or empty one leaves the link relative. */
  function VerificationUrl(token: string, baseUrl: Option<string>): string {
    if baseUrl.Some? && baseUrl.value != "" then baseUrl.value + VerifyPath + "?token=" + token
    else VerifyPath + "?token=" + token
  }

  /** The index of the first `c` in `s`, or `|s|`. */
  function IndexOf(s: string, c: char): (i: nat)
    ensures i <= |s| && (i < |s| ==> s[i] == c)
    ensures forall j :: 0 <= j < i ==> s[j] != c
  {
    if s == [] then 0 else if s[0] == c then 0 else 1 + IndexOf(s[1..], c)
  }

  /** The part of a link before its query. */
  function LinkPath(u: string): string {
    u[..IndexOf(u, '?')]
  }

  /** The value of a link's query when the query is `token=...`. */
  function LinkToken(u: string): Option<string> {
    var i := IndexOf(u, '?');
    if i < |u| && |u| - i - 1 >= 6 && u[i + 1..i + 7] == "token=" then Some(u[i + 7..]) else None
  }

  /** The link carries the token as its only query parameter, and its path
      is the verification path under the base, if there is one. */
  lemma VerificationUrlParts(token: string, baseUrl: Option<string>)
    requires baseUrl.Some? ==> '?' !in baseUrl.value
    ensures LinkToken(VerificationUrl(token, baseUrl)) == Some(token)
    ensures baseUrl.Some? && baseUrl.value != "" ==>
              LinkPath(VerificationUrl(token, baseUrl)) == baseUrl.value + VerifyPath
    ensures baseUrl.None? || baseUrl.value == "" ==>
              LinkPath(VerificationUrl(token, baseUrl)) == VerifyPath
  {
    var path := if baseUrl.Some? && baseUrl.value != "" then baseUrl.value + VerifyPath else VerifyPath;
    var u := VerificationUrl(token, baseUrl);
    assert u == path + "?" + ("token=" + token);
    assert '?' !in path;
    QueryStart(path, "token=" + token);
  }

  /** The first `?` of `path + "?" + query` is the one after `path` when
      `path` has none. */
  lemma QueryStart(path: string, query: string)
    requires '?' !in path
    ensures IndexOf(path + "?" + query, '?') == |path|
  {
    var u := path + "?" + query;
    assert u[|path|] == '?';
    forall j | 0 <= j < |path|
      ensures u[j] != '?'
    {
      assert u[j] == path[j];
    }
  }

  /** `s` occurs in `text` at index `i`. */
  predicate OccursAt(text: string, s: string, i: nat) {
    i + |s| <= |text| && text[i..i + |s|] == s
  }

  /** `s` occurs in `text`. */
  predicate Contains(text: string, s: string) {
    exists i :: 0 <= i <= |text| && OccursAt(text, s, i)
  }

  lemma ContainsMiddle(before: string, s: string, after: string)
    ensures Contains(before + s + after, s)
  {
    var text := before + s + after;
    assert text[|before|..|before| + |s|] == s;
    assert OccursAt(text, s, |before|);
  }

  /** A piece of an f-string template: literal text, the product name, or
      the verification link. */
  datatype Segment = Piece(text: string) | ProductName | Link

  /** A template filled in with the product name and the link. */
  function Fill(t: seq<Segment>, name: string, url: string): string {
    if t == [] then ""
    else
      var head := match t[0]
        case Piece(s) => s
        case ProductName => name
        case Link => url;
      head + Fill(t[1..], name, url)
  }

  /** The plain-text part's template. */
  const PlainTemplate: seq<Segment> := [
    Piece("\nWelcome to "),
    ProductName,
    Piece("!\n\nThank you for signing up! To complete your registration and start using "),
    ProductName,
    Piece(",\nplease verify your email address by visiting the following link:\n\n"),
    Link,
    Piece("\n\nIf you didn't create an account with "),
    ProductName,
    Piece(", you can safely ignore this email.\n\n© "),
    ProductName,
    Piece(". All rights reserved.\n")
  ]

  /** The HTML part's template, without the page's inline styles and
      indentation: a heading, a button whose target is the link, the link
      again as text, and the notes of the plain part. */
  const HtmlTemplate: seq<Segment> := [
    Piece("\n<!DOCTYPE html>\n<html lang=\"en\">\n<head>\n<title>Email Verification</title>\n</head>\n<body>\n<h1>Welcome to "),
    ProductName,
    Piece("!</h1>\n<h2>Verify Your Email Address</h2>\n<p>Thank you for signing up! To complete your registration and start using "),
    ProductName,
    Piece(", please verify your email address by clicking the button below:</p>\n<a href=\""),
    Link,
    Piece("\">Verify Email Address</a>\n<p>Or copy and paste this link into your browser:</p>\n<p>"),
    Link,
    Piece("</p>\n<p>If you didn't create an account with "),
    ProductName,
    Piece(", you can safely ignore this email.</p>\n<p>© "),
    ProductName,
    Piece(". All rights reserved.</p>\n</body>\n</html>\n")
  ]

  function PlainBody(name: string, url: string): string {
    Fill(PlainTemplate, name, url)
  }

  function HtmlBody(name: string, url: string): string {
    Fill(HtmlTemplate, name, url)
  }

  /** A template with a link slot, filled in, contains the link. */
  lemma {:induction false} FillContainsLink(t: seq<Segment>, k: nat, name: string, url: string)
    requires k < |t| && t[k] == Link
    ensures Contains(Fill(t, name, url), url)
    decreases k
  {
    if k == 0 {
      ContainsMiddle("", url, Fill(t[1..], name, url));
      assert "" + url + Fill(t[1..], name, url) == Fill(t, name, url);
    } else {
      FillContainsLink(t[1..], k - 1, name, url);
      var head := Fill(t, name, url)[..|Fill(t, name, url)| - |Fill(t[1..], name, url)|];
      ContainsAfter(head, Fill(t[1..], name, url), url);
    }
  }

  /** What a string contains, any longer string that ends with it contains
      too. */
  lemma ContainsAfter(before: string, text: string, s: string)
    requires Contains(text, s)
    ensures Contains(before + text, s)
  {
    var i :| 0 <= i <= |text| && OccursAt(text, s, i);
    assert (before + text)[|before| + i..|before| + i + |s|] == text[i..i + |s|];
    assert OccursAt(before + text, s, |before| + i);
  }

  /** Both parts carry the link. */
  lemma BodiesCarryLink(name: string, url: string)
    ensures Contains(PlainBody(name, url), url)
    ensures Contains(HtmlBody(name, url), url)
  {
    assert PlainTemplate[5] == Link;
    FillContainsLink(PlainTemplate, 5, name, url);
    assert HtmlTemplate[5] == Link;
    FillContainsLink(HtmlTemplate, 5, name, url);
  }

  // ---------------------------------------------------------------------
  // The message
  // ---------------------------------------------------------------------

  /** A `MIMEText` part: its subtype and its text. */
  datatype Part = Part(subtype: string, body: string)

  /** A message as it is handed to the server. */
  datatype Message = Message(headers: seq<(string, string)>, parts: seq<Part>)

  /** The value of the first header called `name`, compared in exact
      case. */
  function Header(headers: seq<(string, string)>, name: string): (r: Option<string>)
    ensures r.Some? <==> exists i :: 0 <= i < |headers| && headers[i].0 == name
    ensures r.Some? ==> exists i :: 0 <= i < |headers| && headers[i] == (name, r.value) &&
                                    forall j :: 0 <= j < i ==> headers[j].0 != name
  {
    if headers == [] then None
    else if headers[0].0 == name then Some(headers[0].1)
    else
      var r := Header(headers[1..], name);
      assert r.Some? ==> exists i :: 1 <= i < |headers| && headers[i] == (name, r.value) &&
                                     forall j :: 0 <= j < i ==> headers[j].0 != name by {
        if r.Some? {
          var k :| 0 <= k < |headers[1..]| && headers[1..][k] == (name, r.value) &&
                   forall j :: 0 <= j < k ==> headers[1..][j].0 != name;
          assert headers[k + 1] == (name, r.value);
        }
      }
      r
  }

  /** The headers a new multipart message starts with. */
  function MultipartHeaders(subtype: string): seq<(string, string)> {
    [("Content-Type", "multipart/" + subtype), ("MIME-Version", "1.0")]
  }

  /** A `MIMEMultipart` under construction. */
  class MimeMultipart {
    var headers: seq<(string, string)>
    var parts: seq<Part>

    /** `MIMEMultipart(subtype)`: the content type and MIME version
        headers, and no part. */
    constructor (subtype: string)
      ensures headers == MultipartHeaders(subtype)
      ensures parts == []
    {
      headers := MultipartHeaders(subtype);
      parts := [];
    }

    /** `message[name] = value`: a header is added after the others, even
        when one of that name is already there. */
    method SetHeader(name: string, value: string)
      modifies this
      ensures headers == old(headers) + [(name, value)]
      ensures parts == old(parts)
    {
      headers := headers + [(name, value)];
    }

    /** `message.attach(part)` */
    method Attach(part: Part)
      modifies this
      ensures parts == old(parts) + [part]
      ensures headers == old(headers)
    {
      parts := parts + [part];
    }

    function Snapshot(): Message
      reads this
    {
      Message(headers, parts)
    }
  }

  /** The verification message for `recipient`, sent from the configured
      address, for a product named `name`. */
  function VerificationMessage(cfg: SmtpConfig, recipient: string, name: string, url: string): Message {
    Message(MultipartHeaders("alternative") +
              [("Subject", "Verify your email for " + name), ("From", cfg.fromEmail), ("To", recipient)],
            [Part("plain", PlainBody(name, url)), Part("html", HtmlBody(name, url))])
  }

  /** The message is addressed from the configured sender to the recipient,
      names the product in its subject, and has two parts, plain text then
      HTML, that both carry the link. */
  lemma VerificationMessageSpec(cfg: SmtpConfig, recipient: string, name: string, url: string)
    ensures var m := VerificationMessage(cfg, recipient, name, url);
      Header(m.headers, "Subject") == Some("Verify your email for " + name) &&
      Header(m.headers, "From") == Some(cfg.fromEmail) &&
      Header(m.headers, "To") == Some(recipient) &&
      |m.parts| == 2 && m.parts[0].subtype == "plain" && m.parts[1].subtype == "html" &&
      Contains(m.parts[0].body, url) && Contains(m.parts[1].body, url)
  {
    var h := MultipartHeaders("alternative");
    var extra := [("Subject", "Verify your email for " + name), ("From", cfg.fromEmail), ("To", recipient)];
    HeaderSkips(h, extra, "Subject");
    HeaderSkips(h, extra, "From");
    HeaderSkips(h, extra, "To");
    assert extra[1..] == [("From", cfg.fromEmail), ("To", recipient)];
    assert extra[1..][1..] == [("To", recipient)];
    assert Header(extra[1..][1..], "To") == Some(recipient);
    assert Header(extra[1..], "To") == Some(recipient);
    BodiesCarryLink(name, url);
  }

  /** Headers of other names before those looked up do not matter. */
  lemma {:induction false} HeaderSkips(h: seq<(string, string)>, extra: seq<(string, string)>, name: string)
    requires forall i :: 0 <= i < |h| ==> h[i].0 != name
    ensures Header(h + extra, name) == Header(extra, name)
  {
    if h == [] {
      assert h + extra == extra;
    } else {
      assert (h + extra)[1..] == h[1..] + extra;
      HeaderSkips(h[1..], extra, name);
    }
  }

  /** Building the message as the sender does, header by header and part
      by part. */
  method BuildMessage(cfg: SmtpConfig, recipient: string, name: string, url: string)
    returns (m: MimeMultipart)
    ensures fresh(m)
    ensures m.Snapshot() == VerificationMessage(cfg, recipient, name, url)
  {
    m := new MimeMultipart("alternative");
    m.SetHeader("Subject", "Verify your email for " + name);
    m.SetHeader("From", cfg.fromEmail);
    m.SetHeader("To", recipient);
    m.Attach(Part("plain", PlainBody(name, url)));
    m.Attach(Part("html", HtmlBody(name, url)));
  }

  // ---------------------------------------------------------------------
  // The session
  // ---------------------------------------------------------------------

  /** What the client sends the server. `Quit` is sent when the `with`
      block that holds the connection is left, normally or by an
      exception. */
  datatype Command =
    | Connect(host: string, port: int)
    | StartTls
    | Login(username: string, password: string)
    | SendMessage(message: Message)
    | Quit

  /** The kind of a command, to say which commands a server refuses. */
  datatype Step = ConnectStep | StartTlsStep | LoginStep | SendStep | QuitStep

  function StepOf(c: Command): Step {
    match c
    case Connect(_, _) => ConnectStep
    case StartTls => StartTlsStep
    case Login(_, _) => LoginStep
    case SendMessage(_) => SendStep
    case Quit => QuitStep
  }

  /** The SMTP server as the client sees it: it records every command and
      refuses those of the kinds in `refused`. */
  class Transport {
    var trace: seq<Command>
    const refused: set<Step>

    constructor (refused: set<Step>)
      ensures trace == [] && this.refused == refused
    {
      trace := [];
      this.refused := refused;
    }

    /** Send one command; `ok` is whether the server accepted it. */
    method Perform(c: Command) returns (ok: bool)
      modifies this
      ensures trace == old(trace) + [c]
      ensures ok <==> StepOf(c) !in refused
    {
      trace := trace + [c];
      ok := StepOf(c) !in refused;
    }
  }

  /** The commands the session means to send, in order: connect, upgrade
      to TLS if configured, log in if both credentials are given, send. */
  function Plan(cfg: SmtpConfig, m: Message): seq<Command> {
    [Connect(cfg.host, cfg.port)] + TlsSteps(cfg) + LoginSteps(cfg) + [SendMessage(m)]
  }

  /** The commands of `cmds` a server refusing `refused` sees: all of them
      up to and including the first refused one. */
  function Attempted(cmds: seq<Command>, refused: set<Step>): (r: seq<Command>)
    ensures |r| <= |cmds| && r == cmds[..|r|]
    ensures forall i :: 0 <= i < |r| - 1 ==> StepOf(r[i]) !in refused
    ensures |r| < |cmds| ==> r != [] && StepOf(r[|r| - 1]) in refused
    ensures cmds != [] ==> r != []
  {
    if cmds == [] then []
    else if StepOf(cmds[0]) in refused then [cmds[0]]
    else [cmds[0]] + Attempted(cmds[1..], refused)
  }

  predicate AllAccepted(cmds: seq<Command>, refused: set<Step>) {
    forall c :: c in cmds ==> StepOf(c) !in refused
  }

  /** The exchange with the server and its result: the plan up to its first
      refused command, then `Quit` unless the connection itself was
      refused; the result is true when the plan and the `Quit` all went
      through. */
  function Session(cfg: SmtpConfig, m: Message, refused: set<Step>): (seq<Command>, bool) {
    var done := Attempted(Plan(cfg, m), refused);
    if ConnectStep in refused then (done, false)
    else (done + [Quit], AllAccepted(Plan(cfg, m), refused) && QuitStep !in refused)
  }

  /** The TLS upgrade of the plan: one command when TLS is on, none
      otherwise. */
  function TlsSteps(cfg: SmtpConfig): seq<Command> {
    if cfg.useTls then [StartTls] else []
  }

  /** The login of the plan: one command when both credentials are given,
      none otherwise. */
  function LoginSteps(cfg: SmtpConfig): seq<Command> {
    if cfg.username != "" && cfg.password != "" then [Login(cfg.username, cfg.password)] else []
  }

  /** Running two lists of commands in a row: the second is reached only
      when the first went through. */
  lemma {:induction false} AttemptedAppend(a: seq<Command>, b: seq<Command>, refused: set<Step>)
    ensures Attempted(a + b, refused) ==
              if AllAccepted(a, refused) then a + Attempted(b, refused) else Attempted(a, refused)
  {
    if a == [] {
      assert a + b == b;
    } else {
      assert (a + b)[1..] == a[1..] + b;
      assert a == [a[0]] + a[1..];
      AttemptedAppend(a[1..], b, refused);
    }
  }

  lemma AcceptedAppend(a: seq<Command>, b: seq<Command>, refused: set<Step>)
    ensures AllAccepted(a + b, refused) <==> AllAccepted(a, refused) && AllAccepted(b, refused)
  {
    forall c | c in a + b
      ensures c in a || c in b
    {
    }
  }

  /** `Attempted` over the plan, segment by segment. */
  lemma PlanAttempts(cfg: SmtpConfig, m: Message, refused: set<Step>)
    ensures var c, tls, login, send := [Connect(cfg.host, cfg.port)], TlsSteps(cfg), LoginSteps(cfg), [SendMessage(m)];
      Attempted(Plan(cfg, m), refused) ==
        if ConnectStep in refused then c
        else if !AllAccepted(tls, refused) then c + tls
        else if !AllAccepted(login, refused) then c + tls + login
        else c + tls + login + send
  {
    var c, tls, login, send := [Connect(cfg.host, cfg.port)], TlsSteps(cfg), LoginSteps(cfg), [SendMessage(m)];
    assert Plan(cfg, m) == c + (tls + (login + send));
    AttemptedAppend(c, tls + (login + send), refused);
    AttemptedAppend(tls, login + send, refused);
    AttemptedAppend(login, send, refused);
    assert Attempted(tls, refused) == tls;
    assert Attempted(login, refused) == login;
  }

  /** A refused connection ends the session at once, without `Quit`. */
  lemma ConnectRefused(cfg: SmtpConfig, m: Message, refused: set<Step>)
    requires ConnectStep in refused
    ensures Session(cfg, m, refused) == ([Connect(cfg.host, cfg.port)], false)
  {
    assert Plan(cfg, m)[0] == Connect(cfg.host, cfg.port);
  }

  /** The session of `RunSession` once the server took the connection,
      from the commands it sent and whether they all went through. */
  lemma PlanSteps(cfg: SmtpConfig, m: Message, refused: set<Step>, done: seq<Command>, ok: bool)
    requires ConnectStep !in refused
    requires var c, tls, login, send := [Connect(cfg.host, cfg.port)], TlsSteps(cfg), LoginSteps(cfg), [SendMessage(m)];
      done == if !AllAccepted(tls, refused) then c + tls
              else if !AllAccepted(login, refused) then c + tls + login
              else c + tls + login + send
    requires ok <==> AllAccepted(TlsSteps(cfg), refused) && AllAccepted(LoginSteps(cfg), refused) && SendStep !in refused
    ensures Session(cfg, m, refused) == (done + [Quit], ok && QuitStep !in refused)
  {
    var c, tls, login, send := [Connect(cfg.host, cfg.port)], TlsSteps(cfg), LoginSteps(cfg), [SendMessage(m)];
    PlanAttempts(cfg, m, refused);
    assert AllAccepted(c, refused) && (AllAccepted(send, refused) <==> SendStep !in refused) by {
      assert c[0] in c && send[0] in send;
    }
    assert Plan(cfg, m) == c + tls + login + send;
    AcceptedAppend(c, tls, refused);
    AcceptedAppend(c + tls, login, refused);
    AcceptedAppend(c + tls + login, send, refused);
  }

  /** The SMTP session of `send_verification_email` over a built message:
      connect, upgrade to TLS when configured, log in when both credentials
      are given, send, and close with QUIT. Any refused step ends the session
      and makes the result false. */
  method RunSession(t: Transport, cfg: SmtpConfig, m: Message) returns (sent: bool)
    modifies t
    ensures t.trace == old(t.trace) + Session(cfg, m, t.refused).0
    ensures sent == Session(cfg, m, t.refused).1
  {
    ghost var start := t.trace;
    ghost var c, tls, login, send := [Connect(cfg.host, cfg.port)], TlsSteps(cfg), LoginSteps(cfg), [SendMessage(m)];

    var ok := t.Perform(Connect(cfg.host, cfg.port));
    if !ok {
      ConnectRefused(cfg, m, t.refused);
      return false;
    }
    if cfg.useTls {
      ok := t.Perform(StartTls);
    }
    ghost var done := c + tls;
    assert t.trace == start + done;
    assert ok <==> AllAccepted(tls, t.refused);
    if ok && cfg.username != "" && cfg.password != "" {
      ok := t.Perform(Login(cfg.username, cfg.password));
    }
    if AllAccepted(tls, t.refused) {
      done := done + login;
    }
    assert t.trace == start + done;
    if ok {
      ok := t.Perform(SendMessage(m));
      done := done + send;
    }
    assert t.trace == start + done;
    PlanSteps(cfg, m, t.refused, done, ok);
    var closed := t.Perform(Quit);
    assert t.trace == start + (done + [Quit]);
    sent := ok && closed;
  }

  /** `send_verification_email`, with the product name as a parameter and
      the server as a transport. An incomplete configuration sends nothing
      and fails; otherwise the session runs as `Session` says. */
  method SendVerificationEmail(t: Transport, email: string, token: string, cfg: SmtpConfig,
                               baseUrl: Option<string>, name: string)
    returns (sent: bool)
    modifies t
    ensures !Complete(cfg) ==> !sent && t.trace == old(t.trace)
    ensures Complete(cfg) ==>
      var s := Session(cfg, VerificationMessage(cfg, email, name, VerificationUrl(token, baseUrl)), t.refused);
      t.trace == old(t.trace) + s.0 && sent == s.1
  {
    if cfg.host == "" || cfg.fromEmail == "" {
      return false;
    }
    var url := VerificationUrl(token, baseUrl);
    var builder := BuildMessage(cfg, email, name, url);
    var m := builder.Snapshot();
    sent := RunSession(t, cfg, m);
  }

  // ---------------------------------------------------------------------
  // What the session promises
  // ---------------------------------------------------------------------

  /** The session opens with the connection; once the connection is
      accepted it is closed by exactly one `Quit`, at the end. */
  lemma SessionFrame(cfg: SmtpConfig, m: Message, refused: set<Step>)
    ensures var tr := Session(cfg, m, refused).0;
      tr != [] && tr[0] == Connect(cfg.host, cfg.port) &&
      (ConnectStep in refused <==> tr == [Connect(cfg.host, cfg.port)]) &&
      (ConnectStep !in refused ==> tr[|tr| - 1] == Quit && Quit !in tr[..|tr| - 1])
  {
    PlanAttempts(cfg, m, refused);
    var done := Attempted(Plan(cfg, m), refused);
    assert Quit !in Plan(cfg, m);
    assert Quit !in done;
    if ConnectStep !in refused {
      var tr := done + [Quit];
      assert tr[..|tr| - 1] == done;
    }
  }

  /** `starttls` is sent exactly when TLS is configured and the server
      took the connection. */
  lemma SessionTls(cfg: SmtpConfig, m: Message, refused: set<Step>)
    ensures StartTls in Session(cfg, m, refused).0 <==> cfg.useTls && ConnectStep !in refused
  {
    PlanAttempts(cfg, m, refused);
    var done := Attempted(Plan(cfg, m), refused);
    assert Session(cfg, m, refused).0 == done || Session(cfg, m, refused).0 == done + [Quit];
  }

  /** `starttls` always comes before any login. */
  lemma SessionTlsBeforeLogin(cfg: SmtpConfig, m: Message, refused: set<Step>)
    ensures var tr := Session(cfg, m, refused).0;
      forall i, j :: 0 <= i < |tr| && 0 <= j < |tr| && tr[i] == StartTls && tr[j].Login? ==> i < j
  {
    var plan := Plan(cfg, m);
    var done := Attempted(plan, refused);
    var tr := Session(cfg, m, refused).0;
    assert tr == done || tr == done + [Quit];
    forall i, j | 0 <= i < |tr| && 0 <= j < |tr| && tr[i] == StartTls && tr[j].Login?
      ensures i < j
    {
      assert i < |done| && j < |done|;
      assert plan[i] == StartTls && plan[j].Login?;
      assert i == 1 && j == |TlsSteps(cfg)| + 1;
    }
  }

  /** `login` is sent only with the configured credentials and only when both
      are non-empty; it is sent whenever both are non-empty and the
      connection and the TLS upgrade went through. */
  lemma SessionLogin(cfg: SmtpConfig, m: Message, refused: set<Step>)
    ensures var tr := Session(cfg, m, refused).0;
      (forall c :: c in tr && c.Login? ==>
         c == Login(cfg.username, cfg.password) && cfg.username != "" && cfg.password != "") &&
      ((ConnectStep !in refused && (!cfg.useTls || StartTlsStep !in refused) &&
        cfg.username != "" && cfg.password != "") ==> Login(cfg.username, cfg.password) in tr)
  {
    PlanAttempts(cfg, m, refused);
    var plan := Plan(cfg, m);
    var done := Attempted(plan, refused);
    var tr := Session(cfg, m, refused).0;
    assert tr == done || tr == done + [Quit];
    forall c | c in tr && c.Login?
      ensures c == Login(cfg.username, cfg.password) && cfg.username != "" && cfg.password != ""
    {
      assert c in plan;
    }
  }

  /** `send_message` is the last command of the plan: when it is sent, only
      `Quit` follows, and it is sent exactly when everything before it was
      accepted. */
  lemma SessionSendLast(cfg: SmtpConfig, m: Message, refused: set<Step>)
    ensures var tr := Session(cfg, m, refused).0;
      (forall i :: 0 <= i < |tr| && tr[i].SendMessage? ==>
         tr[i] == SendMessage(m) && i == |tr| - 2 && tr[i + 1] == Quit) &&
      (SendMessage(m) in tr <==>
         ConnectStep !in refused && AllAccepted(TlsSteps(cfg) + LoginSteps(cfg), refused))
  {
    PlanAttempts(cfg, m, refused);
    var plan := Plan(cfg, m);
    var done := Attempted(plan, refused);
    var tr := Session(cfg, m, refused).0;
    assert tr == done || tr == done + [Quit];
    forall i | 0 <= i < |tr| && tr[i].SendMessage?
      ensures tr[i] == SendMessage(m) && i == |tr| - 2 && tr[i + 1] == Quit
    {
      assert i < |done| && plan[i] == tr[i];
    }
  }

  /** The result is true exactly when the server accepted every command of
      the session, and then the whole plan was sent and closed by `Quit`:
      every kind of failure collapses to false. */
  lemma SessionResult(cfg: SmtpConfig, m: Message, refused: set<Step>)
    ensures var s := Session(cfg, m, refused);
      (s.1 <==> AllAccepted(s.0, refused)) &&
      (s.1 ==> s.0 == Plan(cfg, m) + [Quit])
  {
    var plan := Plan(cfg, m);
    var done := Attempted(plan, refused);
    if |done| < |plan| {
      // the plan was cut short at a refused command, which both lists hold
      assert done[|done| - 1] == plan[|done| - 1];
      assert !AllAccepted(done, refused) && !AllAccepted(plan, refused);
    } else {
      assert done == plan;
    }
    if ConnectStep in refused {
      assert done[0] == plan[0] && done[0] in done;
    } else {
      AcceptedAppend(done, [Quit], refused);
      assert Quit in [Quit];
    }
  }

  /** `send_password_reset_email`: a stub that sends nothing and returns
      no value. */
  method SendPasswordResetEmail(t: Transport, email: string, token: string, cfg: SmtpConfig,
                                baseUrl: Option<string>)
    returns (r: Option<bool>)
    ensures r == None
  {
    r := None;
  }
}
