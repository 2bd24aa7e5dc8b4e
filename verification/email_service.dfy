/** The mail service (src/services/EmailService.ts): transport settings built
    from the configuration, the outbound message composed from the
    configuration and a payload, and one send attempt whose result is supplied
    from outside. Console output becomes a trace of events. */
module Services {
  import opened Wrappers
  import opened Text
  import opened Dtos
  import opened Infrastructure

  /** The options the SMTP transport is created with. */
  datatype TransportSettings = TransportSettings(
    host: string,
    port: string,
    secure: bool,
    user: string,
    pass: string)

  /** A constructed service: the configuration it reads and its transport. */
  datatype EmailService = EmailService(config: Config, transport: TransportSettings)

  /** The `EmailService` constructor. The connection starts unencrypted
      (`secure` is false) and credentials and server come from the configuration. */
  function NewEmailService(cfg: Config): (s: EmailService)
    ensures s.config == cfg
    ensures !s.transport.secure
    ensures (s.transport.host, s.transport.port) == (cfg.smtpHost, cfg.smtpPort)
    ensures (s.transport.user, s.transport.pass) == (cfg.smtpUser, cfg.smtpPassword)
  {
    EmailService(cfg, TransportSettings(cfg.smtpHost, cfg.smtpPort, false, cfg.smtpUser, cfg.smtpPassword))
  }

  /** Traced back to the environment, the transport talks to SMTP_HOST on
      SMTP_PORT as SMTP_USER with SMTP_PASSWORD, never in `secure` mode. */
  lemma TransportFromEnvironment(env: Env)
    requires LoadConfig(env).Success?
    ensures "SMTP_HOST" in env && "SMTP_PORT" in env && "SMTP_USER" in env && "SMTP_PASSWORD" in env
    ensures NewEmailService(LoadConfig(env).value).transport ==
      TransportSettings(env["SMTP_HOST"], env["SMTP_PORT"], false, env["SMTP_USER"], env["SMTP_PASSWORD"])
  {
    var cfg := LoadConfig(env).value;
    assert EnvOf(cfg)["SMTP_HOST"] == cfg.smtpHost;
    assert EnvOf(cfg)["SMTP_PORT"] == cfg.smtpPort;
    assert EnvOf(cfg)["SMTP_USER"] == cfg.smtpUser;
    assert EnvOf(cfg)["SMTP_PASSWORD"] == cfg.smtpPassword;
  }

  /** The outbound message. */
  datatype MailOptions = MailOptions(from: string, to: string, bcc: string, subject: string, text: string)

  /** The `from` header: the sender name in double quotes, then the address. */
  function FromHeader(senderName: string, senderEmail: string): string
  {
    "\"" + senderName + "\" <" + senderEmail + ">"
  }

  /** The message `send` hands to the transport. */
  function ComposeMailOptions(cfg: Config, email: EmailData): (m: MailOptions)
    ensures m.bcc == cfg.afsEmail
  {
    MailOptions(
      FromHeader(cfg.senderName, cfg.senderEmail),
      email.to,
      cfg.afsEmail,
      email.subject,
      email.text)
  }

  /** The payload a message carries. */
  function PayloadOf(m: MailOptions): EmailData
  {
    EmailData(m.to, m.subject, m.text)
  }

  /** The payload travels verbatim: reading it back from the composed
      message gives exactly the payload. */
  lemma PayloadVerbatim(cfg: Config, email: EmailData)
    ensures PayloadOf(ComposeMailOptions(cfg, email)) == email
  {
  }

  /** The blind copy goes to the configured review address whatever the
      payload is, and only the payload fields depend on the payload. */
  lemma BccIndependentOfPayload(cfg: Config, e1: EmailData, e2: EmailData)
    ensures ComposeMailOptions(cfg, e1).bcc == ComposeMailOptions(cfg, e2).bcc == cfg.afsEmail
    ensures ComposeMailOptions(cfg, e1).from == ComposeMailOptions(cfg, e2).from
    ensures e1 == e2 <==> ComposeMailOptions(cfg, e1) == ComposeMailOptions(cfg, e2)
  {
    PayloadVerbatim(cfg, e1);
    PayloadVerbatim(cfg, e2);
  }

  /** The `from` of every composed message is the mailbox whose display part
      is the quoted sender name and whose address is the sender address; it
      splits back into both parts when that address has no '<'. */
  lemma FromHeaderIsQuotedMailbox(cfg: Config, email: EmailData)
    ensures ComposeMailOptions(cfg, email).from == Mailbox("\"" + cfg.senderName + "\"", cfg.senderEmail)
    ensures '<' !in cfg.senderEmail ==>
      SplitMailbox(ComposeMailOptions(cfg, email).from) == Some(("\"" + cfg.senderName + "\"", cfg.senderEmail))
  {
    assert ComposeMailOptions(cfg, email).from == Mailbox("\"" + cfg.senderName + "\"", cfg.senderEmail);
    if '<' !in cfg.senderEmail {
      SplitMailboxOfMailbox("\"" + cfg.senderName + "\"", cfg.senderEmail);
    }
  }

  /** The error a failed transport call rejects with; only its message is read. */
  datatype TransportError = TransportError(message: string)

  /** What the one `sendMail` call yields: the server's response text, or an error. */
  datatype TransportResult = Delivered(response: string) | Rejected(error: TransportError)

  /** Diagnostics `send` writes, and the transport call itself. */
  datatype Event =
    | BodyLogged(text: string)
    | BccLogged(bcc: string)
    | SendAttempted(options: MailOptions)
    | SendSucceeded(response: string)
    | SendFailed(message: string)

  /** What a call of `send` leaves behind: how it settled and the events. */
  datatype SendResult = SendResult(outcome: Outcome<TransportError>, trace: seq<Event>)

  /** The messages handed to the transport, in order. */
  function Attempts(trace: seq<Event>): seq<MailOptions>
  {
    if |trace| == 0 then []
    else (if trace[0].SendAttempted? then [trace[0].options] else []) + Attempts(trace[1..])
  }

  /** Attempts of a concatenated trace are the attempts of each part. */
  lemma {:induction false} AttemptsAppend(a: seq<Event>, b: seq<Event>)
    ensures Attempts(a + b) == Attempts(a) + Attempts(b)
  {
    if |a| > 0 {
      assert (a + b)[1..] == a[1..] + b;
      AttemptsAppend(a[1..], b);
      var head: seq<MailOptions> := if a[0].SendAttempted? then [a[0].options] else [];
      assert Attempts(a) == head + Attempts(a[1..]);
      assert (a + b)[0] == a[0];
      assert Attempts(a + b) == head + (Attempts(a[1..]) + Attempts(b));
      assert head + (Attempts(a[1..]) + Attempts(b)) == (head + Attempts(a[1..])) + Attempts(b);
    } else {
      assert a + b == b;
    }
  }

  /** Whether the trace holds a success diagnostic. */
  predicate Succeeded(trace: seq<Event>)
  {
    exists i :: 0 <= i < |trace| && trace[i].SendSucceeded?
  }

  /** Whether the trace holds a failure diagnostic. */
  predicate Failed(trace: seq<Event>)
  {
    exists i :: 0 <= i < |trace| && trace[i].SendFailed?
  }

  /** `send`: compose the message, log the body and the BCC address, make the
      one transport call, then log its result; a rejection is rethrown as it came. */
  function Send(svc: EmailService, email: EmailData, result: TransportResult): (r: SendResult)
    ensures Attempts(r.trace) == [ComposeMailOptions(svc.config, email)]
    ensures r.outcome.Pass? <==> result.Delivered?
    ensures result.Rejected? ==> r.outcome == Fail(result.error)
    ensures Succeeded(r.trace) <==> result.Delivered?
    ensures Failed(r.trace) <==> result.Rejected?
  {
    var options := ComposeMailOptions(svc.config, email);
    var before := [BodyLogged(email.text), BccLogged(svc.config.afsEmail), SendAttempted(options)];
    assert Attempts(before[1..]) == [options] by {
      assert before[1..][1..] == [SendAttempted(options)];
      assert [SendAttempted(options)][1..] == [];
      assert Attempts([SendAttempted(options)]) == [options] + Attempts([]);
    }
    match result
    case Delivered(response) =>
      AttemptsAppend(before, [SendSucceeded(response)]);
      assert (before + [SendSucceeded(response)])[3].SendSucceeded?;
      SendResult(Pass, before + [SendSucceeded(response)])
    case Rejected(error) =>
      AttemptsAppend(before, [SendFailed(error.message)]);
      assert (before + [SendFailed(error.message)])[3].SendFailed?;
      SendResult(Fail(error), before + [SendFailed(error.message)])
  }

  /** The diagnostics of the body and of the BCC address come before the
      transport call, and the only event after it reports its result. */
  lemma SendTraceOrder(svc: EmailService, email: EmailData, result: TransportResult)
    ensures var t := Send(svc, email, result).trace;
      |t| == 4 && t[0] == BodyLogged(email.text) && t[1] == BccLogged(svc.config.afsEmail)
      && t[2].SendAttempted? && (t[3].SendSucceeded? || t[3].SendFailed?)
  {
  }
}
