# Trustpilot review-invitation sender, modelled in Dafny

The program sends one transactional email per run. It reads a customer record
(name, email, order id) and validates it. From the record it derives a
recipient header, a subject and a plain-text body in a fixed layout. The mail
goes out over SMTP with a blind copy to Trustpilot's Automatic Feedback
Service (AFS), which parses that body. Before anything else, the required
environment variables are checked at import time. Any error ends the process
with exit status 1.

The model is functional. Values are immutable datatypes, and every step is a
pure function:

- `Domain` (`customer.dfy`): the `Customer` value object and its truthiness check.
- `Dtos` (`email_data.dfy`): the `EmailData` payload. Each formatted string is
  paired with a reader that parses it back: the subject's order reference,
  the "name <address>" recipient, and the three body lines.
- `Infrastructure` (`config.dfy`): the required-variable list,
  the first-missing-key loop, and the mapping of variables to configuration
  fields. The environment is an explicit `map<string, string>`.
- `Services` (`email_service.dfy`): transport settings, message composition,
  and `send`. `send` is a function of the transport call's result
  (`Delivered(response)` or `Rejected(error)`). It returns the outcome and a
  trace of events: body logged, BCC logged, the attempt, then success or failure.
- `Entry` (`entry.dfy`): the whole run. Its inputs are the environment, the
  customer record and the transport result. It returns the exit status and
  the trace.
- `Text` and `Wrappers`: string helpers (line splitting, mailbox splitting,
  prefix stripping) and the `Option`/`Result`/`Outcome` types.

The body keeps the template literal's layout exactly. The second and third
lines start with `Dtos.Indent`, the sixteen spaces that follow each line
break in the template.

Three behaviours of the code worth noting:

- The `from` header puts the sender's display name in double quotes.
- `send` resolves with no value. The server response only appears in the
  success diagnostic.
- A missing environment variable ends the process inside `config.ts`. This
  happens at import time, so it comes before customer validation.

## Model

| member | source | states |
|---|---|---|
| Domain.NewCustomer | src/domain/Customer.ts:24-32 | construction succeeds iff name, email and orderId are all present and non-empty; a success stores exactly the input strings and is a valid customer; every failure is the one fixed validation error |
| Domain.NewCustomerOfFields | src/domain/Customer.ts:29-31 | rebuilding a customer from its own fields returns that same customer exactly when all fields are non-empty: no trimming, casing or normalisation |
| Domain.RejectionIsUniform | src/domain/Customer.ts:26 | any two rejected records fail with the identical error, whichever field was missing |
| Domain.AcceptsAnyNonEmptyText | src/domain/Customer.ts:25 | any non-empty strings are accepted as they are, including whitespace-only text and an email with no address syntax |
| Dtos.FromCustomer | src/dtos/EmailData.ts:15-26 | the payload constructor; it has no contract of its own, and what it derives is stated by its partner lemmas: the subject reads back to the order id (`Dtos.SubjectRoundTrip`), the `to` header is the "name <email>" mailbox and splits back into name and email whenever the email has no '<' (`Dtos.RecipientRoundTrip`), the body always starts with the Email line (`Dtos.BodyStartsWithEmail`), and for fields without line feeds the body is the three template lines (`Dtos.BodyLines`) that read back to the fields (`Dtos.BodyRoundTrip`) |
| Dtos.IndentIsSixteenSpaces | src/dtos/EmailData.ts:24-25 | the continuation-line indentation of the body is exactly sixteen spaces |
| Dtos.SubjectRoundTrip | src/dtos/EmailData.ts:20 | removing the fixed prefix "Your Purchase Experience - ORDER#" from the subject gives back exactly the order id |
| Dtos.SubjectReference | src/dtos/EmailData.ts:20 | a subject is read back only when it starts with the fixed prefix, and it then equals the prefix followed by the reference read |
| Dtos.RecipientRoundTrip | src/dtos/EmailData.ts:17 | the `to` header is always the mailbox "name <email>" of the unmodified name and email; splitting it at its last '<' gives both back whenever the email has no '<' |
| Dtos.BodyLines | src/dtos/EmailData.ts:23-25 | for single-line fields the body has exactly three lines, in order: "Email: " + email, then indent + "Name: " + name, then indent + "Reference: " + orderId |
| Dtos.BodyStartsWithEmail | src/dtos/EmailData.ts:23 | the body always starts with "Email: " followed by the email |
| Dtos.ParseBody | src/dtos/EmailData.ts:23-25 | any text the body reader accepts is exactly the template layout of the three single-line values it returns |
| Dtos.BodyRoundTrip | src/dtos/EmailData.ts:23-25 | reading the body back yields exactly (email, name, orderId) when no field contains a line feed |
| Dtos.PayloadDeterminesCustomer | src/dtos/EmailData.ts:15-26 | for single-line customers, two payloads are equal iff their customers are equal: derivation is deterministic and loses nothing |
| Dtos.LineFeedInNameBreaksLayout | src/dtos/EmailData.ts:23-25 | a line feed inside the name gives a four-line body, which no longer reads back |
| Infrastructure.FirstMissing | src/infrastructure/config.ts:23-28 | the validation loop reports nothing iff every key is set; otherwise it reports the first unset key in list order, and every earlier key is set |
| Infrastructure.LoadConfig | src/infrastructure/config.ts:23-54 | loading succeeds iff all seven required variables are present and non-empty; a failure names the first missing one; on success each field equals its own variable's value verbatim |
| Infrastructure.LoadConfigOfEnv | src/infrastructure/config.ts:33-54 | loading the environment of a complete configuration returns that configuration, whatever other variables are present |
| Infrastructure.RequiredKeysAreSeven | src/infrastructure/config.ts:9-17 | the required list holds seven distinct names |
| Services.NewEmailService | src/services/EmailService.ts:13-24 | the transport uses the configured host, port, user and password, with `secure` false (unencrypted start, STARTTLS left to the server) |
| Services.TransportFromEnvironment | src/services/EmailService.ts:15-22 | for any environment that loads, the transport connects to SMTP_HOST on SMTP_PORT and authenticates as SMTP_USER with SMTP_PASSWORD, never in `secure` mode |
| Services.ComposeMailOptions | src/services/EmailService.ts:34-40 | the message handed to the transport always has bcc set to the configured AFS address; its partners state the other fields: `Services.PayloadVerbatim` that to, subject and text are the payload, and `Services.FromHeaderIsQuotedMailbox` that from is always the mailbox of the quoted sender name and the sender address, and that it reads back into those parts whenever that address has no '<' |
| Services.PayloadVerbatim | src/services/EmailService.ts:34-40 | to, subject and text of the composed message read back as exactly the payload |
| Services.BccIndependentOfPayload | src/services/EmailService.ts:35-37 | bcc is always the configured AFS address and from never depends on the payload; two composed messages are equal iff their payloads are |
| Services.FromHeaderIsQuotedMailbox | src/services/EmailService.ts:35 | for every configuration and payload, the from of the composed message is the mailbox whose display part is the sender name in double quotes and whose address is the sender address; whenever that address has no '<', the header splits back into exactly those two parts |
| Services.Send | src/services/EmailService.ts:33-54 | exactly one message goes to the transport, the composed one, with no retry; the outcome passes iff the transport delivered; a rejection is rethrown with the same error; the success event appears iff delivered, the failure event iff rejected |
| Services.SendTraceOrder | src/services/EmailService.ts:42-53 | the body and BCC diagnostics come before the transport call, and the only event after it reports its result |
| Entry.Program | src/index.ts:12-38 | exit status is 0 or 1; it is 0 iff configuration and customer are valid and, when sending is enabled, the transport delivered; the messages sent are exactly one, composed from the configuration and the derived payload, when all checks pass and sending is enabled, and none otherwise |
| Entry.Run | src/index.ts:12-38 | the shipped program, with `send_email` true: it exits 0 iff configuration and customer are valid and the transport delivered; exactly one message, composed from the configuration and the derived payload, reaches the transport when configuration and customer are valid, and none otherwise |
| Entry.ConfigCheckedFirst | src/infrastructure/config.ts:23-28 | a missing variable ends the run with status 1 and one report naming the first missing key; the result does not depend on the customer record or the transport |
| Entry.InvalidCustomerNeverSent | src/index.ts:13-36 | an invalid customer record is never sent: the run reports the constructor's message and exits with 1 |
| Entry.ValidRecordSentOnce | src/index.ts:15-28 | a valid record under a valid configuration is sent exactly once; its payload is the one derived from that customer, with bcc set to the AFS address |
| Entry.ExitStatus | src/index.ts:33-37 | its status clauses repeat `Entry.Run`'s contract (exit 0 iff configuration, customer and delivery all succeed, 1 otherwise); what it adds is that after a transport rejection the last event reports the transport error's own message |
| Entry.DisabledFlagSendsNothing | src/index.ts:24-31 | with the `send_email` flag off, a valid record is not sent and the run ends with status 0 |

## Left out

- The SMTP conversation and nodemailer's internals (RFC 5321, RFC 3207 STARTTLS). They are foreign library code. The single `sendMail` call is an input `TransportResult`.
- `dotenv.config()` and reading `process.env`. The environment is an input map.
- `parseInt(SMTP_PORT, 10)` in `config.ts`. The port is carried as the raw `SMTP_PORT` text, and the decimal conversion (including its `NaN` case) is not modelled.
- Loading `customer.json`. The record is an input. Each field is either missing (`undefined`/`null`) or a string. JSON numbers, booleans and other non-string values are not modelled.
- The wording of `console.log` and `console.error` output. Diagnostics are abstract trace events. The section-header log line before the body is folded into the body event.
- `process.exit` becomes the returned status. `async`/`await` scheduling is not modelled: the run is sequential, with one awaited call.
- Email address syntax (RFC 5322 section 3.4). The code never checks it.
- Readonly fields and deterministic derivation hold by construction. Datatypes are immutable and functions are deterministic, so no lemma states either one alone. `Dtos.PayloadDeterminesCustomer` states the stronger two-way form.
- Dtos.BodyLines: the three-line shape is proved only for fields without line feeds. The code does not prevent line feeds, and `Dtos.LineFeedInNameBreaksLayout` shows what happens when one is present.
- Dtos.RecipientRoundTrip: the header's shape is stated for every email, but reading it back is proved only for emails without '<'. With a '<' in the address, splitting at the last '<' no longer recovers the parts.
- Services.ComposeMailOptions: its from header is stated for every sender address, through `Services.FromHeaderIsQuotedMailbox`. Reading it back into name and address is proved only for addresses without '<'.
- Services.FromHeaderIsQuotedMailbox: the header's shape is stated for every sender address, but reading it back is proved only for addresses without '<', for the same reason as `Dtos.RecipientRoundTrip`.
