/** The entry point (src/index.ts) together with the configuration check that
    runs when the service module is first imported. The environment, the
    customer record and the result of the one transport call are inputs; the
    process exit status and the events written along the way are the output. */
module Entry {
  import opened Wrappers
  import opened Domain
  import opened Dtos
  import opened Infrastructure
  import opened Services

  /** The customer record as loaded from the JSON file. */
  datatype CustomerRecord = CustomerRecord(name: Field, email: Field, orderId: Field)

  /** Everything the program writes or does that the model observes. */
  datatype AppEvent =
    | ConfigMissing(key: string)
    | Mail(event: Event)
    | SendSkipped
    | ApplicationError(message: string)

  /** How the process ends: 0 when it runs to completion, 1 on `process.exit(1)`. */
  datatype Exit = Exit(status: nat, trace: seq<AppEvent>)

  /** The events of the mail service as they appear in the program's trace. */
  function Lift(t: seq<Event>): (r: seq<AppEvent>)
    ensures |r| == |t|
    ensures forall i :: 0 <= i < |t| ==> r[i] == Mail(t[i])
  {
    seq(|t|, i requires 0 <= i < |t| => Mail(t[i]))
  }

  /** The events of the mail service inside a program trace, in order. */
  function MailEvents(trace: seq<AppEvent>): seq<Event>
  {
    if |trace| == 0 then []
    else (if trace[0].Mail? then [trace[0].event] else []) + MailEvents(trace[1..])
  }

  /** The messages the program handed to the transport, in order. */
  function SentMessages(trace: seq<AppEvent>): seq<MailOptions>
  {
    Attempts(MailEvents(trace))
  }

  /** Lifting a service trace and picking its service events out again gives it back. */
  lemma {:induction false} MailEventsOfLift(t: seq<Event>)
    ensures MailEvents(Lift(t)) == t
  {
    if |t| > 0 {
      assert Lift(t)[1..] == Lift(t[1..]);
      MailEventsOfLift(t[1..]);
      assert t == [t[0]] + t[1..];
    }
  }

  /** Service events of a concatenated trace are those of each part. */
  lemma {:induction false} MailEventsAppend(a: seq<AppEvent>, b: seq<AppEvent>)
    ensures MailEvents(a + b) == MailEvents(a) + MailEvents(b)
  {
    if |a| > 0 {
      assert (a + b)[1..] == a[1..] + b;
      assert (a + b)[0] == a[0];
      MailEventsAppend(a[1..], b);
    } else {
      assert a + b == b;
    }
  }

  /** A single event that is not a service event carries no service events
      and hands nothing to the transport. */
  lemma NothingSentBy(e: AppEvent)
    requires !e.Mail?
    ensures MailEvents([e]) == []
    ensures SentMessages([e]) == []
  {
    assert [e][1..] == [];
    assert MailEvents([e]) == [] + MailEvents([]);
  }

  /** The program with its `send_email` flag as a parameter: configuration
      check at import, then customer, payload, service and the send, with any
      thrown error caught, reported and turned into exit status 1. */
  function Program(env: Env, record: CustomerRecord, result: TransportResult, sendEmail: bool): (r: Exit)
    ensures r.status == 0 || r.status == 1
    ensures r.status == 0 <==>
      LoadConfig(env).Success? && NewCustomer(record.name, record.email, record.orderId).Success?
      && (sendEmail ==> result.Delivered?)
    ensures SentMessages(r.trace) ==
      if LoadConfig(env).Success? && NewCustomer(record.name, record.email, record.orderId).Success? && sendEmail
      then [ComposeMailOptions(LoadConfig(env).value, FromCustomer(NewCustomer(record.name, record.email, record.orderId).value))]
      else []
  {
    match LoadConfig(env)
    case Failure(MissingEnvironmentVariable(key)) =>
      NothingSentBy(ConfigMissing(key));
      Exit(1, [ConfigMissing(key)])
    case Success(cfg) =>
      match NewCustomer(record.name, record.email, record.orderId)
      case Failure(e) =>
        NothingSentBy(ApplicationError(e.message));
        Exit(1, [ApplicationError(e.message)])
      case Success(customer) =>
        var emailData := FromCustomer(customer);
        var service := NewEmailService(cfg);
        if sendEmail then
          var sent := Send(service, emailData, result);
          MailEventsOfLift(sent.trace);
          match sent.outcome
          case Pass => Exit(0, Lift(sent.trace))
          case Fail(error) =>
            MailEventsAppend(Lift(sent.trace), [ApplicationError(error.message)]);
            NothingSentBy(ApplicationError(error.message));
            assert sent.trace + [] == sent.trace;
            Exit(1, Lift(sent.trace) + [ApplicationError(error.message)])
        else
          NothingSentBy(SendSkipped);
          Exit(0, [SendSkipped])
  }

  /** The flag as the source fixes it. */
  const SendEmail: bool := true

  /** The program as shipped: it exits 0 exactly when configuration and
      customer are valid and the transport delivered, and the one message it
      hands over is the composed one, sent only when both checks pass. */
  function Run(env: Env, record: CustomerRecord, result: TransportResult): (r: Exit)
    ensures r.status == 0 <==>
      LoadConfig(env).Success? && NewCustomer(record.name, record.email, record.orderId).Success? && result.Delivered?
    ensures SentMessages(r.trace) ==
      if LoadConfig(env).Success? && NewCustomer(record.name, record.email, record.orderId).Success?
      then [ComposeMailOptions(LoadConfig(env).value, FromCustomer(NewCustomer(record.name, record.email, record.orderId).value))]
      else []
  {
    Program(env, record, result, SendEmail)
  }

  /** A missing environment variable ends the program before the customer
      record is looked at: the outcome does not depend on the record or on
      the transport, and only the first missing variable is reported. */
  lemma ConfigCheckedFirst(env: Env, r1: CustomerRecord, t1: TransportResult, r2: CustomerRecord, t2: TransportResult)
    requires LoadConfig(env).Failure?
    ensures Run(env, r1, t1) == Run(env, r2, t2)
    ensures Run(env, r1, t1) == Exit(1, [ConfigMissing(LoadConfig(env).error.key)])
    ensures FirstMissing(env, RequiredEnvVars) == Some(LoadConfig(env).error.key)
  {
  }

  /** An invalid customer record is never sent: the program exits with 1
      after reporting the constructor's message, and nothing reaches the transport. */
  lemma InvalidCustomerNeverSent(env: Env, record: CustomerRecord, result: TransportResult)
    requires LoadConfig(env).Success?
    requires !(Truthy(record.name) && Truthy(record.email) && Truthy(record.orderId))
    ensures SentMessages(Run(env, record, result).trace) == []
    ensures Run(env, record, result) == Exit(1, [ApplicationError(MissingFieldMessage)])
  {
  }

  /** A valid record under a valid configuration is sent exactly once, and
      the payload handed over is the one derived from that customer. */
  lemma ValidRecordSentOnce(env: Env, record: CustomerRecord, result: TransportResult)
    requires LoadConfig(env).Success?
    requires Truthy(record.name) && Truthy(record.email) && Truthy(record.orderId)
    ensures var sent := SentMessages(Run(env, record, result).trace);
      && |sent| == 1
      && PayloadOf(sent[0]) == FromCustomer(Customer(record.name.s, record.email.s, record.orderId.s))
      && sent[0].bcc == LoadConfig(env).value.afsEmail
  {
    var c := Customer(record.name.s, record.email.s, record.orderId.s);
    PayloadVerbatim(LoadConfig(env).value, FromCustomer(c));
  }

  /** Every error ends in exit status 1 and a clean send in 0; a transport
      error is reported with its own message as the last event. */
  lemma ExitStatus(env: Env, record: CustomerRecord, result: TransportResult)
    ensures Run(env, record, result).status == 0 <==>
      LoadConfig(env).Success? && NewCustomer(record.name, record.email, record.orderId).Success? && result.Delivered?
    ensures Run(env, record, result).status != 0 ==> Run(env, record, result).status == 1
    ensures LoadConfig(env).Success? && NewCustomer(record.name, record.email, record.orderId).Success? && result.Rejected? ==>
      var t := Run(env, record, result).trace;
      |t| > 0 && t[|t| - 1] == ApplicationError(result.error.message)
  {
  }

  /** With the flag switched off a valid record is not sent and the program
      ends normally. */
  lemma DisabledFlagSendsNothing(env: Env, record: CustomerRecord, result: TransportResult)
    requires LoadConfig(env).Success? && NewCustomer(record.name, record.email, record.orderId).Success?
    ensures Program(env, record, result, false) == Exit(0, [SendSkipped])
  {
  }
}
