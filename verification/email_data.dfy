/** The email payload (src/dtos/EmailData.ts): recipient header, subject and
    plain-text body derived from a customer. The strings are an exact-format
    contract with the review service that parses the blind copy, so each one
    is paired here with the parser that reads it back. */
module Dtos {
  import opened Wrappers
  import opened Text
  import opened Domain

  /** The fixed text before the order reference in the subject line. */
  const SubjectPrefix: string := "Your Purchase Experience - ORDER#"

  /** The leading whitespace of the second and third body lines: the sixteen
      spaces the template literal carries after each of its line breaks. */
  const Indent: string := "                "

  const EmailLabel: string := "Email: "
  const NameLabel: string := "Name: "
  const ReferenceLabel: string := "Reference: "

  /** The derived payload. */
  datatype EmailData = EmailData(to: string, subject: string, text: string)

  /** The body text exactly as the template literal lays it out. */
  function Body(email: string, name: string, orderId: string): string
  {
    EmailLabel + email + "\n" + Indent + NameLabel + name + "\n" + Indent + ReferenceLabel + orderId
  }

  /** The `EmailData` constructor: the recipient is the customer's mailbox,
      the subject carries the order reference, the body follows the template. */
  function FromCustomer(c: Customer): EmailData
  {
    EmailData(Mailbox(c.name, c.email), SubjectPrefix + c.orderId, Body(c.email, c.name, c.orderId))
  }

  /** The indentation is sixteen space characters and nothing else. */
  lemma IndentIsSixteenSpaces()
    ensures |Indent| == 16
    ensures forall i :: 0 <= i < |Indent| ==> Indent[i] == ' '
  {
  }

  /** The order reference a reader takes from a subject line. */
  function SubjectReference(subject: string): (r: Option<string>)
    ensures r.Some? <==> |SubjectPrefix| <= |subject| && subject[..|SubjectPrefix|] == SubjectPrefix
    ensures r.Some? ==> subject == SubjectPrefix + r.value
  {
    StripPrefix(subject, SubjectPrefix)
  }

  /** The (email, name, reference) triple a reader takes from a body: exactly
      three lines, each starting with its label in the fixed order. */
  function ParseBody(text: string): (r: Option<(string, string, string)>)
    ensures r.Some? ==> text == Body(r.value.0, r.value.1, r.value.2)
    ensures r.Some? ==> '\n' !in r.value.0 && '\n' !in r.value.1 && '\n' !in r.value.2
  {
    var ls := Lines(text);
    if |ls| != 3 then None
    else
      match (StripPrefix(ls[0], EmailLabel), StripPrefix(ls[1], Indent + NameLabel), StripPrefix(ls[2], Indent + ReferenceLabel))
      case (Some(e), Some(n), Some(o)) =>
        JoinOfLines(text);
        LinesAreSingleLine(text);
        assert ls == [EmailLabel + e, Indent + NameLabel + n, Indent + ReferenceLabel + o];
        BodyIsJoinedLines(e, n, o);
        Some((e, n, o))
      case _ => None
  }

  /** The body is the Email, Name and Reference lines joined by line feeds. */
  lemma BodyIsJoinedLines(email: string, name: string, orderId: string)
    ensures Body(email, name, orderId) ==
      JoinLines([EmailLabel + email, Indent + NameLabel + name, Indent + ReferenceLabel + orderId])
  {
    JoinThree(EmailLabel + email, Indent + NameLabel + name, Indent + ReferenceLabel + orderId);
    RegroupBody(EmailLabel, email, Indent + NameLabel, name, Indent + ReferenceLabel, orderId);
  }

  // RegroupBody, RegroupHead and RegroupName, like Text.Regroup, hold by
  // associativity of concatenation alone. Each proof that needs one particular
  // grouping of the body gets it from a call, so the verifier never has to
  // search among the many regroupings of a seven-part concatenation itself.

  /** Regrouping of the concatenations the body is built from. */
  lemma RegroupBody(l1: string, v1: string, l2: string, v2: string, l3: string, v3: string)
    ensures l1 + v1 + "\n" + l2 + v2 + "\n" + l3 + v3 == (l1 + v1) + "\n" + (l2 + v2) + "\n" + (l3 + v3)
  {
  }

  /** The body split after its first label and value. */
  lemma RegroupHead(l1: string, v1: string, l2: string, v2: string, l3: string, v3: string)
    ensures l1 + v1 + "\n" + l2 + v2 + "\n" + l3 + v3 == (l1 + v1) + ("\n" + l2 + v2 + "\n" + l3 + v3)
  {
  }

  /** Regrouping of a label, a value and the line feed inside the value. */
  lemma RegroupName(l: string, v1: string, v2: string)
    ensures l + (v1 + "\n" + v2) == (l + v1) + "\n" + v2
  {
  }

  /** No field of the customer contains a line feed. */
  predicate SingleLineFields(c: Customer)
  {
    '\n' !in c.name && '\n' !in c.email && '\n' !in c.orderId
  }

  /** The body of a customer with single-line fields consists of exactly three
      lines: the Email, Name and Reference lines in that order. */
  lemma BodyLines(c: Customer)
    requires SingleLineFields(c)
    ensures Lines(FromCustomer(c).text) ==
      [EmailLabel + c.email, Indent + NameLabel + c.name, Indent + ReferenceLabel + c.orderId]
  {
    BodyIsJoinedLines(c.email, c.name, c.orderId);
    LinesOfJoin([EmailLabel + c.email, Indent + NameLabel + c.name, Indent + ReferenceLabel + c.orderId]);
  }

  /** The body always begins with the Email line. */
  lemma BodyStartsWithEmail(c: Customer)
    ensures StripPrefix(FromCustomer(c).text, EmailLabel + c.email).Some?
  {
    RegroupHead(EmailLabel, c.email, Indent + NameLabel, c.name, Indent + ReferenceLabel, c.orderId);
    StripPrefixOfConcat(EmailLabel + c.email, "\n" + (Indent + NameLabel) + c.name + "\n" + (Indent + ReferenceLabel) + c.orderId);
  }

  /** Removing the subject prefix always gives back exactly the order reference. */
  lemma SubjectRoundTrip(c: Customer)
    ensures SubjectReference(FromCustomer(c).subject) == Some(c.orderId)
  {
    StripPrefixOfConcat(SubjectPrefix, c.orderId);
  }

  /** The recipient header is the customer's "name <email>" mailbox, and it
      splits back into the name and the address as long as the address has no '<'. */
  lemma RecipientRoundTrip(c: Customer)
    ensures FromCustomer(c).to == Mailbox(c.name, c.email)
    ensures '<' !in c.email ==> SplitMailbox(FromCustomer(c).to) == Some((c.name, c.email))
  {
    if '<' !in c.email {
      SplitMailboxOfMailbox(c.name, c.email);
    }
  }

  /** A reader of the body recovers email, name and reference exactly when the
      fields are single-line. */
  lemma BodyRoundTrip(c: Customer)
    requires SingleLineFields(c)
    ensures ParseBody(FromCustomer(c).text) == Some((c.email, c.name, c.orderId))
  {
    BodyLines(c);
    StripPrefixOfConcat(EmailLabel, c.email);
    StripPrefixOfConcat(Indent + NameLabel, c.name);
    StripPrefixOfConcat(Indent + ReferenceLabel, c.orderId);
  }

  /** For single-line customers the payload determines the customer: equal
      payloads come from equal customers and equal customers give equal payloads. */
  lemma PayloadDeterminesCustomer(c1: Customer, c2: Customer)
    requires SingleLineFields(c1) && SingleLineFields(c2)
    ensures FromCustomer(c1) == FromCustomer(c2) <==> c1 == c2
  {
    if FromCustomer(c1) == FromCustomer(c2) {
      BodyRoundTrip(c1);
      BodyRoundTrip(c2);
    }
  }

  /** A line feed inside the name breaks the three-line layout: the body then
      has four lines and no longer reads back. */
  lemma LineFeedInNameBreaksLayout(email: string, n1: string, n2: string, orderId: string)
    requires '\n' !in email && '\n' !in n1 && '\n' !in n2 && '\n' !in orderId
    ensures Lines(Body(email, n1 + "\n" + n2, orderId)) ==
      [EmailLabel + email, Indent + NameLabel + n1, n2, Indent + ReferenceLabel + orderId]
    ensures ParseBody(Body(email, n1 + "\n" + n2, orderId)) == None
  {
    var a, m1, z := EmailLabel + email, Indent + NameLabel + n1, Indent + ReferenceLabel + orderId;
    BodyIsJoinedLines(email, n1 + "\n" + n2, orderId);
    RegroupName(Indent + NameLabel, n1, n2);
    LinesSplitMiddle(a, m1, n2, z);
  }
}
