/**
 * The enquiry form: its field rules, the lead row it stores and the
 * e-mail it sends. Whether zod's `.email()` accepts the address is the
 * parameter `emailAccepted`.
 */
module Contact {
  import opened Wrappers
  import opened Text

  datatype ContactInput = ContactInput(name: string, email: string, phone: string, message: Option<string>)

  /** `/^[6-9]\d{9}$/`: ten digits, the first from 6 to 9. */
  predicate IndianMobile(phone: string) {
    |phone| == 10 && '6' <= phone[0] <= '9' && forall k | 0 <= k < |phone| :: IsDigit(phone[k])
  }

  /** A validation error: the field and zod's message for it. */
  datatype Issue = Issue(field: string, message: string)

  const NameTooShort := Issue("name", "Name must be at least 2 characters")
  const NameTooLong := Issue("name", "Name must be less than 100 characters")
  const EmailInvalid := Issue("email", "Please enter a valid email address")
  const EmailTooLong := Issue("email", "Email must be less than 255 characters")
  const PhoneInvalid := Issue("phone", "Please enter a valid 10-digit Indian mobile number")
  const MessageTooLong := Issue("message", "Message must be less than 1000 characters")

  /** The schema's rules. */
  predicate Valid(input: ContactInput, emailAccepted: bool) {
    && 2 <= |input.name| <= 100
    && emailAccepted && |input.email| <= 255
    && IndianMobile(input.phone)
    && (input.message.None? || |input.message.value| <= 1000)
  }

  function NameIssues(name: string): (r: seq<Issue>)
    ensures r == [] <==> 2 <= |name| <= 100
    ensures forall i :: i in r ==> i.field == "name"
    ensures NameTooShort in r <==> |name| < 2
    ensures NameTooLong in r <==> |name| > 100
  {
    if |name| < 2 then [NameTooShort] else if |name| > 100 then [NameTooLong] else []
  }

  function EmailIssues(email: string, emailAccepted: bool): (r: seq<Issue>)
    ensures r == [] <==> emailAccepted && |email| <= 255
    ensures forall i :: i in r ==> i.field == "email"
    ensures EmailInvalid in r <==> !emailAccepted
    ensures EmailTooLong in r <==> |email| > 255
  {
    (if !emailAccepted then [EmailInvalid] else []) + (if |email| > 255 then [EmailTooLong] else [])
  }

  function PhoneIssues(phone: string): (r: seq<Issue>)
    ensures r == [] <==> IndianMobile(phone)
    ensures r != [] ==> r == [PhoneInvalid]
  {
    if IndianMobile(phone) then [] else [PhoneInvalid]
  }

  function MessageIssues(message: Option<string>): (r: seq<Issue>)
    ensures r == [] <==> message.None? || |message.value| <= 1000
    ensures r != [] ==> r == [MessageTooLong]
  {
    if message.Some? && |message.value| > 1000 then [MessageTooLong] else []
  }

  /** `formSchema`'s verdict: every failed check, field by field in schema order (a name is too short or too long, not both). */
  function Issues(input: ContactInput, emailAccepted: bool): (r: seq<Issue>)
    ensures r == [] <==> Valid(input, emailAccepted)
  {
    NameIssues(input.name) + EmailIssues(input.email, emailAccepted) + PhoneIssues(input.phone) + MessageIssues(input.message)
  }

  /** Each rule reports its own message, and only when it is broken. */
  lemma IssuesPerRule(input: ContactInput, emailAccepted: bool)
    ensures var r := Issues(input, emailAccepted);
      && (NameTooShort in r <==> |input.name| < 2)
      && (NameTooLong in r <==> |input.name| > 100)
      && (EmailInvalid in r <==> !emailAccepted)
      && (EmailTooLong in r <==> |input.email| > 255)
      && (PhoneInvalid in r <==> !IndianMobile(input.phone))
      && (MessageTooLong in r <==> input.message.Some? && |input.message.value| > 1000)
  {
    var n, e, p, m := NameIssues(input.name), EmailIssues(input.email, emailAccepted), PhoneIssues(input.phone), MessageIssues(input.message);
    assert Issues(input, emailAccepted) == n + e + p + m;
    assert forall i :: i in n + e + p + m <==> i in n || i in e || i in p || i in m;
  }

  /** The row inserted into `leads`. */
  datatype Lead = Lead(name: string, email: string, phone: string, message: Option<string>,
                       propertyId: Option<int>, propertyTitle: Option<string>)

  /** The e-mail template's parameters. */
  datatype EmailParams = EmailParams(name: string, email: string, phone: string, message: string, property: string)

  /** `x || null` for an optional string: missing or empty becomes null. */
  function NonEmpty(s: Option<string>): (r: Option<string>)
    ensures r.None? <==> s.None? || s.value == ""
    ensures r.Some? ==> r == s
  {
    if s.Some? && s.value != "" then s else None
  }

  /** The lead row: an empty message, a falsy property id (missing or 0) and a missing or empty title are stored as null. */
  function LeadRecord(input: ContactInput, propertyId: Option<int>, propertyTitle: Option<string>): (l: Lead)
    ensures l.name == input.name && l.email == input.email && l.phone == input.phone
    ensures l.message.None? <==> input.message.None? || input.message.value == ""
    ensures l.propertyId.None? <==> propertyId.None? || propertyId.value == 0
    ensures l.propertyId.Some? ==> l.propertyId == propertyId
    ensures l.propertyTitle == NonEmpty(propertyTitle)
  {
    Lead(input.name, input.email, input.phone, NonEmpty(input.message),
         if propertyId.Some? && propertyId.value != 0 then propertyId else None,
         NonEmpty(propertyTitle))
  }

  /** The notification e-mail: a missing or empty message reads "No message provided", a missing or empty title "General Inquiry". */
  function EmailTemplate(input: ContactInput, propertyTitle: Option<string>): (p: EmailParams)
    ensures p.name == input.name && p.email == input.email && p.phone == input.phone
    ensures p.message == (if input.message.Some? && input.message.value != "" then input.message.value else "No message provided")
    ensures p.property == (if propertyTitle.Some? && propertyTitle.value != "" then propertyTitle.value else "General Inquiry")
  {
    EmailParams(input.name, input.email, input.phone,
                NonEmpty(input.message).GetOr("No message provided"),
                NonEmpty(propertyTitle).GetOr("General Inquiry"))
  }

  /** The e-mail says "No message provided" exactly when the stored lead has no message (unless someone typed that very text). */
  lemma EmailAgreesWithLead(input: ContactInput, propertyId: Option<int>, propertyTitle: Option<string>)
    ensures LeadRecord(input, propertyId, propertyTitle).message.None? ==> EmailTemplate(input, propertyTitle).message == "No message provided"
    ensures LeadRecord(input, propertyId, propertyTitle).message.Some? ==>
      EmailTemplate(input, propertyTitle).message == LeadRecord(input, propertyId, propertyTitle).message.value
    ensures LeadRecord(input, propertyId, propertyTitle).propertyTitle.None? <==>
      EmailTemplate(input, propertyTitle).property == "General Inquiry" && propertyTitle != Some("General Inquiry")
  {
  }

  /** A mobile number is ten characters of which the first is 6, 7, 8 or 9: one such number, and two near misses. */
  lemma MobileExamples()
    ensures IndianMobile("9876543210")
    ensures !IndianMobile("5876543210")
    ensures !IndianMobile("98765432101")
  {
  }
}
