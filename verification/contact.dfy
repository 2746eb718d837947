/**
 * The contact-form handler: it checks the three fields, needs the mail
 * provider's API key, and mails the submission to the site owner with the
 * submitter as the reply-to address.
 */
module Contact {
  import opened Results
  import opened Text
  import opened Js

  const ToEmail := "alex.rimerman@gmail.com"
  const FromAddress := "Developing Baseball <onboarding@resend.dev>"
  const SubjectPrefix := "Contact from developingbaseball.com: "
  const MissingFields := "Name, email, and message are required"
  const NotConfigured := "Email service not configured. Please add RESEND_API_KEY to your environment."
  const SendFailed := "Failed to send message"

  /** The message handed to the mail provider. */
  datatype Email = Email(from: string, to: string, replyTo: Value, subject: string, html: string)

  /** The HTML body up to the message, and after it. */
  function HtmlHead(name: string, email: string): string {
    "\n        <h2>New contact form submission</h2>\n        <p><strong>Name:</strong> " + name
    + "</p>\n        <p><strong>Email:</strong> " + email
    + "</p>\n        <p><strong>Message:</strong></p>\n        <p>"
  }

  const HtmlTail := "</p>\n      "

  /** The mail for a submission. Name and email are inserted as given (no HTML escaping);
      the template literals convert them, which throws for a value that does not convert. */
  function Compose(h: Host, name: Value, email: Value, message: string): (e: Email)
    requires Converts(name) && Converts(email)
    ensures e.to == ToEmail && e.from == FromAddress
    ensures e.replyTo == email
    ensures StartsWith(e.subject, SubjectPrefix) && e.subject[|SubjectPrefix|..] == ToString(h, name)
    ensures StartsWith(e.html, HtmlHead(ToString(h, name), ToString(h, email)))
  {
    Email(
      from := FromAddress,
      to := ToEmail,
      replyTo := email,
      subject := SubjectPrefix + ToString(h, name),
      html := HtmlHead(ToString(h, name), ToString(h, email)) + BreakLines(message) + HtmlTail)
  }

  /** The part of a composed body that carries the message. */
  function MessageSegment(h: Host, name: Value, email: Value, html: string): string
    requires Converts(name) && Converts(email)
    requires |HtmlHead(ToString(h, name), ToString(h, email))| + |HtmlTail| <= |html|
  {
    html[|HtmlHead(ToString(h, name), ToString(h, email))|..|html| - |HtmlTail|]
  }

  /** The message segment of the mail has no line feed left, and a message with no '<'
      in it can be read back from it exactly. */
  lemma MessageSegmentFaithful(h: Host, name: Value, email: Value, message: string)
    requires Converts(name) && Converts(email)
    ensures var e := Compose(h, name, email, message);
            && |HtmlHead(ToString(h, name), ToString(h, email))| + |HtmlTail| <= |e.html|
            && MessageSegment(h, name, email, e.html) == BreakLines(message)
            && (forall i :: 0 <= i < |BreakLines(message)| ==> BreakLines(message)[i] != '\n')
            && ((forall i :: 0 <= i < |message| ==> message[i] != '<') ==>
                  UnbreakLines(MessageSegment(h, name, email, e.html)) == message)
  {
    var head := HtmlHead(ToString(h, name), ToString(h, email));
    var html := Compose(h, name, email, message).html;
    assert html == head + BreakLines(message) + HtmlTail;
    assert html[|head|..|html| - |HtmlTail|] == BreakLines(message);
    if forall i :: 0 <= i < |message| ==> message[i] != '<' {
      BreakLinesRoundTrip(message);
    }
  }

  /** What the mail provider did with a mail. */
  datatype SendResult = Delivered(id: Option<string>) | Rejected(message: string) | Threw

  /** The handler's reply: `{success: true, id}`, or a status with `{error}`. */
  datatype Reply = Sent(id: Option<string>) | Refused(status: nat, error: string)

  /** Whether the API key is usable: present and not empty. */
  predicate Configured(apiKey: Option<string>) {
    apiKey.Some? && apiKey.value != ""
  }

  /** Whether the mail can be composed from a complete body: the message is a string, so
      `.replace` exists, and the name and email convert to text. */
  predicate Composable(body: Value) {
    Field(body, "message").Str? && Converts(Field(body, "name")) && Converts(Field(body, "email"))
  }

  /** Whether the body has a truthy name, email and message. */
  predicate Complete(body: Value) {
    Truthy(Field(body, "name")) && Truthy(Field(body, "email")) && Truthy(Field(body, "message"))
  }

  /** `POST /api/contact`. `request` is the outcome of `request.json()`, `apiKey` the
      RESEND_API_KEY variable, and `send` the mail provider. */
  function Post(h: Host, request: Result<Value>, apiKey: Option<string>, send: Email -> SendResult): (r: Reply)
    ensures r.Refused? ==> r.status == 400 || r.status == 500
    ensures r.Refused? && r.status == 400 <==> request.Ok? && !IsNullish(request.value) && !Complete(request.value)
    ensures request.Ok? && !IsNullish(request.value) && Complete(request.value) && !Configured(apiKey)
            ==> r == Refused(500, NotConfigured)
    ensures request.Fail? || IsNullish(request.value) ==> r == Refused(500, SendFailed)
    ensures r.Sent? ==>
              && request.Ok? && Complete(request.value) && Configured(apiKey)
              && Composable(request.value)
              && send(Compose(h, Field(request.value, "name"), Field(request.value, "email"),
                              Field(request.value, "message").s)) == Delivered(r.id)
    ensures request.Ok? && !IsNullish(request.value) && Complete(request.value) && Configured(apiKey)
            ==> if !Composable(request.value) then r == Refused(500, SendFailed)
                else match send(Compose(h, Field(request.value, "name"), Field(request.value, "email"),
                                        Field(request.value, "message").s))
                  case Delivered(id) => r == Sent(id)
                  case Rejected(error) => r == Refused(500, error)
                  case Threw => r == Refused(500, SendFailed)
  {
    match request
    case Fail(_) => Refused(500, SendFailed)
    case Ok(body) =>
      if IsNullish(body) then Refused(500, SendFailed)
      else if !Complete(body) then Refused(400, MissingFields)
      else if !Configured(apiKey) then Refused(500, NotConfigured)
      else
        if !Composable(body) then Refused(500, SendFailed)
        else
          match send(Compose(h, Field(body, "name"), Field(body, "email"), Field(body, "message").s))
          case Delivered(id) => Sent(id)
          case Rejected(error) => Refused(500, error)
          case Threw => Refused(500, SendFailed)
  }

  /** Without a usable key, without all three fields, or with a submission the mail cannot
      be composed from, no mail is sent: the reply does not depend on the provider at all. */
  lemma NothingSentWhenRefusedEarly(h: Host, request: Result<Value>, apiKey: Option<string>,
                                    send1: Email -> SendResult, send2: Email -> SendResult)
    requires request.Ok? && !IsNullish(request.value)
    requires !Complete(request.value) || !Configured(apiKey) || !Composable(request.value)
    ensures Post(h, request, apiKey, send1) == Post(h, request, apiKey, send2)
  {
  }

  /** A provider rejection is reported with the provider's own message. */
  lemma ProviderErrorIsReported(h: Host, body: Value, apiKey: Option<string>, send: Email -> SendResult)
    requires Complete(body) && Configured(apiKey) && Composable(body)
    requires send(Compose(h, Field(body, "name"), Field(body, "email"), Field(body, "message").s)).Rejected?
    ensures Post(h, Ok(body), apiKey, send)
            == Refused(500, send(Compose(h, Field(body, "name"), Field(body, "email"), Field(body, "message").s)).message)
  {
  }

  /** A complete submission whose name is an object with its own `toString` property: the
      template literal throws while the mail is composed, the provider is never called, and
      the catch answers with the generic 500. */
  lemma UnconvertibleNameFails(h: Host, send: Email -> SendResult)
    ensures var body := Parsed(map["name" := Parsed(map["toString" := Num(Finite(1.0))]),
                                   "email" := Str("a@b.c"), "message" := Str("hi")]);
            Post(h, Ok(body), Some("key"), send) == Refused(500, SendFailed)
  {
    var body := Parsed(map["name" := Parsed(map["toString" := Num(Finite(1.0))]),
                           "email" := Str("a@b.c"), "message" := Str("hi")]);
    assert Complete(body);
    assert !Composable(body);
  }
}
