/** The error-mail API route: mail a failed submission's details to the site owner. */
module SendEmail {
  import opened Wrappers
  import opened Json
  import opened Http

  /** The environment variables the route reads. */
  datatype MailEnv = MailEnv(host: Option<string>, port: Option<string>, user: Option<string>, pass: Option<string>)

  /** The SMTP transport options handed to the mail library. */
  datatype Transport = Transport(host: Option<string>, port: Option<string>, secure: bool, user: Option<string>, pass: Option<string>)

  /** `mailOptions`. */
  datatype Mail = Mail(from: Option<string>, to: string, subject: string, text: string)

  /** How `sendMail` ended. */
  datatype SendResult = Sent | SendFailed(error: string)

  const Operator := "contact@rishimehra.in"
  const Subject := "Error Submitting Contact Form"
  const ErrorLabel := "Error: "
  const DetailsHeading := "\n\nContact Details:\n"

  /** The transport is configured from the environment as read, unencrypted at connect. */
  function CreateTransport(env: MailEnv): (t: Transport)
    ensures !t.secure
    ensures t.host == env.host && t.port == env.port && t.user == env.user && t.pass == env.pass
  {
    Transport(env.host, env.port, false, env.user, env.pass)
  }

  /** The mail body: the error text, a heading, then the serialised form data. */
  function MailText(error: string, details: string): (text: string)
    ensures |text| == |ErrorLabel| + |error| + |DetailsHeading| + |details|
    ensures text[..|ErrorLabel|] == ErrorLabel
    ensures text[|ErrorLabel|..|ErrorLabel| + |error|] == error
    ensures text[|ErrorLabel| + |error|..|text| - |details|] == DetailsHeading
    ensures text[|text| - |details|..] == details
  {
    ErrorLabel + error + DetailsHeading + details
  }

  /** `mailOptions`: sent from the configured user to the fixed operator address. */
  function MailOptions(env: MailEnv, error: string, details: string): (m: Mail)
    ensures m.from == env.user && m.to == Operator && m.subject == Subject
    ensures m.text == MailText(error, details)
  {
    Mail(env.user, Operator, Subject, MailText(error, details))
  }

  /** The answer after a successful send. */
  const EmailSent: Response := Response(200, Obj([("message", Str("Email sent successfully"))]))

  /** The answer after a failed send: no detail of the failure is passed on. */
  const EmailFailed: Response := Response(500, Obj([("message", Str("Error sending email"))]))

  /** The route handler. `send` stands for how `sendMail` would end; `interpolate` is
      JavaScript's template-string conversion and `prettyPrint` is
      `JSON.stringify(_, null, 2)`, both of a possibly `undefined` value. The outputs
      `transport` and `mail` are the transport created and the mail handed to it. */
  method Handle(env: MailEnv, req: Request, send: SendResult,
                interpolate: Option<Value> -> string, prettyPrint: Option<Value> -> string)
    returns (res: Response, transport: Option<Transport>, mail: Option<Mail>)
    ensures req.httpMethod != "POST" ==> res == MethodNotAllowed && transport == None && mail == None
    ensures req.httpMethod == "POST" ==> transport == Some(CreateTransport(env))
    ensures req.httpMethod == "POST" ==>
      mail == Some(MailOptions(env, interpolate(Member(req.body, "error")), prettyPrint(Member(req.body, "formData"))))
    ensures req.httpMethod == "POST" ==> (res.status == 200 <==> send.Sent?)
    ensures req.httpMethod == "POST" && send.Sent? ==> res == EmailSent
    ensures req.httpMethod == "POST" && send.SendFailed? ==> res == EmailFailed
    ensures res.status in {200, 405, 500}
  {
    if req.httpMethod != "POST" {
      return MethodNotAllowed, None, None;
    }
    var formData := Member(req.body, "formData");
    var error := Member(req.body, "error");
    var t := CreateTransport(env);
    transport := Some(t);
    var options := MailOptions(env, interpolate(error), prettyPrint(formData));
    mail := Some(options);
    match send
    case Sent =>
      res := EmailSent;
    case SendFailed(_) =>
      res := EmailFailed;
  }
}
