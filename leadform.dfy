/** The lead-form API route: refresh an OAuth access token, then create a contact in
    the CRM from the submitted lead, and answer 200, 405 or 500. */
module LeadForm {
  import opened Wrappers
  import opened Json
  import opened Http

  /** The environment variables getAccessToken reads. */
  datatype ZohoEnv = ZohoEnv(
    refreshToken: Option<string>,
    clientId: Option<string>,
    clientSecret: Option<string>,
    authDomain: Option<string>)

  const DefaultAuthDomain := "https://accounts.zoho.in"
  const TokenPath := "/oauth/v2/token"
  const ContactsPath := "/bigin/v2/Contacts"
  const AuthScheme := "Zoho-oauthtoken "
  const RefreshFailurePrefix := "Failed to refresh token: "
  const MissingFieldsMessage := "Access token or API domain not found in response"

  /** JavaScript truthiness of an optional string: `undefined` and "" are falsy. */
  predicate Truthy(s: Option<string>) {
    s.Some? && s.value != ""
  }

  /** `ZOHO_AUTH_DOMAIN || 'https://accounts.zoho.in'`. */
  function AuthDomain(env: ZohoEnv): (d: string)
    ensures Truthy(env.authDomain) ==> d == env.authDomain.value
    ensures !Truthy(env.authDomain) ==> d == DefaultAuthDomain
    ensures d != ""
  {
    if Truthy(env.authDomain) then env.authDomain.value else DefaultAuthDomain
  }

  /** An outbound HTTP call the handler makes. A query parameter that is `undefined`
      is `None`. */
  datatype Call =
    | TokenRefresh(url: string, params: seq<(string, Option<string>)>)
    | CrmCreate(url: string, headers: seq<(string, string)>, maxRedirects: nat, payload: Value)

  /** The token-refresh POST: no body, the credentials and the grant type as query parameters. */
  function RefreshCall(env: ZohoEnv): (c: Call)
    ensures c.TokenRefresh?
    ensures |c.url| >= |TokenPath| && c.url[|c.url| - |TokenPath|..] == TokenPath
    ensures c.url[..|c.url| - |TokenPath|] == AuthDomain(env)
    ensures ("refresh_token", env.refreshToken) in c.params
    ensures ("client_id", env.clientId) in c.params
    ensures ("client_secret", env.clientSecret) in c.params
    ensures ("grant_type", Some("refresh_token")) in c.params
    ensures |c.params| == 4
  {
    TokenRefresh(AuthDomain(env) + TokenPath,
      [ ("refresh_token", env.refreshToken),
        ("client_id", env.clientId),
        ("client_secret", env.clientSecret),
        ("grant_type", Some("refresh_token")) ])
  }

  /** How the token-refresh call ended: it resolved with a body whose two fields may be
      missing, or it rejected, with the server's body when the server answered. */
  datatype TokenResult =
    | TokenReply(accessToken: Option<string>, apiDomain: Option<string>)
    | TokenRejected(response: Option<Value>, message: string)

  /** The access credential getAccessToken returns. */
  datatype Credential = Credential(accessToken: string, apiDomain: string)

  /** What follows the prefix in getAccessToken's error: the missing-fields message for
      a reply without both fields, the serialised server body when the server answered
      with an error, and the transport's message otherwise. */
  function RefreshDetail(token: TokenResult, stringify: Value -> string): string
  {
    match token
    case TokenReply(_, _) => MissingFieldsMessage
    case TokenRejected(resp, msg) => if resp.Some? then stringify(resp.value) else msg
  }

  /** getAccessToken after its call: a credential, or the message of the Error it throws. */
  function GetAccessToken(token: TokenResult, stringify: Value -> string): (r: Result<Credential, string>)
    ensures r.Success? <==> token.TokenReply? && Truthy(token.accessToken) && Truthy(token.apiDomain)
    ensures r.Success? ==> r.value == Credential(token.accessToken.value, token.apiDomain.value)
    ensures r.Success? ==> r.value.accessToken != "" && r.value.apiDomain != ""
    ensures r.Failure? ==> |r.error| >= |RefreshFailurePrefix| && r.error[..|RefreshFailurePrefix|] == RefreshFailurePrefix
    ensures r.Failure? ==> r.error[|RefreshFailurePrefix|..] == RefreshDetail(token, stringify)
  {
    match token
    case TokenReply(t, d) =>
      if Truthy(t) && Truthy(d) then Success(Credential(t.value, d.value))
      else Failure(RefreshFailurePrefix + RefreshDetail(token, stringify))
    case TokenRejected(_, _) =>
      Failure(RefreshFailurePrefix + RefreshDetail(token, stringify))
  }

  /** The request body fields the handler destructures, paired with the CRM's field names. */
  function ContactFields(body: seq<(string, Value)>): seq<(string, Option<Value>)>
  {
    [ ("First_Name", Member(body, "firstName")),
      ("Last_Name", Member(body, "lastName")),
      ("Email", Member(body, "email")),
      ("Mobile", Member(body, "phoneNumber")),
      ("Project", Member(body, "projectTypes")),
      ("Description", Member(body, "projectDetails")) ]
  }

  /** The CRM contact built from a request body, as it goes on the wire. */
  function ContactRecord(body: seq<(string, Value)>): seq<(string, Value)>
  {
    Entries(ContactFields(body))
  }

  /** `contactData`: a one-element `data` list holding the contact. */
  function ContactData(body: seq<(string, Value)>): (v: Value)
    ensures v.Obj? && |v.members| == 1 && v.members[0].0 == "data"
    ensures v.members[0].1 == Arr([Obj(ContactRecord(body))])
  {
    Obj([("data", Arr([Obj(ContactRecord(body))]))])
  }

  /** Every CRM field holds the matching request field unchanged, `undefined` staying
      `undefined`, and the contact has no other field. */
  lemma ContactFieldsCopied(body: seq<(string, Value)>)
    ensures Member(ContactRecord(body), "First_Name") == Member(body, "firstName")
    ensures Member(ContactRecord(body), "Last_Name") == Member(body, "lastName")
    ensures Member(ContactRecord(body), "Email") == Member(body, "email")
    ensures Member(ContactRecord(body), "Mobile") == Member(body, "phoneNumber")
    ensures Member(ContactRecord(body), "Project") == Member(body, "projectTypes")
    ensures Member(ContactRecord(body), "Description") == Member(body, "projectDetails")
    ensures forall k :: k !in ["First_Name", "Last_Name", "Email", "Mobile", "Project", "Description"] ==>
      Member(ContactRecord(body), k) == None
  {
    var props := ContactFields(body);
    assert DistinctNames(props);
    EntriesMember(props, "First_Name");
    assert props[0].0 == "First_Name";
    EntriesMember(props, "Last_Name");
    assert props[1].0 == "Last_Name";
    EntriesMember(props, "Email");
    assert props[2].0 == "Email";
    EntriesMember(props, "Mobile");
    assert props[3].0 == "Mobile";
    EntriesMember(props, "Project");
    assert props[4].0 == "Project";
    EntriesMember(props, "Description");
    assert props[5].0 == "Description";
    forall k | k !in ["First_Name", "Last_Name", "Email", "Mobile", "Project", "Description"]
      ensures Member(ContactRecord(body), k) == None
    {
      EntriesMember(props, k);
    }
  }

  /** The contact-creation POST: the contact payload, the bearer header, and no redirect
      following. */
  function CrmCall(cred: Credential, body: seq<(string, Value)>): (c: Call)
    ensures c.CrmCreate?
    ensures |c.url| == |cred.apiDomain| + |ContactsPath|
    ensures c.url[..|cred.apiDomain|] == cred.apiDomain && c.url[|cred.apiDomain|..] == ContactsPath
    ensures ("Authorization", AuthScheme + cred.accessToken) in c.headers
    ensures ("Content-Type", "application/json") in c.headers
    ensures |c.headers| == 2
    ensures c.maxRedirects == 0
    ensures c.payload == ContactData(body)
  {
    CrmCreate(cred.apiDomain + ContactsPath,
      [ ("Authorization", AuthScheme + cred.accessToken),
        ("Content-Type", "application/json") ],
      0,
      ContactData(body))
  }

  /** The body and content type of a server's answer to a call that failed. */
  datatype Upstream = Upstream(data: Value, contentType: Option<string>)

  /** How the CRM call ended: it resolved with the created record, or it rejected, with
      the server's answer when there was one. */
  datatype CrmResult =
    | CrmReply(data: Value)
    | CrmRejected(response: Option<Upstream>, message: string)

  /** The error the handler's catch block receives: `error.response` and `error.message`.
      Errors thrown by getAccessToken have no `response`. */
  datatype Thrown = Thrown(response: Option<Upstream>, message: string)

  /** The answer to a successful contact creation. */
  function Submitted(data: Value): (res: Response)
    ensures res.status == 200 && res.body.Obj?
    ensures Member(res.body.members, "message") == Some(Str("Form submitted successfully"))
    ensures Member(res.body.members, "data") == Some(data)
    ensures |res.body.members| == 2 && res.body.members[0].0 == "message" && res.body.members[1].0 == "data"
  {
    Response(200, Obj([("message", Str("Form submitted successfully")), ("data", data)]))
  }

  /** The catch block's answer: 500, with the server's body when the failed call got an
      answer, and the error message otherwise. */
  function CatchBlock(e: Thrown): (res: Response)
    ensures res.status == 500 && res.body.Obj?
    ensures Member(res.body.members, "message") == Some(Str("Error submitting form"))
    ensures e.response.Some? ==> Member(res.body.members, "error") == Some(e.response.value.data)
    ensures e.response.None? ==> Member(res.body.members, "error") == Some(Str(e.message))
    ensures |res.body.members| == 2 && res.body.members[0].0 == "message" && res.body.members[1].0 == "error"
  {
    var detail := if e.response.Some? then e.response.value.data else Str(e.message);
    Response(500, Obj([("message", Str("Error submitting form")), ("error", detail)]))
  }

  /** What the handler's promise does: answer, or reject without answering. */
  datatype Outcome = Responded(res: Response) | Crashed

  /** The catch block as written: its diagnostic reads `.includes` of the content-type
      header before answering, which throws when the failed call's answer has no such
      header, so the 500 with the error detail is never sent. */
  function CatchBlockAsWritten(e: Thrown): (o: Outcome)
    ensures o.Crashed? <==> e.response.Some? && e.response.value.contentType.None?
    ensures o.Responded? ==> o.res == CatchBlock(e)
  {
    if e.response.Some? && e.response.value.contentType.None? then Crashed
    else Responded(CatchBlock(e))
  }

  /** A CRM answer without a content-type header makes the catch block as written throw. */
  lemma CatchBlockAsWrittenCrashes()
    ensures CatchBlockAsWritten(Thrown(Some(Upstream(Null, None)), "Request failed with status code 401")).Crashed?
  {
  }

  /** The route handler. `token` and `crm` stand for what the two axios calls would
      return; `calls` lists the calls actually made, in order. */
  method Handle(env: ZohoEnv, req: Request, token: TokenResult, crm: CrmResult, stringify: Value -> string)
    returns (res: Response, calls: seq<Call>)
    ensures req.httpMethod != "POST" ==> res == MethodNotAllowed && calls == []
    ensures req.httpMethod == "POST" ==> 1 <= |calls| <= 2 && calls[0] == RefreshCall(env)
    ensures req.httpMethod == "POST" ==> (|calls| == 2 <==> GetAccessToken(token, stringify).Success?)
    ensures |calls| == 2 ==> calls[1] == CrmCall(GetAccessToken(token, stringify).value, req.body)
    ensures req.httpMethod == "POST" && GetAccessToken(token, stringify).Failure? ==>
      res == CatchBlock(Thrown(None, GetAccessToken(token, stringify).error))
    ensures res.status == 200 <==>
      req.httpMethod == "POST" && GetAccessToken(token, stringify).Success? && crm.CrmReply?
    ensures res.status == 200 ==> res == Submitted(crm.data)
    ensures req.httpMethod == "POST" && GetAccessToken(token, stringify).Success? && crm.CrmRejected? ==>
      res == CatchBlock(Thrown(crm.response, crm.message))
    ensures res.status in {200, 405, 500}
  {
    if req.httpMethod != "POST" {
      return MethodNotAllowed, [];
    }
    calls := [RefreshCall(env)];
    var cred := GetAccessToken(token, stringify);
    if cred.Failure? {
      return CatchBlock(Thrown(None, cred.error)), calls;
    }
    calls := calls + [CrmCall(cred.value, req.body)];
    match crm
    case CrmReply(data) =>
      res := Submitted(data);
    case CrmRejected(response, message) =>
      res := CatchBlock(Thrown(response, message));
  }
}
