/** The `handler` of api/subscribe.js, and the mailing-list client configuration
    done when the module loads, as pure functions of the request, the
    environment and what the mailing-list provider did. */
module Subscribe {
  import opened Wrappers
  import opened Http

  /** The destructured body `{ email, firstName, lastName, tags = [] }`. */
  datatype Body = Body(email: Js<string>, firstName: Js<string>, lastName: Js<string>,
                       tags: Js<seq<string>>)

  /** `req.method` and `req.body`. */
  datatype Request = Request(httpMethod: string, body: Js<Body>)

  /** The `VITE_MAILCHIMP_*` variables and `NODE_ENV` of `process.env`. */
  datatype Env = Env(apiKey: Js<string>, serverPrefix: Js<string>, listId: Js<string>,
                     nodeEnv: Js<string>)

  /** The argument of `mailchimp.setConfig`. */
  datatype Config = Config(apiKey: Js<string>, server: string)

  datatype MergeFields = MergeFields(fname: string, lname: string)

  /** The member passed to `mailchimp.lists.addListMember`. */
  datatype Member = Member(emailAddress: string, status: string, mergeFields: MergeFields,
                           tags: seq<string>)

  /** One call of `addListMember`, with the client configuration it runs under. */
  datatype AddMemberCall = AddMemberCall(config: Config, listId: string, member: Member)

  /** What `addListMember` did: resolved to a member record, or threw an error
      with an HTTP `status` and, from the provider's reply, a body `title`. */
  datatype ProviderOutcome =
    | Added(id: string)
    | Rejected(status: Js<int>, title: Js<string>, message: string)

  /** The provider call the handler makes, if any, and the response it writes. */
  datatype Outcome = Outcome(call: Option<AddMemberCall>, response: Response)

  const DefaultServer := "us1"
  const DefaultTag := "fundraiser-donor"
  const EmailRequired := Response(400, [("message", JStr("Email is required"))])
  const ListIdMissing := Response(500, [("message", JStr("Mailchimp list ID not configured"))])
  const Subscribed := "Successfully subscribed to newsletter"
  const AlreadySubscribed := Response(200, [("success", JBool(true)),
                                            ("message", JStr("Email already subscribed")),
                                            ("alreadyExists", JBool(true))])

  /** The TypeError V8 throws for `tags.length` when `tags` is `null`. */
  const NullTagsMessage := "Cannot read properties of null (reading 'length')"

  /** The client configuration set when the module is loaded. */
  function Configure(env: Env): (c: Config)
    ensures c.apiKey == env.apiKey
    ensures c.server == (if Truthy(env.serverPrefix) then env.serverPrefix.v else "us1")
    ensures c.server != ""
  {
    Config(env.apiKey, OrElse(env.serverPrefix, DefaultServer))
  }

  /** `tags.length > 0 ? tags : ['fundraiser-donor']` for tags that are an array. */
  function TagsToSend(tags: seq<string>): (t: seq<string>)
    ensures |t| > 0
    ensures |tags| > 0 ==> t == tags
    ensures |tags| == 0 ==> t == [DefaultTag]
  {
    if |tags| > 0 then tags else [DefaultTag]
  }

  /** The member built for a truthy email and array-valued (or defaulted) tags. */
  function NewMember(email: string, b: Body): (m: Member)
    requires !b.tags.Null?
    ensures m.emailAddress == email && m.status == "subscribed"
    ensures m.mergeFields == MergeFields(OrElse(b.firstName, ""), OrElse(b.lastName, ""))
    ensures b.tags.Undefined? ==> m.tags == [DefaultTag]
    ensures b.tags.Value? ==> m.tags == TagsToSend(b.tags.v)
  {
    var tags := if b.tags.Value? then b.tags.v else [];
    Member(email, "subscribed", MergeFields(OrElse(b.firstName, ""), OrElse(b.lastName, "")),
           TagsToSend(tags))
  }

  /** The provider's duplicate-member error: status 400 with title "Member Exists". */
  predicate MemberExists(o: ProviderOutcome) {
    o.Rejected? && o.status == Value(400) && o.title == Value("Member Exists")
  }

  /** The 500 response written at the end of the `catch` block. */
  function ServerError(env: Env, message: string): Response {
    Response(500, [("message", JStr("Error subscribing to newsletter")),
                   ("error", JStr(ErrorDetail(env.nodeEnv, message)))])
  }

  /** The `catch` block for an error thrown with this status, title and message. */
  function Caught(env: Env, e: ProviderOutcome): Response
    requires e.Rejected?
  {
    if MemberExists(e) then AlreadySubscribed else ServerError(env, e.message)
  }

  /** The handler. A `null` or `undefined` body and `null` tags throw inside
      the `try` before the provider is called; such errors have no `status`. */
  function Handle(req: Request, env: Env, outcome: ProviderOutcome): (out: Outcome)
    ensures req.httpMethod != "POST" ==> out == Outcome(None, MethodNotAllowed)
    ensures out.call.Some? <==>
              && req.httpMethod == "POST" && req.body.Value? && Truthy(req.body.v.email)
              && Truthy(env.listId) && !req.body.v.tags.Null?
    ensures out.call.Some? ==>
              out.call.value == AddMemberCall(Configure(env), env.listId.v,
                                              NewMember(req.body.v.email.v, req.body.v))
    ensures req.httpMethod == "POST" && !req.body.Value? ==>
              out.response == ServerError(env, DestructureErrorMessage("email", req.body.Null?))
    ensures req.httpMethod == "POST" && req.body.Value? && !Truthy(req.body.v.email) ==>
              out.response == EmailRequired
    ensures (req.httpMethod == "POST" && req.body.Value? && Truthy(req.body.v.email)
             && !Truthy(env.listId)) ==> out.response == ListIdMissing
    ensures (req.httpMethod == "POST" && req.body.Value? && Truthy(req.body.v.email)
             && Truthy(env.listId) && req.body.v.tags.Null?) ==>
              out.response == ServerError(env, NullTagsMessage)
    ensures out.call.Some? && outcome.Added? ==>
              out.response == Response(200, [("success", JBool(true)), ("message", JStr(Subscribed)),
                                             ("id", JStr(outcome.id))])
    ensures out.call.Some? && MemberExists(outcome) ==> out.response == AlreadySubscribed
    ensures out.call.Some? && outcome.Rejected? && !MemberExists(outcome) ==>
              out.response == ServerError(env, outcome.message)
  {
    if req.httpMethod != "POST" then
      Outcome(None, MethodNotAllowed)
    else if !req.body.Value? then
      Outcome(None, ServerError(env, DestructureErrorMessage("email", req.body.Null?)))
    else
      var body := req.body.v;
      if !Truthy(body.email) then
        Outcome(None, EmailRequired)
      else if !Truthy(env.listId) then
        Outcome(None, ListIdMissing)
      else if body.tags.Null? then
        Outcome(None, ServerError(env, NullTagsMessage))
      else
        var call := AddMemberCall(Configure(env), env.listId.v, NewMember(body.email.v, body));
        match outcome
        case Added(id) =>
          Outcome(Some(call), Response(200, [("success", JBool(true)), ("message", JStr(Subscribed)),
                                             ("id", JStr(id))]))
        case Rejected(_, _, _) =>
          Outcome(Some(call), Caught(env, outcome))
  }

  /** The handler answers 200 exactly when the provider was called and either
      added the member or reported that the member already exists. */
  lemma SuccessExactlyWhenAddedOrExisting(req: Request, env: Env, outcome: ProviderOutcome)
    ensures Handle(req, env, outcome).response.status == 200 <==>
              Handle(req, env, outcome).call.Some? && (outcome.Added? || MemberExists(outcome))
  {
  }

  /** Signing the same address up twice: the second attempt, which the provider
      rejects as a duplicate, is still answered as a success. */
  lemma RepeatSignupIsSuccess(email: string, env: Env, id: string, message: string)
    requires email != "" && Truthy(env.listId)
    ensures var req := Request("POST", Value(Body(Value(email), Undefined, Undefined, Undefined)));
            var first := Handle(req, env, Added(id));
            var second := Handle(req, env, Rejected(Value(400), Value("Member Exists"), message));
            && first.response.status == 200 && first.response.body[0] == ("success", JBool(true))
            && second.response == AlreadySubscribed
            && first.call == second.call
            && first.call.Some? && first.call.value.member.tags == [DefaultTag]
  {
  }
}
