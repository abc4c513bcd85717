/** The public lead-intake endpoint (`app/routes/create-lead.ts`): a
    cross-origin form post that is decoded, validated, checked against the
    Cloudflare Turnstile service, tied to an existing client, stored as a
    lead and announced by e-mail. The collaborators it calls (the form
    decoder, `JSON.parse`, the Turnstile fetch, the database and the mail
    service) appear as inputs; the database and the log of outbound calls
    are the state of a `Backend`. */
module LeadIntake {
  import opened Common

  const NameField := "name"
  const EmailField := "email"
  const ClientIdField := "clientId"
  const MessageField := "message"
  const MetaField := "meta"
  const TokenField := "cf-turnstile-response"

  /** The schema's fields, in the order the schema declares them. */
  const SchemaOrder: seq<string> := [NameField, EmailField, ClientIdField, MessageField, MetaField, TokenField]

  /** The names the schema recognises. */
  const SchemaFields: set<string> := set f | f in SchemaOrder

  const TurnstileFailedMessage := "Cloudflare Turnstile failed"
  const ClientNotFoundMessage := "Client not found"
  const LeadCreatedMessage := "Lead created"
  const MissingSecretMessage := "CF_SECRET_KEY is required"
  const SiteVerifyUrl := "https://challenges.cloudflare.com/turnstile/v0/siteverify"

  /** The string formats the schema library checks (e-mail address, cuid);
      their rules belong to the library and are taken as given. */
  datatype Syntax = Syntax(isEmail: string -> bool, isCuid: string -> bool)

  /** The data the schema hands back once a submission is valid. */
  datatype LeadData = LeadData(
    name: string,
    email: string,
    clientId: string,
    message: Option<string>,
    meta: map<string, Json>,
    token: string)

  datatype ClientUser = ClientUser(email: string)

  datatype Client = Client(id: string, name: string, users: seq<ClientUser>)

  datatype Lead = Lead(
    id: string,
    name: string,
    email: string,
    message: Option<string>,
    clientId: string,
    meta: map<string, Json>,
    additionalFields: map<string, string>)

  /** The POST sent to Turnstile: its URL, verb and form fields in append order. */
  datatype TurnstileRequest = TurnstileRequest(url: string, verb: string, form: seq<Entry>)

  /** A call the endpoint makes to the outside, in the order it makes them. */
  datatype Event =
    | VerificationRequested(request: TurnstileRequest)
    | ClientLookedUp(clientId: string)
    | LeadWritten(lead: Lead)
    | EmailSent(recipients: seq<string>, lead: Lead)

  datatype Body =
    | NoBody
    | Message(message: string)
    | FieldErrorsBody(fieldErrors: map<string, string>)
    | LeadCreated(message: string, lead: Lead, emailSuccess: bool)

  /** A response; `cors` records that the permissive cross-origin wrapper
      was applied. */
  datatype Response = Response(status: int, body: Body, cors: bool)

  /** What the caller sends: the multipart/urlencoded body as the framework
      decodes it (or the exception it throws), and the CF-Connecting-IP header. */
  datatype Request = Request(formData: Attempt<seq<Entry>>, connectingIp: Option<string>)

  /** The answers of everything the endpoint consults besides the request and
      the database tables. */
  datatype Collaborators = Collaborators(
    secret: Option<string>,            // process.env.CF_SECRET_KEY
    syntax: Syntax,
    metaJson: Attempt<Json>,           // JSON.parse of the submitted `meta`, when there is one
    verification: Attempt<Json>,       // the Turnstile fetch and its `.json()`
    lookupFault: Option<Thrown>,       // an exception thrown by the client lookup
    newLeadId: string,                 // the id the database assigns to a new lead
    createFault: Option<Thrown>,       // an exception thrown by the lead insert
    email: Attempt<Option<string>>)    // the mail provider's MessageId, or what the send threw

  // ---------------------------------------------------------------- responses

  /** `cors(request, response)`: attach the cross-origin headers. */
  function Cors(r: Response): (w: Response)
    ensures w.cors && w.status == r.status && w.body == r.body
  {
    r.(cors := true)
  }

  /** `validationError(errors)`: 422 with the field errors. */
  function ValidationError(errors: map<string, string>): Response
  {
    Cors(Response(422, FieldErrorsBody(errors), false))
  }

  function TurnstileFailed(): Response
  {
    Cors(Response(400, Message(TurnstileFailedMessage), false))
  }

  function ClientNotFound(): Response
  {
    Cors(Response(400, Message(ClientNotFoundMessage), false))
  }

  /** The endpoint's catch-all: an `Error` becomes 400 with its message,
      anything else thrown becomes 500 "Unknown error". */
  function Caught(e: Thrown): (r: Response)
    ensures r.cors
    ensures e.ErrorInstance? ==> r.status == 400 && r.body == Message(e.message)
    ensures e.NonError? ==> r.status == 500 && r.body == Message("Unknown error")
  {
    match e
    case ErrorInstance(m) => Cors(Response(400, Message(m), false))
    case NonError => Cors(Response(500, Message("Unknown error"), false))
  }

  /** `loader`: a cross-origin probe gets an empty 200 with the CORS headers. */
  function Loader(): (r: Response)
    ensures r.status == 200 && r.body == NoBody && r.cors
  {
    Cors(Response(200, NoBody, false))
  }

  // --------------------------------------------------------------- validation

  /** The value handed to the schema for `meta`: the parsed JSON of the
      submitted text, or `JSON.parse("{}")` when none was submitted. */
  function MetaInput(form: Form, parsed: Attempt<Json>): Attempt<Json>
  {
    if MetaField in form then parsed else Returned(JObject(map[]))
  }

  /** The type names the schema library prints in "Expected object, received …". */
  function TypeName(v: Json): string
  {
    match v
    case JNull => "null"
    case JBool(_) => "boolean"
    case JNumber(_) => "number"
    case JString(_) => "string"
    case JArray(_) => "array"
    case JObject(_) => "object"
  }

  /** The message the schema reports for one field, if that field is at fault. */
  function Problem(form: Form, meta: Json, syntax: Syntax, field: string): Option<string>
  {
    if field == NameField then
      (if NameField !in form then Some(Required)
       else if |form[NameField]| < 1 then Some("Name is required") else None)
    else if field == EmailField then
      (if EmailField !in form then Some(Required)
       else if !syntax.isEmail(form[EmailField]) then Some("Email is required") else None)
    else if field == ClientIdField then
      (if ClientIdField !in form then Some(Required)
       else if !syntax.isCuid(form[ClientIdField]) then Some("Client ID is required") else None)
    else if field == MetaField then
      (if meta.JObject? then None else Some("Expected object, received " + TypeName(meta)))
    else if field == TokenField then
      (if TokenField !in form then Some(Required) else None)
    else None
  }

  /** All schema requirements met: a non-empty name, a well-formed e-mail and
      client id, an object `meta` and a Turnstile token. */
  predicate Acceptable(form: Form, meta: Json, syntax: Syntax)
  {
    && NameField in form && |form[NameField]| >= 1
    && EmailField in form && syntax.isEmail(form[EmailField])
    && ClientIdField in form && syntax.isCuid(form[ClientIdField])
    && meta.JObject?
    && TokenField in form
  }

  function LeadIssues(form: Form, meta: Json, syntax: Syntax): seq<Issue>
  {
    IssuesFor(f => Problem(form, meta, syntax, f), SchemaOrder)
  }

  /** The first issue on a path exists exactly when the field is at fault,
      and carries that field's message. */
  lemma LeadIssuesFirst(form: Form, meta: Json, syntax: Syntax, f: string)
    ensures FirstOn(LeadIssues(form, meta, syntax), f) < |LeadIssues(form, meta, syntax)| <==> Problem(form, meta, syntax, f).Some?
    ensures FirstOn(LeadIssues(form, meta, syntax), f) < |LeadIssues(form, meta, syntax)| ==>
      LeadIssues(form, meta, syntax)[FirstOn(LeadIssues(form, meta, syntax), f)].message == Problem(form, meta, syntax, f).value
  {
    assert Distinct(SchemaOrder);
    IssuesForFirst(f => Problem(form, meta, syntax, f), SchemaOrder, f);
  }

  lemma LeadIssuesMessages(form: Form, meta: Json, syntax: Syntax)
    ensures MessagesNonEmpty(LeadIssues(form, meta, syntax))
  {
    IssuesForMessages(f => Problem(form, meta, syntax, f), SchemaOrder);
  }

  /** What `z.record(z.any())` hands back for a parsed object: a fresh object
      filled by assignment, so every top-level key but `__proto__` is copied
      with its value unchanged. */
  function RecordOutput(fields: map<string, Json>): (r: map<string, Json>)
    ensures r.Keys == fields.Keys - {ProtoKey}
    ensures forall k :: k in r ==> r[k] == fields[k]
  {
    map k | k in fields && k != ProtoKey :: fields[k]
  }

  /** `validator.validate({...form, meta})`. A valid submission yields its
      data; otherwise every faulty field, and only those, is reported with
      its message. */
  function ValidateLead(form: Form, meta: Json, syntax: Syntax): (r: Result<LeadData, map<string, string>>)
    ensures r.Ok? <==> Acceptable(form, meta, syntax)
    ensures r.Ok? ==> r.value == LeadData(form[NameField], form[EmailField], form[ClientIdField],
      if MessageField in form then Some(form[MessageField]) else None, RecordOutput(meta.fields), form[TokenField])
    ensures r.Err? ==> forall f :: f in r.error <==> Problem(form, meta, syntax, f).Some?
    ensures r.Err? ==> forall f :: f in r.error ==> r.error[f] == Problem(form, meta, syntax, f).value
  {
    var issues := LeadIssues(form, meta, syntax);
    forall f ensures FirstOn(issues, f) < |issues| <==> Problem(form, meta, syntax, f).Some?
      ensures FirstOn(issues, f) < |issues| ==> issues[FirstOn(issues, f)].message == Problem(form, meta, syntax, f).value
    {
      LeadIssuesFirst(form, meta, syntax, f);
    }
    if issues == [] then
      assert Problem(form, meta, syntax, NameField).None? && Problem(form, meta, syntax, EmailField).None?;
      assert Problem(form, meta, syntax, ClientIdField).None? && Problem(form, meta, syntax, MetaField).None?;
      assert Problem(form, meta, syntax, TokenField).None?;
      Ok(LeadData(form[NameField], form[EmailField], form[ClientIdField],
        if MessageField in form then Some(form[MessageField]) else None, RecordOutput(meta.fields), form[TokenField]))
    else
      assert FirstOn(issues, issues[0].path) == 0;
      LeadIssuesMessages(form, meta, syntax);
      forall f ensures f in FieldErrors(issues) <==> FirstOn(issues, f) < |issues|
        ensures f in FieldErrors(issues) ==> FieldErrors(issues)[f] == issues[FirstOn(issues, f)].message
      {
        FieldErrorsFirst(issues, f);
      }
      Err(FieldErrors(issues))
  }

  /** A submitted `meta` of `{"__proto__": 1}` validates to an empty record. */
  lemma ProtoMetaDropped(form: Form, syntax: Syntax)
    requires ValidateLead(form, JObject(map[ProtoKey := JNumber(1.0)]), syntax).Ok?
    ensures ValidateLead(form, JObject(map[ProtoKey := JNumber(1.0)]), syntax).value.meta == map[]
  {
  }

  /** The keys the validated data owns: every required field, `meta` (always
      supplied to the schema) and `message` when it was submitted. */
  function DataKeys(d: LeadData): set<string>
  {
    {NameField, EmailField, ClientIdField, MetaField, TokenField} + (if d.message.Some? then {MessageField} else {})
  }

  /** The one name a plain object cannot take as an own key by assignment:
      `acc["__proto__"] = value` with a string value is ignored. */
  const ProtoKey := "__proto__"

  /** The reference for `additionalFields`: the form restricted to the keys
      the validated data does not own, without `__proto__`. */
  function AdditionalFieldsOf(form: Form, dataKeys: set<string>): map<string, string>
  {
    map k | k in form && k !in dataKeys && k != ProtoKey :: form[k]
  }

  /** The `reduce` that fills `additionalFields` one form key at a time. */
  method AdditionalFields(form: Form, dataKeys: set<string>) returns (acc: map<string, string>)
    ensures acc.Keys == form.Keys - dataKeys - {ProtoKey}
    ensures forall k :: k in acc ==> acc[k] == form[k]
  {
    acc := map[];
    var keys := form.Keys;
    while keys != {}
      invariant keys <= form.Keys
      invariant acc.Keys == (form.Keys - keys) - dataKeys - {ProtoKey}
      invariant forall k :: k in acc ==> k in form && acc[k] == form[k]
      decreases keys
    {
      var key :| key in keys;
      if key !in dataKeys && key != ProtoKey {
        acc := acc[key := form[key]];
      }
      keys := keys - {key};
    }
  }

  /** For valid data the additional fields are exactly the submitted fields
      the schema does not recognise (less `__proto__`), each with its
      submitted value. */
  lemma AdditionalFieldsAreUnrecognised(form: Form, meta: Json, syntax: Syntax)
    requires ValidateLead(form, meta, syntax).Ok?
    ensures var d := ValidateLead(form, meta, syntax).value;
      AdditionalFieldsOf(form, DataKeys(d)) == map k | k in form && k !in SchemaFields && k != ProtoKey :: form[k]
  {
    var d := ValidateLead(form, meta, syntax).value;
    assert forall k :: k in form ==> (k in DataKeys(d) <==> k in SchemaFields);
  }

  // ---------------------------------------------------------------- Turnstile

  /** The Turnstile request the endpoint builds: it fails when the secret is
      missing or empty; otherwise it posts `secret` and `response`, and
      `remoteip` exactly when the CF-Connecting-IP header is non-empty. */
  function TurnstileRequestFor(secret: Option<string>, ip: Option<string>, token: string): (r: Result<TurnstileRequest, Thrown>)
    ensures r.Err? <==> secret.None? || secret.value == ""
    ensures r.Err? ==> r.error == ErrorInstance(MissingSecretMessage)
    ensures r.Ok? ==> r.value.url == SiteVerifyUrl && r.value.verb == "POST"
    ensures r.Ok? ==> |r.value.form| >= 2 && r.value.form[0] == ("secret", secret.value) && r.value.form[1] == ("response", token)
    ensures r.Ok? ==> ((exists e :: e in r.value.form && e.0 == "remoteip") <==> ip.Some? && ip.value != "")
    ensures r.Ok? && ip.Some? && ip.value != "" ==> r.value.form == [("secret", secret.value), ("response", token), ("remoteip", ip.value)]
    ensures r.Ok? && (ip.None? || ip.value == "") ==> r.value.form == [("secret", secret.value), ("response", token)]
  {
    if secret.None? || secret.value == "" then Err(ErrorInstance(MissingSecretMessage))
    else
      var base := [("secret", secret.value), ("response", token)];
      var form := if ip.Some? && ip.value != "" then base + [("remoteip", ip.value)] else base;
      assert form[0].0 == "secret" && form[1].0 == "response";
      Ok(TurnstileRequest(SiteVerifyUrl, "POST", form))
  }

  /** `createTurnstileRequest`: builds the form by successive appends. */
  method CreateTurnstileRequest(secret: Option<string>, ip: Option<string>, token: string) returns (r: Result<TurnstileRequest, Thrown>)
    ensures r == TurnstileRequestFor(secret, ip, token)
  {
    if secret.None? || secret.value == "" {
      return Err(ErrorInstance(MissingSecretMessage));
    }
    var form: seq<Entry> := [];
    form := form + [("secret", secret.value)];
    form := form + [("response", token)];
    assert form == [("secret", secret.value), ("response", token)];
    if ip.Some? && ip.value != "" {
      form := form + [("remoteip", ip.value)];
    }
    r := Ok(TurnstileRequest(SiteVerifyUrl, "POST", form));
  }

  /** The check `!outcome.success` lets the request through only when the
      decoded reply is an object whose `success` is truthy; a throw while
      fetching or decoding counts as a failure. */
  predicate Verified(outcome: Attempt<Json>)
  {
    match outcome
    case Threw(_) => false
    case Returned(v) => v.JObject? && "success" in v.fields && Truthy(v.fields["success"])
  }

  // ------------------------------------------------------------ notification

  /** `client.users.map((user) => user.email)`. */
  function Recipients(client: Client): (r: seq<string>)
    ensures |r| == |client.users|
    ensures forall i :: 0 <= i < |r| ==> r[i] == client.users[i].email
  {
    seq(|client.users|, i requires 0 <= i < |client.users| => client.users[i].email)
  }

  /** `messageId.data?.MessageId ? true : false`. */
  predicate EmailConfirmed(messageId: Option<string>)
  {
    messageId.Some? && messageId.value != ""
  }

  function NewLead(id: string, d: LeadData, additional: map<string, string>): Lead
  {
    Lead(id, d.name, d.email, d.message, d.clientId, d.meta, additional)
  }

  // ------------------------------------------------------------ the pipeline

  /** The response of one intake and the outbound calls it made. */
  datatype Run = Run(response: Response, events: seq<Event>)

  /** The leads a trace stores, in order. */
  function LeadsWritten(events: seq<Event>): seq<Lead>
  {
    if events == [] then []
    else (match events[0] case LeadWritten(l) => [l] case _ => []) + LeadsWritten(events[1..])
  }

  lemma {:induction false} LeadsWrittenAppend(a: seq<Event>, b: seq<Event>)
    ensures LeadsWritten(a + b) == LeadsWritten(a) + LeadsWritten(b)
  {
    if a == [] {
      assert a + b == b;
    } else {
      var head := match a[0] case LeadWritten(l) => [l] case _ => [];
      assert (a + b)[0] == a[0] && (a + b)[1..] == a[1..] + b;
      assert LeadsWritten(a + b) == head + LeadsWritten(a[1..] + b);
      LeadsWrittenAppend(a[1..], b);
      assert LeadsWritten(a) == head + LeadsWritten(a[1..]);
    }
  }

  /** A trace without a write stores nothing. */
  lemma {:induction false} NoWriteNoLead(events: seq<Event>)
    requires forall i :: 0 <= i < |events| ==> !events[i].LeadWritten?
    ensures LeadsWritten(events) == []
  {
    if events != [] {
      NoWriteNoLead(events[1..]);
    }
  }

  /** The calls of a successful store step write exactly its lead. */
  lemma WrittenOnSuccess(id: string, lead: Lead, recipients: seq<string>)
    ensures LeadsWritten([ClientLookedUp(id), LeadWritten(lead), EmailSent(recipients, lead)]) == [lead]
  {
    var events := [ClientLookedUp(id), LeadWritten(lead), EmailSent(recipients, lead)];
    assert events[1..] == [LeadWritten(lead), EmailSent(recipients, lead)];
    assert events[1..][1..] == [EmailSent(recipients, lead)];
    NoWriteNoLead([EmailSent(recipients, lead)]);
  }

  /** The trace of an intake that reached the Turnstile service starts with
      the verification request, which stores nothing. */
  lemma WrittenAfterVerification(t: TurnstileRequest, rest: seq<Event>)
    ensures LeadsWritten([VerificationRequested(t)] + rest) == LeadsWritten(rest)
  {
    assert ([VerificationRequested(t)] + rest)[1..] == rest;
  }

  /** `action`: the specification of one intake, step by step with early
      exits; every exit goes through `cors`. */
  function Intake(req: Request, env: Collaborators, clients: map<string, Client>): Run
  {
    match req.formData
    case Threw(e) => Run(Caught(e), [])
    case Returned(entries) => IntakeForm(FromEntries(entries), req.connectingIp, env, clients)
  }

  /** After `Object.fromEntries`: decode `meta`, then validate. */
  function IntakeForm(form: Form, ip: Option<string>, env: Collaborators, clients: map<string, Client>): Run
  {
    match MetaInput(form, env.metaJson)
    case Threw(e) => Run(Caught(e), [])
    case Returned(meta) =>
      match ValidateLead(form, meta, env.syntax)
      case Err(errors) => Run(ValidationError(errors), [])
      case Ok(d) => IntakeValid(form, d, ip, env, clients)
  }

  /** After validation: the Turnstile check. */
  function IntakeValid(form: Form, d: LeadData, ip: Option<string>, env: Collaborators, clients: map<string, Client>): Run
  {
    match TurnstileRequestFor(env.secret, ip, d.token)
    case Err(_) => Run(TurnstileFailed(), [])
    case Ok(t) =>
      if !Verified(env.verification) then Run(TurnstileFailed(), [VerificationRequested(t)])
      else IntakeVerified(form, d, t, env, clients)
  }

  /** After verification. */
  function IntakeVerified(form: Form, d: LeadData, t: TurnstileRequest, env: Collaborators, clients: map<string, Client>): Run
  {
    var rest := IntakeStore(form, d, env, clients);
    Run(rest.response, [VerificationRequested(t)] + rest.events)
  }

  /** Client lookup, insert, e-mail, 201. */
  function IntakeStore(form: Form, d: LeadData, env: Collaborators, clients: map<string, Client>): Run
  {
    var looked := [ClientLookedUp(d.clientId)];
    if env.lookupFault.Some? then Run(Caught(env.lookupFault.value), looked)
    else if d.clientId !in clients then Run(ClientNotFound(), looked)
    else if env.createFault.Some? then Run(Caught(env.createFault.value), looked)
    else
      var lead := NewLead(env.newLeadId, d, AdditionalFieldsOf(form, DataKeys(d)));
      var sent := [ClientLookedUp(d.clientId), LeadWritten(lead), EmailSent(Recipients(clients[d.clientId]), lead)];
      match env.email
      case Threw(e) => Run(Caught(e), sent)
      case Returned(messageId) =>
        Run(Cors(Response(201, LeadCreated(LeadCreatedMessage, lead, EmailConfirmed(messageId)), false)), sent)
  }

  /** The checks that must all pass before the endpoint writes anything. */
  predicate Admitted(req: Request, env: Collaborators, clients: map<string, Client>)
  {
    && req.formData.Returned?
    && var form := FromEntries(req.formData.value);
       var meta := MetaInput(form, env.metaJson);
       && meta.Returned?
       && var v := ValidateLead(form, meta.value, env.syntax);
          && v.Ok?
          && TurnstileRequestFor(env.secret, req.connectingIp, v.value.token).Ok?
          && Verified(env.verification)
          && env.lookupFault.None?
          && v.value.clientId in clients
  }

  // ------------------------------------------------- properties of the pipeline

  /** Every exit, success or failure, carries the cross-origin headers. */
  lemma EveryResponseIsCors(req: Request, env: Collaborators, clients: map<string, Client>)
    ensures Intake(req, env, clients).response.cors
  {
  }

  /** No lead is stored unless decoding, validation, the Turnstile check and
      the client lookup all succeed, and never more than one. */
  lemma NoLeadUnlessAdmitted(req: Request, env: Collaborators, clients: map<string, Client>)
    ensures |LeadsWritten(Intake(req, env, clients).events)| <= 1
    ensures LeadsWritten(Intake(req, env, clients).events) != [] ==> Admitted(req, env, clients)
  {
    if req.formData.Returned? {
      var form := FromEntries(req.formData.value);
      var meta := MetaInput(form, env.metaJson);
      if meta.Returned? {
        var v := ValidateLead(form, meta.value, env.syntax);
        if v.Ok? {
          var t := TurnstileRequestFor(env.secret, req.connectingIp, v.value.token);
          if t.Ok? && Verified(env.verification) {
            StoreWritesAtMostOne(form, v.value, env, clients);
            WrittenAfterVerification(t.value, IntakeStore(form, v.value, env, clients).events);
          } else if t.Ok? {
            WrittenAfterVerification(t.value, []);
          }
        }
      }
    }
  }

  /** The store step writes at most one lead, and only for a known client
      whose lookup did not fail. */
  lemma StoreWritesAtMostOne(form: Form, d: LeadData, env: Collaborators, clients: map<string, Client>)
    ensures |LeadsWritten(IntakeStore(form, d, env, clients).events)| <= 1
    ensures LeadsWritten(IntakeStore(form, d, env, clients).events) != [] ==>
      env.lookupFault.None? && d.clientId in clients
  {
    if env.lookupFault.Some? || d.clientId !in clients || env.createFault.Some? {
      NoWriteNoLead([ClientLookedUp(d.clientId)]);
    } else {
      var lead := NewLead(env.newLeadId, d, AdditionalFieldsOf(form, DataKeys(d)));
      WrittenOnSuccess(d.clientId, lead, Recipients(clients[d.clientId]));
    }
  }

  /** A submission the schema rejects is answered with 422 and its field
      errors before any outbound call: no Turnstile request, no client
      lookup, no write, no e-mail. */
  lemma ValidationFailureStopsEarly(req: Request, env: Collaborators, clients: map<string, Client>)
    requires req.formData.Returned?
    requires var form := FromEntries(req.formData.value);
      MetaInput(form, env.metaJson).Returned? &&
      ValidateLead(form, MetaInput(form, env.metaJson).value, env.syntax).Err?
    ensures var form := FromEntries(req.formData.value);
      var errors := ValidateLead(form, MetaInput(form, env.metaJson).value, env.syntax).error;
      Intake(req, env, clients) == Run(Response(422, FieldErrorsBody(errors), true), [])
  {
  }

  /** Malformed `meta` JSON (or an undecodable body) is answered through the
      catch-all before any outbound call. */
  lemma DecodeFailureStopsEarly(req: Request, env: Collaborators, clients: map<string, Client>)
    requires req.formData.Threw? ||
      MetaInput(FromEntries(req.formData.value), env.metaJson).Threw?
    ensures Intake(req, env, clients).events == []
    ensures req.formData.Threw? ==> Intake(req, env, clients).response == Caught(req.formData.thrown)
    ensures req.formData.Returned? ==> Intake(req, env, clients).response == Caught(env.metaJson.thrown)
  {
  }

  /** When no `meta` is submitted the schema sees `{}` and the JSON decoder's
      answer plays no part. */
  lemma AbsentMetaIsEmptyObject(req: Request, env: Collaborators, clients: map<string, Client>, other: Attempt<Json>)
    requires req.formData.Returned? && MetaField !in FromEntries(req.formData.value)
    ensures MetaInput(FromEntries(req.formData.value), env.metaJson) == Returned(JObject(map[]))
    ensures Intake(req, env, clients) == Intake(req, env.(metaJson := other), clients)
  {
    var form := FromEntries(req.formData.value);
    var env' := env.(metaJson := other);
    assert MetaInput(form, env'.metaJson) == MetaInput(form, env.metaJson);
    var v := ValidateLead(form, JObject(map[]), env.syntax);
    if v.Ok? {
      assert IntakeStore(form, v.value, env', clients) == IntakeStore(form, v.value, env, clients);
      assert IntakeValid(form, v.value, req.connectingIp, env', clients) == IntakeValid(form, v.value, req.connectingIp, env, clients);
    }
  }

  /** A missing secret, a thrown fetch or an unsuccessful outcome all give 400
      "Cloudflare Turnstile failed"; the client is not looked up and no lead
      is written. */
  lemma TurnstileFailureStopsBeforeLookup(req: Request, env: Collaborators, clients: map<string, Client>)
    requires req.formData.Returned?
    requires var form := FromEntries(req.formData.value); var meta := MetaInput(form, env.metaJson);
      && meta.Returned?
      && var v := ValidateLead(form, meta.value, env.syntax);
         && v.Ok?
         && (TurnstileRequestFor(env.secret, req.connectingIp, v.value.token).Err? || !Verified(env.verification))
    ensures var run := Intake(req, env, clients);
      && run.response == Response(400, Message(TurnstileFailedMessage), true)
      && (run.events == [] || (|run.events| == 1 && run.events[0].VerificationRequested?))
  {
  }

  /** An unknown client id gives 400 "Client not found" and no lead. */
  lemma UnknownClientStopsBeforeWrite(req: Request, env: Collaborators, clients: map<string, Client>)
    requires req.formData.Returned?
    requires var form := FromEntries(req.formData.value); var meta := MetaInput(form, env.metaJson);
      && meta.Returned?
      && var v := ValidateLead(form, meta.value, env.syntax);
         && v.Ok?
         && TurnstileRequestFor(env.secret, req.connectingIp, v.value.token).Ok?
         && Verified(env.verification)
         && env.lookupFault.None?
         && v.value.clientId !in clients
    ensures Intake(req, env, clients).response == Response(400, Message(ClientNotFoundMessage), true)
    ensures LeadsWritten(Intake(req, env, clients).events) == []
  {
    var form := FromEntries(req.formData.value);
    var d := ValidateLead(form, MetaInput(form, env.metaJson).value, env.syntax).value;
    var t := TurnstileRequestFor(env.secret, req.connectingIp, d.token).value;
    WrittenAfterVerification(t, IntakeStore(form, d, env, clients).events);
    NoWriteNoLead(IntakeStore(form, d, env, clients).events);
  }

  /** A failing insert reaches the catch-all and stores nothing. */
  lemma InsertFaultStoresNothing(req: Request, env: Collaborators, clients: map<string, Client>)
    requires Admitted(req, env, clients) && env.createFault.Some?
    ensures Intake(req, env, clients).response == Caught(env.createFault.value)
    ensures LeadsWritten(Intake(req, env, clients).events) == []
  {
    var form := FromEntries(req.formData.value);
    var d := ValidateLead(form, MetaInput(form, env.metaJson).value, env.syntax).value;
    var t := TurnstileRequestFor(env.secret, req.connectingIp, d.token).value;
    WrittenAfterVerification(t, IntakeStore(form, d, env, clients).events);
    NoWriteNoLead(IntakeStore(form, d, env, clients).events);
  }

  /** When every check passes and the insert succeeds, exactly one lead is
      stored: the validated fields with the unrecognised form fields as
      `additionalFields`. It is written before the e-mail goes to the
      client's users (in order), and a 201 reports whether the provider
      returned a MessageId; a throw from the mail service after the write
      goes to the catch-all while the lead stays stored. */
  lemma SuccessfulIntake(req: Request, env: Collaborators, clients: map<string, Client>)
    requires Admitted(req, env, clients) && env.createFault.None?
    ensures var form := FromEntries(req.formData.value);
      var d := ValidateLead(form, MetaInput(form, env.metaJson).value, env.syntax).value;
      var lead := Lead(env.newLeadId, d.name, d.email, d.message, d.clientId, d.meta,
        map k | k in form && k !in SchemaFields && k != ProtoKey :: form[k]);
      var t := TurnstileRequestFor(env.secret, req.connectingIp, d.token).value;
      var run := Intake(req, env, clients);
      && LeadsWritten(run.events) == [lead]
      && run.events == [VerificationRequested(t), ClientLookedUp(d.clientId), LeadWritten(lead),
                        EmailSent(Recipients(clients[d.clientId]), lead)]
      && (env.email.Returned? ==>
            run.response == Response(201, LeadCreated(LeadCreatedMessage, lead, EmailConfirmed(env.email.value)), true))
      && (env.email.Threw? ==> run.response == Caught(env.email.thrown))
  {
    var form := FromEntries(req.formData.value);
    var d := ValidateLead(form, MetaInput(form, env.metaJson).value, env.syntax).value;
    var t := TurnstileRequestFor(env.secret, req.connectingIp, d.token).value;
    AdditionalFieldsAreUnrecognised(form, MetaInput(form, env.metaJson).value, env.syntax);
    var lead := NewLead(env.newLeadId, d, AdditionalFieldsOf(form, DataKeys(d)));
    WrittenAfterVerification(t, IntakeStore(form, d, env, clients).events);
    WrittenOnSuccess(d.clientId, lead, Recipients(clients[d.clientId]));
  }

  // ------------------------------------------------------------ the endpoint

  /** The database the endpoint reads and writes (client table, lead table)
      and the log of its outbound calls. */
  class Backend {
    var clients: map<string, Client>
    var leads: seq<Lead>
    var events: seq<Event>

    /** Every stored lead was logged as written, in order, and names an
        existing client. */
    ghost predicate Valid()
      reads this
    {
      && leads == LeadsWritten(events)
      && forall i :: 0 <= i < |leads| ==> leads[i].clientId in clients
    }

    constructor (clients: map<string, Client>)
      ensures Valid() && this.clients == clients && leads == [] && events == []
    {
      this.clients := clients;
      leads := [];
      events := [];
    }

    /** Log an outbound call that stores nothing. */
    method Record(e: Event)
      requires Valid() && !e.LeadWritten?
      modifies this`events
      ensures Valid() && events == old(events) + [e]
    {
      events := events + [e];
      LeadsWrittenAppend(old(events), [e]);
      NoWriteNoLead([e]);
    }

    /** `prisma.lead.create`: append the lead and log the write. */
    method InsertLead(lead: Lead)
      requires Valid() && lead.clientId in clients
      modifies this`leads, this`events
      ensures Valid() && leads == old(leads) + [lead] && events == old(events) + [LeadWritten(lead)]
    {
      leads := leads + [lead];
      events := events + [LeadWritten(lead)];
      LeadsWrittenAppend(old(events), [LeadWritten(lead)]);
      assert [LeadWritten(lead)][1..] == [];
    }
  }

  /** `action`, step by step against the backend. Its response and the calls
      it makes are those of `Intake`; the lead table grows by the leads that
      run writes, and the client table is untouched. */
  method Action(backend: Backend, req: Request, env: Collaborators) returns (res: Response)
    requires backend.Valid()
    modifies backend`leads, backend`events
    ensures backend.Valid()
    ensures var run := Intake(req, env, backend.clients);
      && res == run.response
      && backend.events == old(backend.events) + run.events
      && backend.leads == old(backend.leads) + LeadsWritten(run.events)
  {
    if req.formData.Threw? {
      return Caught(req.formData.thrown);
    }
    var form := FromEntries(req.formData.value);
    var meta := MetaInput(form, env.metaJson);
    if meta.Threw? {
      return Caught(meta.thrown);
    }
    var result := ValidateLead(form, meta.value, env.syntax);
    if result.Err? {
      return ValidationError(result.error);
    }
    res := ActOnValid(backend, form, result.value, req.connectingIp, env);
  }

  /** The part of `action` after validation: the Turnstile check. */
  method ActOnValid(backend: Backend, form: Form, d: LeadData, ip: Option<string>, env: Collaborators) returns (res: Response)
    requires backend.Valid()
    modifies backend`leads, backend`events
    ensures backend.Valid()
    ensures var run := IntakeValid(form, d, ip, env, backend.clients);
      && res == run.response
      && backend.events == old(backend.events) + run.events
      && backend.leads == old(backend.leads) + LeadsWritten(run.events)
  {
    var turnstile := CreateTurnstileRequest(env.secret, ip, d.token);
    if turnstile.Err? {
      return TurnstileFailed();
    }
    var t := turnstile.value;
    if !Verified(env.verification) {
      backend.Record(VerificationRequested(t));
      WrittenAfterVerification(t, []);
      return TurnstileFailed();
    }
    res := ActOnVerified(backend, form, d, t, env);
  }

  /** The part of `action` from the Turnstile call on, when its reply is a
      success: the call, then the store step. */
  method ActOnVerified(backend: Backend, form: Form, d: LeadData, t: TurnstileRequest, env: Collaborators) returns (res: Response)
    requires backend.Valid()
    modifies backend`leads, backend`events
    ensures backend.Valid()
    ensures var run := IntakeVerified(form, d, t, env, backend.clients);
      && res == run.response
      && backend.events == old(backend.events) + run.events
      && backend.leads == old(backend.leads) + LeadsWritten(run.events)
  {
    backend.Record(VerificationRequested(t));
    ghost var mid := backend.events;
    ghost var rest := IntakeStore(form, d, env, backend.clients);
    res := StoreLead(backend, form, d, env);
    assert backend.events == mid + rest.events;
    assert backend.events == old(backend.events) + ([VerificationRequested(t)] + rest.events);
    WrittenAfterVerification(t, rest.events);
  }

  /** The part of `action` after a successful Turnstile check: client
      lookup, insert, e-mail, 201. */
  method StoreLead(backend: Backend, form: Form, d: LeadData, env: Collaborators) returns (res: Response)
    requires backend.Valid()
    modifies backend`leads, backend`events
    ensures backend.Valid()
    ensures var run := IntakeStore(form, d, env, backend.clients);
      && res == run.response
      && backend.events == old(backend.events) + run.events
      && backend.leads == old(backend.leads) + LeadsWritten(run.events)
  {
    backend.Record(ClientLookedUp(d.clientId));
    if env.lookupFault.Some? || d.clientId !in backend.clients || env.createFault.Some? {
      NoWriteNoLead([ClientLookedUp(d.clientId)]);
      if env.lookupFault.Some? {
        return Caught(env.lookupFault.value);
      }
      if d.clientId !in backend.clients {
        return ClientNotFound();
      }
      return Caught(env.createFault.value);
    }
    var client := backend.clients[d.clientId];

    var additional := AdditionalFields(form, DataKeys(d));
    assert additional == AdditionalFieldsOf(form, DataKeys(d));
    var lead := NewLead(env.newLeadId, d, additional);
    backend.InsertLead(lead);

    backend.Record(EmailSent(Recipients(client), lead));
    WrittenOnSuccess(d.clientId, lead, Recipients(client));
    match env.email
    case Threw(e) =>
      return Caught(e);
    case Returned(messageId) =>
      return Cors(Response(201, LeadCreated(LeadCreatedMessage, lead, EmailConfirmed(messageId)), false));
  }
}
