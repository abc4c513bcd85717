# Lead intake, password reset and role-gated navigation, in Dafny

This project models the core of a small lead-capture web application and proves what its code promises.

- **Lead intake** (`app/routes/create-lead.ts`, module `LeadIntake`). A public cross-origin form post goes through these steps:
  1. The form is decoded with `Object.fromEntries`.
  2. `meta` is parsed as JSON; an absent `meta` is `{}`.
  3. The form is checked against the schema.
  4. The Cloudflare Turnstile check runs.
  5. The client is looked up and the lead is stored, with the unrecognised form fields as `additionalFields`.
  6. The client's users are e-mailed, and the request is answered with 201.

  Every exit goes through `cors`; thrown errors reach a catch-all that answers 400 or 500. The schema, the field-error map, the Turnstile request and each step's outcome are functions. The database and the ordered log of outbound calls are the state of a `Backend` class. `Action` changes that state step by step, and its contract ties it to the specification function `Intake`.
- **Password reset** (`app/routes/_auth.passwords.new.tsx`, module `PasswordReset`):
  - The validator has a minimum length of 8 and a cross-field match rule.
  - The loader redirects home unless the URL's token names a reset that has not expired.
  - The action runs a fixed chain of guards, then issues two ordered writes to an `Accounts` store: the password change, then the token's expiry.
- **Navigation** (`app/components/desktop-nav.tsx`, module `DesktopNav`): the constant links table, the role filter, and the avatar-initials and display-name strings.
- **Shared parts** (module `Common`): `Object.fromEntries`, JavaScript truthiness of JSON values, the schema library's issue order, and the form adapter's field-error map, which keeps the first message per field.

Collaborators the model cannot see become inputs:
- the body decoder, `JSON.parse` and the Turnstile fetch;
- the database's faults and the id it assigns;
- the mail provider's reply;
- `process.env.CF_SECRET_KEY`;
- `verifyLogin`;
- the current time.

Each of these is an `Attempt` (a value or what was thrown), an `Option`, a function or a plain parameter.

## Model

| member | source | states |
|---|---|---|
| Common.FromEntriesLastWins | app/routes/create-lead.ts:28 | A name is in the decoded form iff some entry carries it. Its value is that of an entry with no later entry of the same name, so the last entry wins. |
| Common.IssuesForFirst | app/routes/create-lead.ts:12-19 | An object schema's issues come field by field in shape order. On distinct fields, the first issue on a path exists iff that field is faulted, and it carries that field's message. |
| Common.FieldErrorsFirst | app/routes/create-lead.ts:36-37 | The field-error map has a path iff some issue names it. The message shown is that of the first such issue. |
| LeadIntake.Cors | app/routes/create-lead.ts:23 | The wrapped response carries the cross-origin headers with its status and body unchanged. |
| LeadIntake.Caught | app/routes/create-lead.ts:87-92 | A thrown `Error` gives 400 with its message. Any other thrown value gives 500 "Unknown error". Both go through `cors`. |
| LeadIntake.Loader | app/routes/create-lead.ts:22-24 | The preflight answer is an empty 200 with the cross-origin headers. |
| LeadIntake.LeadIssuesFirst | app/routes/create-lead.ts:11-20 | The first schema issue on a field exists iff that field is at fault, and it carries that field's message. The five messages are: "Required" when missing, "Name is required", "Email is required", "Client ID is required", and "Expected object, received …" for `meta`. |
| LeadIntake.ValidateLead | app/routes/create-lead.ts:11-38 | Validation succeeds iff every schema rule holds, and then yields the submitted fields. Its `meta` is the record schema's fresh copy: every top-level key of the parsed object except `__proto__`, with its value. Otherwise the error map holds exactly the faulty fields, each with its own message. |
| LeadIntake.ProtoMetaDropped | app/routes/create-lead.ts:17 | A submitted `meta` of `{"__proto__": 1}` validates to an empty record, so the stored lead's `meta` has no such key. |
| LeadIntake.AdditionalFields | app/routes/create-lead.ts:67-72 | The `reduce` loop yields exactly the form keys the validated data does not own, each with its form value. The one exception is `__proto__`, whose assignment to a plain object is ignored. |
| LeadIntake.AdditionalFieldsAreUnrecognised | app/routes/create-lead.ts:40-72 | For valid data, the additional fields are exactly the submitted fields the schema does not declare, other than `__proto__`, unchanged. |
| LeadIntake.TurnstileRequestFor | app/routes/create-lead.ts:96-114 | With a missing or empty secret it throws "CF_SECRET_KEY is required". Otherwise it POSTs to the siteverify URL with `secret` first and `response` second. `remoteip` is added iff the CF-Connecting-IP header is non-empty. |
| LeadIntake.CreateTurnstileRequest | app/routes/create-lead.ts:96-108 | The successive `append`s build exactly the request `TurnstileRequestFor` describes. |
| LeadIntake.Recipients | app/routes/create-lead.ts:85 | The recipients are the client's users' e-mails, in order. |
| LeadIntake.EveryResponseIsCors | app/routes/create-lead.ts:26-93 | Every response of the endpoint, success or failure, carries the cross-origin headers. |
| LeadIntake.NoLeadUnlessAdmitted | app/routes/create-lead.ts:36-83 | At most one lead is written. One is written only if decoding, validation, the Turnstile request and reply, and the client lookup all succeeded. |
| LeadIntake.StoreWritesAtMostOne | app/routes/create-lead.ts:56-83 | The lookup-and-insert step writes at most one lead, and only for a known client whose lookup did not throw. |
| LeadIntake.ValidationFailureStopsEarly | app/routes/create-lead.ts:31-38 | A schema failure answers 422 with its field errors. No outbound call is made. |
| LeadIntake.DecodeFailureStopsEarly | app/routes/create-lead.ts:27-34 | An undecodable body or malformed `meta` JSON goes to the catch-all with no outbound call. |
| LeadIntake.AbsentMetaIsEmptyObject | app/routes/create-lead.ts:33 | Without a submitted `meta`, the schema sees `{}`, and the JSON decoder's answer plays no part in the result. |
| LeadIntake.TurnstileFailureStopsBeforeLookup | app/routes/create-lead.ts:42-54 | Three cases answer 400 "Cloudflare Turnstile failed": a missing secret, a thrown fetch or decode, and a reply whose `success` is not truthy. At most the verification request was made, so no lookup and no write happen. |
| LeadIntake.UnknownClientStopsBeforeWrite | app/routes/create-lead.ts:56-64 | An unknown client id answers 400 "Client not found", and no lead is written. |
| LeadIntake.InsertFaultStoresNothing | app/routes/create-lead.ts:74-92 | A failing insert answers through the catch-all and stores nothing. |
| LeadIntake.SuccessfulIntake | app/routes/create-lead.ts:66-86 | When everything passes, exactly one lead is stored: the validated fields plus the unrecognised form fields. The outbound calls are, in order: verification, lookup, write, then the e-mail to the client's users. The answer is 201 "Lead created", with `email_success` true iff a non-empty MessageId came back. A throw from the mail step goes to the catch-all, and the lead stays stored. |
| LeadIntake.Backend.Record | app/routes/create-lead.ts:45-85 | Logging a call that stores nothing appends it and keeps the store consistent with the log. |
| LeadIntake.Backend.InsertLead | app/routes/create-lead.ts:74-83 | `prisma.lead.create` appends the lead and logs the write. Every stored lead still names an existing client. |
| LeadIntake.Action | app/routes/create-lead.ts:26-94 | The endpoint's response and outbound calls are those of `Intake`. The lead table grows by exactly the leads that run writes. The client table is untouched. |
| LeadIntake.ActOnValid | app/routes/create-lead.ts:42-54 | After validation, the endpoint behaves as `IntakeValid`: a failed request or reply answers 400 before the lookup. |
| LeadIntake.ActOnVerified | app/routes/create-lead.ts:45-86 | After a verified reply, the calls and the lead table follow `IntakeVerified`. |
| LeadIntake.StoreLead | app/routes/create-lead.ts:56-86 | The lookup, insert, e-mail and 201 follow `IntakeStore`, state and response alike. |
| PasswordReset.ResetIssuesFirst | app/routes/_auth.passwords.new.tsx:14-31 | The first issue on a field exists iff a message is shown for it. A field's own problem ("Required", or the 8-character minimum) comes before the refinement's "Passwords must match" on `confirmation`. |
| PasswordReset.ValidateResetForm | app/routes/_auth.passwords.new.tsx:14-31 | Validation succeeds iff all four fields are present, the three passwords have at least 8 UTF-16 code units each, and the new password equals its confirmation. Otherwise the error map holds exactly the fields with a shown message, each with that message. |
| PasswordReset.ShortPasswordRejected | app/routes/_auth.passwords.new.tsx:18-20 | Any password field shorter than 8 UTF-16 code units fails validation with the minimum-length message on that field. |
| PasswordReset.AstralPasswordAccepted | app/routes/_auth.passwords.new.tsx:18-20 | Four characters outside the Basic Multilingual Plane count as 8 units, so such a password, confirmed, passes validation. |
| Common.Utf16Length | app/routes/_auth.passwords.new.tsx:18-20 | `String.length`, which the minimum-length rule compares, lies between the number of characters and twice that number. |
| PasswordReset.MismatchOnConfirmation | app/routes/_auth.passwords.new.tsx:22-29 | Well-formed but different passwords fail with exactly one error: "Passwords must match" on `confirmation`. |
| PasswordReset.Accounts.ResetUserPassword | app/routes/_auth.passwords.new.tsx:91 | The password write is appended to the store's writes. |
| PasswordReset.Accounts.ExpirePasswordReset | app/routes/_auth.passwords.new.tsx:94 | The token-expiry write is appended to the store's writes. |
| PasswordReset.Loader | app/routes/_auth.passwords.new.tsx:33-49 | The page is served (`{}`) iff the URL token is present and non-empty, names a reset, and that reset has not expired. Otherwise the loader redirects to "/". |
| PasswordReset.LoaderAcceptsAtExpiry | app/routes/_auth.passwords.new.tsx:44 | Expiry is strict: a reset expiring exactly now still opens the page. |
| PasswordReset.Decide | app/routes/_auth.passwords.new.tsx:55-94 | The password is changed iff every guard passes and `verifyLogin` confirms the old password. The change goes to the user `verifyLogin` returned, with the new password, and expires the form's token. |
| PasswordReset.GuardsInOrder | app/routes/_auth.passwords.new.tsx:55-78 | The guards answer in this order, each only when all earlier ones passed: validation errors, "Token not found" and "Token expired" with `{}`, then "Invalid token" and "User not found" with `{ success: false }`. |
| PasswordReset.LoginCheckedLast | app/routes/_auth.passwords.new.tsx:55-81 | Until every guard passes, the answer does not depend on `verifyLogin`, and nothing is accepted. |
| PasswordReset.WrongOldPassword | app/routes/_auth.passwords.new.tsx:81-88 | A wrong old password is a field error "Incorrect password" on `oldPassword`. |
| PasswordReset.ActionAcceptsAtExpiry | app/routes/_auth.passwords.new.tsx:65 | A reset expiring exactly now passes the action's expiry guard. |
| PasswordReset.Action | app/routes/_auth.passwords.new.tsx:51-101 | A rejection answers the guard's response and writes nothing. On acceptance, the password is set and then the token is expired, in that order, followed by the "Password reset" redirect to "/". |
| DesktopNav.VisibleLinks | app/components/desktop-nav.tsx:45-46 | A link is shown iff it is in the table, the user has a role, and that role is in the link's `access` list. |
| DesktopNav.VisibleLinksInOrder | app/components/desktop-nav.tsx:45-47 | The shown links are the table's links at strictly increasing positions, so order is kept. Those positions are exactly the ones whose link the role may see. |
| DesktopNav.OnlySuperAdminSeesAdminPages | app/components/desktop-nav.tsx:18-25 | Any shown link other than "/leads" implies the role is SUPER_ADMIN. |
| DesktopNav.SuperAdminSeesAll | app/components/desktop-nav.tsx:17-26 | SUPER_ADMIN sees the whole table, in order. |
| DesktopNav.ClientRolesSeeLeads | app/components/desktop-nav.tsx:18-25 | CLIENT_USER and CLIENT_ADMIN see only "Leads". |
| DesktopNav.NoRoleSeesNothing | app/components/desktop-nav.tsx:46 | A user without a role sees no link. |
| DesktopNav.Initials | app/components/desktop-nav.tsx:66-67 | The fallback is the upper-cased first character of the first name, then that of the last name when there is a non-empty one. It has one character per non-empty name and no lower-case letter. |
| DesktopNav.DisplayName | app/components/desktop-nav.tsx:72-73 | The name starts with the first name. A space and the last name are added iff the last name is present and non-empty. |

## Where the code is more specific than its description

The model follows the code in each of these cases.

- **Missing `CF_SECRET_KEY`.** The error is thrown inside the Turnstile `try`, so it answers 400 "Cloudflare Turnstile failed" like any other verification failure. It is not reported as a separate configuration error.
- **Turnstile reply status.** Only the reply's `success` field is checked. A non-2xx reply whose JSON has a truthy `success` would pass.
- **`remoteip`.** It is sent only when the CF-Connecting-IP header is present and non-empty.
- **Malformed `meta` JSON.** This is not a field error. `JSON.parse` throws, and the catch-all answers 400 with the parser's message.
- **Throw from the mail step.** If the mail collaborator throws after the insert, the catch-all answers 400 or 500 while the lead stays stored. Whether the mail helper catches its own failures depends on `app/server/mail.server`, which is not part of this model. An ordinary reply without a MessageId gives 201 with `email_success` false.

## Left out

- Form values that are files, and the form adapter's expansion of dotted or bracketed field names. Values are plain strings here.
- Repeated field names in the password form. They would become arrays before validation; the model takes the password form as a map.
- The enumeration order of `Object.keys`. The `reduce` is modelled over the key set, and its result is a map, so order cannot matter.
- PasswordReset.Accounts.ResetUserPassword: only the call, and its place before the token's expiry, is recorded. Its effect on the user table is not modelled, because the user server module is not part of this model. In the model, `verifyLogin` does not see the new password.
- PasswordReset.Accounts.ExpirePasswordReset: only the call, and its place after the password write, is recorded. Its effect on the reset table is not modelled, because the password-reset server module is not part of this model. In the model, a used token therefore stays usable.
- JSON numbers are exact rationals. Double-precision rounding of `JSON.parse` is not modelled.
- The rules for e-mail and cuid syntax. They belong to the schema library and are given as functions.
- The HTTP statuses and the toast session cookie of the password action's answers. `app/server/toast.server` is not part of this model; a field-error answer stands for the 422 validation response.
- Timestamps the database adds to a lead. The lead id is a parameter.
- Faults thrown by `getPasswordResetByToken`, `getUserById`, `resetUserPassword` or `expirePasswordReset`. Their modules are not part of this model.
- `getSearchParam`. It is not part of this model; its result is an optional string.
- The contents of the CORS headers and the console logging. Only the fact that `cors` was applied is recorded.
- The multipart encoding of the Turnstile request body. The request's form is its list of fields.
- DesktopNav.Role: the role enumeration comes from the database client, which is not part of this model. The model assumes it has exactly the three roles the links table names. The filter lemmas do not depend on this.
- Rendering, icons, the navigation spinner, the avatar image, the profile link and the logout form in `DesktopNav`. These are presentation only.
- DesktopNav.Initials: upper-casing is modelled for ASCII letters only. `charAt` counts UTF-16 code units while strings here are sequences of characters, so names outside ASCII are not faithfully upper-cased.
- The other routes, the models file, the toaster component and the build configuration. They are outside the modelled core.
