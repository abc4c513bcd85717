/** Setting a new password with a reset token
    (`app/routes/_auth.passwords.new.tsx`): a form validator with a
    cross-field rule, a loader that lets only a usable token through, and an
    action that runs a fixed chain of guards before the password is reset and
    the token used up. The user and reset tables are the state of an
    `Accounts` store; checking the old password is the user service's
    `verifyLogin`, taken as a function. */
module PasswordReset {
  import opened Common

  const TokenField := "token"
  const OldPasswordField := "oldPassword"
  const NewPasswordField := "newPassword"
  const ConfirmationField := "confirmation"

  /** The schema's fields, in the order the schema declares them. */
  const FieldOrder: seq<string> := [TokenField, OldPasswordField, NewPasswordField, ConfirmationField]

  const MinPasswordLength := 8
  const TooShort := "Password must be at least 8 characters"
  const Mismatch := "Passwords must match"
  const IncorrectPassword := "Incorrect password"
  const TryAgain := "Please try again."
  const Home := "/"

  /** U+1F600, a character outside the Basic Multilingual Plane. */
  const Grin: char := '\U{1F600}'

  datatype ResetForm = ResetForm(token: string, oldPassword: string, newPassword: string, confirmation: string)

  // --------------------------------------------------------------- validation

  predicate IsPasswordField(field: string)
  {
    field == OldPasswordField || field == NewPasswordField || field == ConfirmationField
  }

  /** What the object schema reports for one field: a missing field is
      "Required", a password shorter than 8 characters is too short, its
      length counted in UTF-16 code units as `String.length` counts it. */
  function FieldProblem(form: Form, field: string): Option<string>
  {
    if field == TokenField then (if TokenField !in form then Some(Required) else None)
    else if IsPasswordField(field) then
      (if field !in form then Some(Required)
       else if Utf16Length(form[field]) < MinPasswordLength then Some(TooShort) else None)
    else None
  }

  predicate AllPresent(form: Form)
  {
    TokenField in form && OldPasswordField in form && NewPasswordField in form && ConfirmationField in form
  }

  /** The refinement runs only when every field is present (a missing field
      aborts the object); it then flags a new password that differs from its
      confirmation. */
  predicate Mismatched(form: Form)
  {
    AllPresent(form) && form[NewPasswordField] != form[ConfirmationField]
  }

  /** The schema's issues: the fields in order, then the refinement's. */
  function ResetIssues(form: Form): seq<Issue>
  {
    IssuesFor(f => FieldProblem(form, f), FieldOrder)
      + (if Mismatched(form) then [Issue(ConfirmationField, Mismatch)] else [])
  }

  /** The message shown for a field: its own problem first; the mismatch
      appears on `confirmation` only when that field has no problem of its own. */
  function ShownProblem(form: Form, field: string): Option<string>
  {
    if FieldProblem(form, field).Some? then FieldProblem(form, field)
    else if field == ConfirmationField && Mismatched(form) then Some(Mismatch)
    else None
  }

  /** A valid form: every field present, each password at least 8
      characters, and the new password equal to its confirmation. */
  predicate Acceptable(form: Form)
  {
    && AllPresent(form)
    && Utf16Length(form[OldPasswordField]) >= MinPasswordLength
    && Utf16Length(form[NewPasswordField]) >= MinPasswordLength
    && Utf16Length(form[ConfirmationField]) >= MinPasswordLength
    && form[NewPasswordField] == form[ConfirmationField]
  }

  /** The first issue on a path exists exactly when a message is shown for
      it, and carries that message. */
  lemma ResetIssuesFirst(form: Form, f: string)
    ensures var issues := ResetIssues(form); var i := FirstOn(issues, f);
      && (i < |issues| <==> ShownProblem(form, f).Some?)
      && (i < |issues| ==> issues[i].message == ShownProblem(form, f).value)
  {
    var problem := f => FieldProblem(form, f);
    var refinement := if Mismatched(form) then [Issue(ConfirmationField, Mismatch)] else [];
    assert Distinct(FieldOrder);
    IssuesForFirst(problem, FieldOrder, f);
    FirstOnAppend(IssuesFor(problem, FieldOrder), refinement, f);
  }

  lemma ResetIssuesMessages(form: Form)
    ensures MessagesNonEmpty(ResetIssues(form))
  {
    var problem := f => FieldProblem(form, f);
    var fieldIssues := IssuesFor(problem, FieldOrder);
    var refinement := if Mismatched(form) then [Issue(ConfirmationField, Mismatch)] else [];
    var issues := fieldIssues + refinement;
    IssuesForMessages(problem, FieldOrder);
    forall i | 0 <= i < |issues| ensures issues[i].message != "" {
      if i >= |fieldIssues| {
        assert issues[i] == refinement[i - |fieldIssues|];
      } else {
        assert issues[i] == fieldIssues[i];
      }
    }
  }

  /** `validator.validate(formData)`. */
  function ValidateResetForm(form: Form): (r: Result<ResetForm, map<string, string>>)
    ensures r.Ok? <==> Acceptable(form)
    ensures r.Ok? ==> r.value == ResetForm(form[TokenField], form[OldPasswordField], form[NewPasswordField], form[ConfirmationField])
    ensures r.Err? ==> forall f :: f in r.error <==> ShownProblem(form, f).Some?
    ensures r.Err? ==> forall f :: f in r.error ==> r.error[f] == ShownProblem(form, f).value
  {
    var issues := ResetIssues(form);
    forall f ensures FirstOn(issues, f) < |issues| <==> ShownProblem(form, f).Some?
      ensures FirstOn(issues, f) < |issues| ==> issues[FirstOn(issues, f)].message == ShownProblem(form, f).value
    {
      ResetIssuesFirst(form, f);
    }
    if issues == [] then
      assert ShownProblem(form, TokenField).None? && ShownProblem(form, OldPasswordField).None?;
      assert ShownProblem(form, NewPasswordField).None? && ShownProblem(form, ConfirmationField).None?;
      Ok(ResetForm(form[TokenField], form[OldPasswordField], form[NewPasswordField], form[ConfirmationField]))
    else
      assert FirstOn(issues, issues[0].path) == 0;
      ResetIssuesMessages(form);
      forall f ensures f in FieldErrors(issues) <==> FirstOn(issues, f) < |issues|
        ensures f in FieldErrors(issues) ==> FieldErrors(issues)[f] == issues[FirstOn(issues, f)].message
      {
        FieldErrorsFirst(issues, f);
      }
      Err(FieldErrors(issues))
  }

  /** A password field shorter than 8 characters fails validation with the
      minimum-length message on that field. */
  lemma ShortPasswordRejected(form: Form, field: string)
    requires IsPasswordField(field) && field in form && Utf16Length(form[field]) < MinPasswordLength
    ensures ValidateResetForm(form).Err?
    ensures field in ValidateResetForm(form).error && ValidateResetForm(form).error[field] == TooShort
  {
  }

  /** Well-formed passwords that differ are reported, and only reported, as
      "Passwords must match" on `confirmation`. */
  lemma MismatchOnConfirmation(form: Form)
    requires AllPresent(form)
    requires Utf16Length(form[OldPasswordField]) >= MinPasswordLength
    requires Utf16Length(form[NewPasswordField]) >= MinPasswordLength
    requires Utf16Length(form[ConfirmationField]) >= MinPasswordLength
    requires form[NewPasswordField] != form[ConfirmationField]
    ensures ValidateResetForm(form) == Err(map[ConfirmationField := Mismatch])
  {
    var errors := ValidateResetForm(form).error;
    assert ShownProblem(form, ConfirmationField) == Some(Mismatch);
    assert forall f :: ShownProblem(form, f).Some? <==> f == ConfirmationField;
    assert errors.Keys == {ConfirmationField};
    assert errors == map[ConfirmationField := Mismatch];
  }

  /** Four characters outside the Basic Multilingual Plane are eight UTF-16
      units, so such a password meets the 8-character minimum. */
  lemma AstralPasswordAccepted(token: string)
    ensures var p := [Grin, Grin, Grin, Grin];
      var form := map[TokenField := token, OldPasswordField := p, NewPasswordField := p, ConfirmationField := p];
      ValidateResetForm(form) == Ok(ResetForm(token, p, p, p))
  {
    var p := [Grin, Grin, Grin, Grin];
    assert Grin as int >= 0x1_0000;
    assert Utf16Length([Grin]) == 2 by { assert [Grin][1..] == []; }
    assert Utf16Length([Grin, Grin]) == 4 by { assert [Grin, Grin][1..] == [Grin]; }
    assert Utf16Length([Grin, Grin, Grin]) == 6 by { assert [Grin, Grin, Grin][1..] == [Grin, Grin]; }
    assert Utf16Length(p) == 8 by { assert p[1..] == [Grin, Grin, Grin]; }
  }

  // -------------------------------------------------------------------- store

  datatype Reset = Reset(userId: string, expiresAt: int)

  datatype User = User(id: string, email: string)

  /** A write to the store, as issued by the action. */
  datatype Update = PasswordSet(userId: string, password: string) | ResetExpired(token: string)

  /** The reset and user tables the routes read, and the writes issued to
      them in order. */
  class Accounts {
    var resets: map<string, Reset>
    var users: map<string, User>
    var updates: seq<Update>

    constructor (resets: map<string, Reset>, users: map<string, User>)
      ensures this.resets == resets && this.users == users && updates == []
    {
      this.resets := resets;
      this.users := users;
      updates := [];
    }

    /** `resetUserPassword({ userId, password })`. */
    method ResetUserPassword(userId: string, password: string)
      modifies this`updates
      ensures updates == old(updates) + [PasswordSet(userId, password)]
    {
      updates := updates + [PasswordSet(userId, password)];
    }

    /** `expirePasswordReset({ token })`. */
    method ExpirePasswordReset(token: string)
      modifies this`updates
      ensures updates == old(updates) + [ResetExpired(token)]
    {
      updates := updates + [ResetExpired(token)];
    }
  }

  // ------------------------------------------------------------------- loader

  datatype LoaderResponse = RedirectTo(location: string) | EmptyJson

  /** A token the page may be shown for: given, non-empty, known, and not
      expired (expiry is strict: `expiresAt < now`). */
  predicate TokenUsable(resets: map<string, Reset>, tokenParam: Option<string>, now: int)
  {
    && tokenParam.Some? && tokenParam.value != ""
    && tokenParam.value in resets
    && !(resets[tokenParam.value].expiresAt < now)
  }

  /** `loader`: redirect home unless the URL's token is usable. */
  method Loader(accounts: Accounts, tokenParam: Option<string>, now: int) returns (r: LoaderResponse)
    ensures r == EmptyJson <==> TokenUsable(accounts.resets, tokenParam, now)
    ensures r != EmptyJson ==> r == RedirectTo(Home)
  {
    if tokenParam.None? || tokenParam.value == "" {
      return RedirectTo(Home);
    }
    var token := tokenParam.value;
    if token !in accounts.resets {
      return RedirectTo(Home);
    }
    var reset := accounts.resets[token];
    if reset.expiresAt < now {
      return RedirectTo(Home);
    }
    return EmptyJson;
  }

  /** A reset that expires at this very instant still opens the page. */
  lemma LoaderAcceptsAtExpiry(resets: map<string, Reset>, token: string, now: int)
    requires token != "" && token in resets && resets[token].expiresAt == now
    ensures TokenUsable(resets, Some(token), now)
  {
  }

  // ------------------------------------------------------------------- action

  datatype Variant = DefaultVariant | Destructive

  datatype Toast = Toast(variant: Variant, title: string, description: string)

  /** The JSON data sent along with a toast: `{}` or `{ success: false }`. */
  datatype ToastData = EmptyData | SuccessFalse

  datatype ActionResponse =
    | FieldErrorsResponse(errors: map<string, string>)
    | ToastJson(data: ToastData, toast: Toast)
    | ToastRedirect(location: string, toast: Toast)

  function Rejection(title: string, data: ToastData): ActionResponse
  {
    ToastJson(data, Toast(Destructive, title, TryAgain))
  }

  const ResetDone: ActionResponse := ToastRedirect(Home, Toast(DefaultVariant, "Password reset", "Your password has been reset."))

  /** What the guard chain decides: a response without any write, or the
      user, password and token of the two writes. */
  datatype Decision = Reject(response: ActionResponse) | Accept(userId: string, newPassword: string, token: string)

  /** Every guard before the old-password check passes: the form is valid,
      its token names a reset that has not expired, equals the URL's token,
      and the reset's user exists. */
  predicate GuardsPass(resets: map<string, Reset>, users: map<string, User>, tokenParam: Option<string>, form: Form, now: int)
  {
    && Acceptable(form)
    && form[TokenField] in resets
    && !(resets[form[TokenField]].expiresAt < now)
    && tokenParam == Some(form[TokenField])
    && resets[form[TokenField]].userId in users
  }

  /** The verdict of `action`'s guard chain. The password is changed exactly
      when every guard passes and the old password is confirmed; the new
      password goes to the user `verifyLogin` returned and the form's token
      is the one used up. */
  function Decide(resets: map<string, Reset>, users: map<string, User>, tokenParam: Option<string>,
                  form: Form, now: int, verifyLogin: (string, string) -> Option<User>): (d: Decision)
    ensures d.Accept? <==> (GuardsPass(resets, users, tokenParam, form, now) &&
      verifyLogin(users[resets[form[TokenField]].userId].email, form[OldPasswordField]).Some?)
    ensures d.Accept? ==>
      d == Accept(verifyLogin(users[resets[form[TokenField]].userId].email, form[OldPasswordField]).value.id,
                  form[NewPasswordField], form[TokenField])
  {
    match ValidateResetForm(form)
    case Err(errors) => Reject(FieldErrorsResponse(errors))
    case Ok(f) =>
      if f.token !in resets then Reject(Rejection("Token not found", EmptyData))
      else if resets[f.token].expiresAt < now then Reject(Rejection("Token expired", EmptyData))
      else if tokenParam != Some(f.token) then Reject(Rejection("Invalid token", SuccessFalse))
      else if resets[f.token].userId !in users then Reject(Rejection("User not found", SuccessFalse))
      else
        match verifyLogin(users[resets[f.token].userId].email, f.oldPassword)
        case None => Reject(FieldErrorsResponse(map[OldPasswordField := IncorrectPassword]))
        case Some(u) => Accept(u.id, f.newPassword, f.token)
  }

  /** The guards answer in a fixed order, each only when all before it passed. */
  lemma GuardsInOrder(resets: map<string, Reset>, users: map<string, User>, tokenParam: Option<string>,
                      form: Form, now: int, verifyLogin: (string, string) -> Option<User>)
    ensures var d := Decide(resets, users, tokenParam, form, now, verifyLogin);
      && (!Acceptable(form) ==> d == Reject(FieldErrorsResponse(ValidateResetForm(form).error)))
      && (Acceptable(form) && form[TokenField] !in resets ==>
            d == Reject(Rejection("Token not found", EmptyData)))
      && (Acceptable(form) && form[TokenField] in resets && resets[form[TokenField]].expiresAt < now ==>
            d == Reject(Rejection("Token expired", EmptyData)))
      && (Acceptable(form) && form[TokenField] in resets && !(resets[form[TokenField]].expiresAt < now)
          && tokenParam != Some(form[TokenField]) ==>
            d == Reject(Rejection("Invalid token", SuccessFalse)))
      && (Acceptable(form) && form[TokenField] in resets && !(resets[form[TokenField]].expiresAt < now)
          && tokenParam == Some(form[TokenField]) && resets[form[TokenField]].userId !in users ==>
            d == Reject(Rejection("User not found", SuccessFalse)))
  {
  }

  /** The old password is checked only once every guard has passed: before
      that, the answer does not depend on `verifyLogin` at all. */
  lemma LoginCheckedLast(resets: map<string, Reset>, users: map<string, User>, tokenParam: Option<string>,
                         form: Form, now: int, v1: (string, string) -> Option<User>, v2: (string, string) -> Option<User>)
    requires !GuardsPass(resets, users, tokenParam, form, now)
    ensures Decide(resets, users, tokenParam, form, now, v1) == Decide(resets, users, tokenParam, form, now, v2)
    ensures Decide(resets, users, tokenParam, form, now, v1).Reject?
  {
  }

  /** A wrong old password is a field error on `oldPassword` and changes nothing. */
  lemma WrongOldPassword(resets: map<string, Reset>, users: map<string, User>, tokenParam: Option<string>,
                         form: Form, now: int, verifyLogin: (string, string) -> Option<User>)
    requires GuardsPass(resets, users, tokenParam, form, now)
    requires verifyLogin(users[resets[form[TokenField]].userId].email, form[OldPasswordField]).None?
    ensures Decide(resets, users, tokenParam, form, now, verifyLogin)
      == Reject(FieldErrorsResponse(map[OldPasswordField := IncorrectPassword]))
  {
  }

  /** A reset whose expiry is exactly now passes the expiry guard. */
  lemma ActionAcceptsAtExpiry(resets: map<string, Reset>, users: map<string, User>, form: Form, now: int)
    requires Acceptable(form) && form[TokenField] in resets && resets[form[TokenField]].expiresAt == now
    requires resets[form[TokenField]].userId in users
    ensures GuardsPass(resets, users, Some(form[TokenField]), form, now)
  {
  }

  /** `action`: the guard chain, then the password reset, then the token's
      expiry, then a redirect home. Nothing is written unless every guard
      passes and the old password is confirmed. */
  method Action(accounts: Accounts, tokenParam: Option<string>, form: Form, now: int,
                verifyLogin: (string, string) -> Option<User>) returns (r: ActionResponse)
    modifies accounts`updates
    ensures var d := Decide(accounts.resets, accounts.users, tokenParam, form, now, verifyLogin);
      && (d.Reject? ==> r == d.response && accounts.updates == old(accounts.updates))
      && (d.Accept? ==>
            && r == ResetDone
            && accounts.updates == old(accounts.updates) + [PasswordSet(d.userId, d.newPassword), ResetExpired(d.token)])
  {
    var result := ValidateResetForm(form);
    if result.Err? {
      return FieldErrorsResponse(result.error);
    }
    var f := result.value;
    if f.token !in accounts.resets {
      return Rejection("Token not found", EmptyData);
    }
    var reset := accounts.resets[f.token];
    if reset.expiresAt < now {
      return Rejection("Token expired", EmptyData);
    }
    if tokenParam != Some(f.token) {
      return Rejection("Invalid token", SuccessFalse);
    }
    if reset.userId !in accounts.users {
      return Rejection("User not found", SuccessFalse);
    }
    var userFromToken := accounts.users[reset.userId];
    var user := verifyLogin(userFromToken.email, f.oldPassword);
    if user.None? {
      return FieldErrorsResponse(map[OldPasswordField := IncorrectPassword]);
    }
    accounts.ResetUserPassword(user.value.id, f.newPassword);
    accounts.ExpirePasswordReset(f.token);
    return ResetDone;
  }
}
