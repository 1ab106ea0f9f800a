/** The registration page: its form checks in their fixed order, then sign-up,
    then the insertion of a pending admin request, then sign-out and the move to
    the sign-in page. The backend's answers are parameters. */
module Registration {
  import opened Common
  import opened Strings
  import opened Schema
  import Auth

  datatype FormError = MissingField | PasswordMismatch | PasswordTooShort

  /** The shortest password accepted, in UTF-16 code units. */
  const MinPasswordLength: nat := 6

  /** The checks of `handleSubmit`, first failure wins: a field that is empty after trimming,
      then a confirmation that differs, then a password that is too short (untrimmed length). */
  function ValidateRegistration(email: string, password: string, confirm: string, fullName: string)
    : Option<FormError>
  {
    if Trim(email) == "" || Trim(password) == "" || Trim(fullName) == "" then Some(MissingField)
    else if password != confirm then Some(PasswordMismatch)
    else if Utf16Length(password) < MinPasswordLength then Some(PasswordTooShort)
    else None
  }

  /** Which error the checks report, in terms of blank fields (whitespace only), equal passwords
      and the password's length: each error exactly when the earlier checks pass and its own fails. */
  lemma ValidationErrors(email: string, password: string, confirm: string, fullName: string)
    ensures var r := ValidateRegistration(email, password, confirm, fullName);
      && (r == Some(MissingField) <==> Blank(email) || Blank(password) || Blank(fullName))
      && (r == Some(PasswordMismatch) <==>
            !Blank(email) && !Blank(password) && !Blank(fullName) && password != confirm)
      && (r == Some(PasswordTooShort) <==>
            !Blank(email) && !Blank(password) && !Blank(fullName) && password == confirm &&
            Utf16Length(password) < MinPasswordLength)
      && (r.None? <==>
            !Blank(email) && !Blank(password) && !Blank(fullName) && password == confirm &&
            Utf16Length(password) >= MinPasswordLength)
  {
    TrimEmptyIffBlank(email);
    TrimEmptyIffBlank(password);
    TrimEmptyIffBlank(fullName);
  }

  /** A password made only of spaces is reported as missing, however long it is. */
  lemma SpacesOnlyPasswordIsMissing(email: string, fullName: string)
    requires !Blank(email) && !Blank(fullName)
    ensures ValidateRegistration(email, "      ", "      ", fullName) == Some(MissingField)
  {
    ValidationErrors(email, "      ", "      ", fullName);
    assert Blank("      ");
  }

  /** What the sign-up call answered: an error with its message, or success with or without a user;
      `SignUpThrew` is a rejected promise. */
  datatype SignUpAnswer = SignUpError(message: string) | SignUpOk(user: Option<Auth.User>) | SignUpThrew

  /** What the request insert answered. */
  datatype WriteAnswer = WriteOk | WriteError | WriteThrew

  datatype SubmitOutcome =
    | Invalid(error: FormError)
    | SignUpFailed(message: string)
    | RequestFailed
    | Unexpected
    | Submitted

  /** The request written for a new account: the form's name and e-mail as typed, status pending. */
  function RequestInsertFor(u: Auth.User, fullName: string, email: string): (ins: AdminRequestInsert)
    ensures ins.userId == u.id && ins.fullName == fullName && ins.email == email
    ensures ins.status == Some(Pending)
    ensures ins.reviewedBy.None? && ins.reviewedAt.None? && ins.rejectionReason.None?
  {
    AdminRequestInsert(u.id, fullName, email, Some(Pending), None, None, None)
  }

  class RegisterPage {
    var fullName: string
    var email: string
    var password: string
    var confirmPassword: string
    var isLoading: bool
    /** The current browser path. */
    var location: string
    /** Whether the browser holds a session. */
    var signedIn: bool
    /** The backend's accounts, by user id. */
    var accounts: set<string>
    /** The backend's `admin_requests` table. */
    var requestTable: seq<AdminRequest>

    /** The form's checks on the current field values. */
    function FormCheck(): Option<FormError>
      reads this
    {
      ValidateRegistration(email, password, confirmPassword, fullName)
    }

    /** `handleSubmit` with the backend's answers. `newId` and `now` are the id and creation time
        the backend gives the inserted row. A form that fails its checks changes nothing. */
    method Submit(signUp: SignUpAnswer, insert: WriteAnswer, newId: string, now: string)
      returns (outcome: SubmitOutcome)
      modifies this
      ensures outcome.Invalid? <==> old(FormCheck()).Some?
      ensures outcome.Invalid? ==>
        Some(outcome.error) == old(FormCheck()) && accounts == old(accounts) &&
        requestTable == old(requestTable) && location == old(location) &&
        signedIn == old(signedIn) && isLoading == old(isLoading)
      ensures !outcome.Invalid? ==> Sent(signUp, insert, newId, now, outcome)
      ensures fullName == old(fullName) && email == old(email)
      ensures password == old(password) && confirmPassword == old(confirmPassword)
    {
      var v := FormCheck();
      if v.Some? {
        return Invalid(v.value);
      }
      outcome := Send(signUp, insert, newId, now);
    }

    /** What sending a checked form does: loading ends; a failed or thrown sign-up changes no
        table; a sign-up with a user creates the account and, if the insert succeeds, one pending
        request for it; only full success signs out and moves to the sign-in page. */
    twostate predicate Sent(signUp: SignUpAnswer, insert: WriteAnswer, newId: string, now: string,
                            outcome: SubmitOutcome)
      reads this
    {
      && !isLoading
      && (signUp.SignUpThrew? ==>
            outcome == Unexpected && accounts == old(accounts) && requestTable == old(requestTable))
      && (signUp.SignUpError? ==>
            outcome == SignUpFailed(signUp.message) && accounts == old(accounts) &&
            requestTable == old(requestTable))
      && (signUp == SignUpOk(None) ==>
            outcome == Submitted && accounts == old(accounts) && requestTable == old(requestTable))
      && (signUp.SignUpOk? && signUp.user.Some? ==>
            accounts == old(accounts) + {signUp.user.value.id})
      && (signUp.SignUpOk? && signUp.user.Some? && insert.WriteOk? ==>
            outcome == Submitted &&
            requestTable == old(requestTable) + [StoredRequest(
              RequestInsertFor(signUp.user.value, old(fullName), old(email)), newId, now, Pending)])
      && (signUp.SignUpOk? && signUp.user.Some? && !insert.WriteOk? ==>
            outcome == (if insert.WriteError? then RequestFailed else Unexpected) &&
            requestTable == old(requestTable))
      && (outcome == Submitted ==> !signedIn && location == "/admin/login")
      && (outcome != Submitted ==> signedIn == old(signedIn) && location == old(location))
    }

    /** The `try` block of `handleSubmit`, reached once the checks pass. */
    method Send(signUp: SignUpAnswer, insert: WriteAnswer, newId: string, now: string)
      returns (outcome: SubmitOutcome)
      modifies this
      ensures !outcome.Invalid?
      ensures Sent(signUp, insert, newId, now, outcome)
      ensures fullName == old(fullName) && email == old(email)
      ensures password == old(password) && confirmPassword == old(confirmPassword)
    {
      isLoading := true;
      if signUp.SignUpThrew? {
        outcome := Unexpected;
      } else if signUp.SignUpError? {
        outcome := SignUpFailed(signUp.message);
      } else if signUp.user.None? {
        outcome := Submitted;
        signedIn, location := false, "/admin/login";
      } else {
        var u := signUp.user.value;
        accounts := accounts + {u.id};
        if insert.WriteOk? {
          var row := StoredRequest(RequestInsertFor(u, fullName, email), newId, now, Pending);
          requestTable := requestTable + [row];
          outcome := Submitted;
          signedIn, location := false, "/admin/login";
        } else if insert.WriteError? {
          outcome := RequestFailed;
        } else {
          outcome := Unexpected;
        }
      }
      isLoading := false;
    }
  }
}
