/** The settings page's password change: two ordered checks (the confirmation
    must match, then the password must be long enough), one update of the
    signed-in account, and the fields cleared only on success. */
module Settings {
  import opened Common
  import opened Strings
  import Registration

  datatype PasswordError = Mismatch | TooShort

  /** The shortest new password accepted, in UTF-16 code units. */
  const MinPasswordLength: nat := 6

  /** `handleUpdatePassword`'s checks, mismatch first; nothing is trimmed or checked for blankness. */
  function ValidatePasswordChange(newPassword: string, confirm: string): (r: Option<PasswordError>)
    ensures r == Some(Mismatch) <==> newPassword != confirm
    ensures r == Some(TooShort) <==> newPassword == confirm && Utf16Length(newPassword) < MinPasswordLength
    ensures r.None? <==> newPassword == confirm && Utf16Length(newPassword) >= MinPasswordLength
  {
    if newPassword != confirm then Some(Mismatch)
    else if Utf16Length(newPassword) < MinPasswordLength then Some(TooShort)
    else None
  }

  /** A password the registration form accepts passes the password change too. */
  lemma RegisteredPasswordsAreChangeable(email: string, password: string, confirm: string, fullName: string)
    requires Registration.ValidateRegistration(email, password, confirm, fullName).None?
    ensures ValidatePasswordChange(password, confirm).None?
  {
  }

  /** The converse fails: six spaces pass the password change, which does not trim, while the
      registration form reports them as missing. */
  lemma BlankPasswordOnlyChangeable(email: string, fullName: string)
    ensures ValidatePasswordChange("      ", "      ").None?
    ensures Registration.ValidateRegistration(email, "      ", "      ", fullName) == Some(Registration.MissingField)
  {
    Registration.ValidationErrors(email, "      ", "      ", fullName);
    assert Blank("      ");
  }

  datatype UpdateOutcome = Invalid(error: PasswordError) | UpdateFailed | Updated

  class SettingsPage {
    var newPassword: string
    var confirmPassword: string
    var isUpdating: bool
    /** The signed-in account's password at the backend. */
    var accountPassword: string

    constructor (accountPassword: string)
      ensures newPassword == "" && confirmPassword == "" && !isUpdating
      ensures this.accountPassword == accountPassword
    {
      newPassword, confirmPassword, isUpdating := "", "", false;
      this.accountPassword := accountPassword;
    }

    /** `handleUpdatePassword` with the update call's success. A form failing a check changes
        nothing; the update is reached only when both pass; on success the account takes the new
        password and both fields are cleared, on failure they are kept; updating ends either way. */
    method UpdatePassword(ok: bool) returns (outcome: UpdateOutcome)
      modifies this
      ensures var v := ValidatePasswordChange(old(newPassword), old(confirmPassword));
        v.Some? ==>
          outcome == Invalid(v.value) && accountPassword == old(accountPassword) &&
          newPassword == old(newPassword) && confirmPassword == old(confirmPassword) &&
          isUpdating == old(isUpdating)
      ensures var v := ValidatePasswordChange(old(newPassword), old(confirmPassword));
        v.None? ==>
          && !isUpdating
          && outcome == (if ok then Updated else UpdateFailed)
          && accountPassword == (if ok then old(newPassword) else old(accountPassword))
          && newPassword == (if ok then "" else old(newPassword))
          && confirmPassword == (if ok then "" else old(confirmPassword))
    {
      var v := ValidatePasswordChange(newPassword, confirmPassword);
      if v.Some? {
        return Invalid(v.value);
      }
      isUpdating := true;
      if ok {
        accountPassword := newPassword;
        newPassword := "";
        confirmPassword := "";
        outcome := Updated;
      } else {
        outcome := UpdateFailed;
      }
      isUpdating := false;
    }
  }
}
