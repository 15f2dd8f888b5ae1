/** The password change of the profile page (app/profile/profile-client.tsx,
    `handleUpdatePassword`): the two checks made before the update call, in
    their order, and the reset of the three password fields on success. */
module ProfileForm {
  import opened Common

  const MismatchMessage: string := "As senhas não coincidem"
  const TooShortMessage: string := "A senha deve ter pelo menos 6 caracteres"
  const UpdatedMessage: string := "Senha atualizada com sucesso!"
  const UpdateFailedMessage: string := "Erro ao atualizar senha"
  const MinPasswordLength: nat := 6

  /** The error the checks report, if any: a mismatch is reported before a
      short password. */
  function Validate(newPassword: string, confirmPassword: string): (err: Option<string>)
    ensures newPassword != confirmPassword ==> err == Some(MismatchMessage)
    ensures newPassword == confirmPassword && |newPassword| < MinPasswordLength ==> err == Some(TooShortMessage)
    ensures err.None? <==> newPassword == confirmPassword && |newPassword| >= MinPasswordLength
  {
    if newPassword != confirmPassword then Some(MismatchMessage)
    else if |newPassword| < MinPasswordLength then Some(TooShortMessage)
    else None
  }

  /** What one submission does: the toast shown, and the password the
      update was called with (`None` when it was not called). */
  datatype Outcome = Outcome(toast: string, updateCalledWith: Option<string>)

  class PasswordForm {
    var currentPassword: string
    var newPassword: string
    var confirmPassword: string

    constructor ()
      ensures currentPassword == "" && newPassword == "" && confirmPassword == ""
    {
      currentPassword := "";
      newPassword := "";
      confirmPassword := "";
    }

    /** handleUpdatePassword. `updateFails` stands for the update throwing. */
    method HandleUpdatePassword(updateFails: bool) returns (out: Outcome)
      modifies this
      ensures Validate(old(newPassword), old(confirmPassword)).Some? ==>
        && out == Outcome(Validate(old(newPassword), old(confirmPassword)).value, None)
        && currentPassword == old(currentPassword) && newPassword == old(newPassword)
        && confirmPassword == old(confirmPassword)
      ensures Validate(old(newPassword), old(confirmPassword)).None? ==>
        out.updateCalledWith == Some(old(newPassword))
      ensures Validate(old(newPassword), old(confirmPassword)).None? && !updateFails ==>
        && out.toast == UpdatedMessage
        && currentPassword == "" && newPassword == "" && confirmPassword == ""
      ensures Validate(old(newPassword), old(confirmPassword)).None? && updateFails ==>
        && out.toast == UpdateFailedMessage
        && currentPassword == old(currentPassword) && newPassword == old(newPassword)
        && confirmPassword == old(confirmPassword)
    {
      if newPassword != confirmPassword {
        return Outcome(MismatchMessage, None);
      }
      if |newPassword| < MinPasswordLength {
        return Outcome(TooShortMessage, None);
      }
      var sent := newPassword;
      if updateFails {
        return Outcome(UpdateFailedMessage, Some(sent));
      }
      currentPassword := "";
      newPassword := "";
      confirmPassword := "";
      out := Outcome(UpdatedMessage, Some(sent));
    }
  }

  /** A short password typed twice differently is reported as a mismatch:
      the mismatch check runs first. */
  lemma MismatchReportedFirst(newPassword: string, confirmPassword: string)
    requires newPassword != confirmPassword && |newPassword| < MinPasswordLength
    ensures Validate(newPassword, confirmPassword) == Some(MismatchMessage)
  {
  }

  /** The update is only ever sent a password of at least six characters
      that the user confirmed. */
  lemma AcceptedPasswordsAreConfirmed(newPassword: string, confirmPassword: string)
    requires Validate(newPassword, confirmPassword).None?
    ensures newPassword == confirmPassword && |newPassword| >= 6
  {
  }
}
