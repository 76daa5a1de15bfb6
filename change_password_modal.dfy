/**
 * The change-password dialog (`ChangePasswordModal` in src/components/ChangePasswordModal.tsx):
 * two ordered checks on the new password, then the form is cleared and the dialog closes.
 * The current password is collected but never checked. The dialog's `isOpen` is owned by
 * its parent; `onClose()` is modelled as clearing it.
 */
module ChangePasswordModal {
  import opened JsText

  /** Minimum JavaScript length (UTF-16 code units) of a new password. */
  const MinPasswordLength := 6

  datatype PasswordForm = PasswordForm(
    currentPassword: string,
    newPassword: string,
    confirmPassword: string,
    isLoading: bool,
    isOpen: bool)

  /** Which notification an attempt ends with: the two rejections, or success. */
  datatype Verdict = Mismatch | TooShort | Changed

  datatype Attempt = Attempt(form: PasswordForm, verdict: Verdict)

  /** A fresh form: all fields empty, so submitting is not offered. */
  function Initial(): (r: PasswordForm)
    ensures !SubmitOffered(r) && !r.isLoading && r.isOpen
  {
    PasswordForm("", "", "", false, true)
  }

  /** The submit button is enabled only when all three fields are filled and nothing loads. */
  predicate SubmitOffered(s: PasswordForm) {
    s.currentPassword != "" && s.newPassword != "" && s.confirmPassword != "" && !s.isLoading
  }

  /** `handleChangePassword`. */
  function ChangeStep(s: PasswordForm): (r: Attempt)
    ensures r.verdict == Mismatch <==> s.newPassword != s.confirmPassword
    ensures r.verdict == TooShort <==> s.newPassword == s.confirmPassword && Utf16Length(s.newPassword) < MinPasswordLength
    ensures r.verdict != Changed ==> r.form == s
    ensures r.verdict == Changed ==>
      r.form == PasswordForm("", "", "", false, false)
  {
    if s.newPassword != s.confirmPassword then Attempt(s, Mismatch)
    else if Utf16Length(s.newPassword) < MinPasswordLength then Attempt(s, TooShort)
    else Attempt(s.(currentPassword := "", newPassword := "", confirmPassword := "", isLoading := false, isOpen := false), Changed)
  }

  /** The mismatch check comes first: a short, mismatching password is reported as a mismatch. */
  lemma MismatchBeforeLength(s: PasswordForm)
    requires s.newPassword != s.confirmPassword && Utf16Length(s.newPassword) < MinPasswordLength
    ensures ChangeStep(s).verdict == Mismatch
  {
  }

  /** The current password plays no part in the outcome. */
  lemma CurrentPasswordIgnored(s: PasswordForm, other: string)
    ensures ChangeStep(s.(currentPassword := other)).verdict == ChangeStep(s).verdict
    ensures ChangeStep(s).verdict == Changed ==> ChangeStep(s.(currentPassword := other)) == ChangeStep(s)
  {
  }

  /** The handler itself accepts an empty current password; only the submit button keeps it from running. */
  lemma EmptyCurrentPasswordAccepted(password: string)
    requires Utf16Length(password) >= MinPasswordLength
    ensures var s := PasswordForm("", password, password, false, true);
      !SubmitOffered(s) && ChangeStep(s).verdict == Changed
  {
  }

  /**
   * The length check counts UTF-16 code units: three characters outside the Basic
   * Multilingual Plane make six units and are long enough.
   */
  lemma AstralPasswordLongEnough(current: string)
    ensures var p := "\U{1F600}\U{1F600}\U{1F600}";
      |p| == 3 && ChangeStep(PasswordForm(current, p, p, false, true)).verdict == Changed
  {
    var p := "\U{1F600}\U{1F600}\U{1F600}";
    assert p[1..][1..][1..] == [];
    assert Utf16Length(p) == 6;
  }

  /** After a successful change the form is empty again, so submitting is no longer offered. */
  lemma ChangedFormNotResubmittable(s: PasswordForm)
    requires ChangeStep(s).verdict == Changed
    ensures !SubmitOffered(ChangeStep(s).form) && ChangeStep(s).form.(isOpen := true) == Initial()
  {
  }

  class PasswordDialog {
    var currentPassword: string
    var newPassword: string
    var confirmPassword: string
    var isLoading: bool
    /** The parent's `isOpen`, cleared by `onClose()`. */
    var isOpen: bool

    function State(): PasswordForm
      reads this
    {
      PasswordForm(currentPassword, newPassword, confirmPassword, isLoading, isOpen)
    }

    constructor ()
      ensures State() == Initial()
    {
      currentPassword, newPassword, confirmPassword := "", "", "";
      isLoading, isOpen := false, true;
    }

    method SetFields(current: string, newValue: string, confirm: string)
      modifies this
      ensures State() == old(State()).(currentPassword := current, newPassword := newValue, confirmPassword := confirm)
    {
      currentPassword, newPassword, confirmPassword := current, newValue, confirm;
    }

    method HandleChangePassword() returns (verdict: Verdict)
      modifies this
      ensures Attempt(State(), verdict) == ChangeStep(old(State()))
    {
      if newPassword != confirmPassword {
        return Mismatch;
      }
      if Utf16Length(newPassword) < MinPasswordLength {
        return TooShort;
      }
      isLoading := true;
      currentPassword := "";
      newPassword := "";
      confirmPassword := "";
      isOpen := false;
      isLoading := false;
      verdict := Changed;
    }
  }
}
