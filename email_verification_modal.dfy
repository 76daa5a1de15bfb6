/**
 * The email verification dialog (`EmailVerificationModal` in
 * src/components/EmailVerificationModal.tsx): send a code to an address, then verify any
 * code of the right length. The dialog's `isOpen` is owned by its parent; `onClose()` is
 * modelled as clearing it.
 */
module EmailVerificationModal {
  import opened Wrappers
  import opened JsText

  /** JavaScript length of the code the verify action insists on. Its content is never checked. */
  const CodeLength := 6

  datatype Verification = Verification(
    userEmail: string,
    verificationCode: string,
    isCodeSent: bool,
    isLoading: bool,
    isVerifying: bool,
    isOpen: bool)

  /** `useState(email || "")` and the other initial values, in a dialog its parent has opened. */
  function Initial(email: Option<string>): (r: Verification)
    ensures r.userEmail == (if email.Some? then email.value else "")
    ensures !r.isCodeSent && !r.isLoading && !r.isVerifying && r.verificationCode == "" && r.isOpen
  {
    Verification(if email.Some? then email.value else "", "", false, false, false, true)
  }

  /** The send button: shown before a code is sent, disabled without an address or while loading. */
  predicate SendOffered(s: Verification) {
    !s.isCodeSent && s.userEmail != "" && !s.isLoading
  }

  /** The verify button: shown once a code is sent, disabled unless six characters are entered and no verify runs. */
  predicate VerifyOffered(s: Verification) {
    s.isCodeSent && Utf16Length(s.verificationCode) == CodeLength && !s.isVerifying
  }

  /** The resend link: shown once a code is sent, disabled while loading. */
  predicate ResendOffered(s: Verification) {
    s.isCodeSent && !s.isLoading
  }

  /** Sending belongs to the address view, verifying and resending to the code view: never both. */
  lemma SendOrVerify(s: Verification)
    ensures SendOffered(s) ==> !VerifyOffered(s) && !ResendOffered(s)
  {
  }

  /** The address field's change handler. */
  function EnterEmail(s: Verification, email: string): (r: Verification)
    ensures r.userEmail == email && r.(userEmail := s.userEmail) == s
  {
    s.(userEmail := email)
  }

  /** The code input's change handler. */
  function EnterCode(s: Verification, code: string): (r: Verification)
    ensures r.verificationCode == code && r.(verificationCode := s.verificationCode) == s
  {
    s.(verificationCode := code)
  }

  /** `handleSendCode`: an empty address returns early; otherwise the code is marked sent. */
  function SendStep(s: Verification): (r: Verification)
    ensures s.userEmail == "" ==> r == s
    ensures s.userEmail != "" ==> r.isCodeSent && !r.isLoading
    ensures r.userEmail == s.userEmail && r.verificationCode == s.verificationCode
    ensures r.isVerifying == s.isVerifying && r.isOpen == s.isOpen
  {
    if s.userEmail == "" then s
    else s.(isCodeSent := true, isLoading := false)
  }

  /** `handleVerifyCode`: a code of the wrong length changes nothing; any other code verifies. */
  function VerifyStep(s: Verification): (r: Verification)
    ensures Utf16Length(s.verificationCode) != CodeLength ==> r == s
    ensures Utf16Length(s.verificationCode) == CodeLength ==>
      !r.isOpen && !r.isCodeSent && r.verificationCode == "" && !r.isVerifying
    ensures r.userEmail == s.userEmail && r.isLoading == s.isLoading
  {
    if Utf16Length(s.verificationCode) != CodeLength then s
    else s.(isOpen := false, isCodeSent := false, verificationCode := "", isVerifying := false)
  }

  /** `handleResendCode`: clear the code, then send. */
  function ResendStep(s: Verification): (r: Verification)
    ensures r.verificationCode == ""
    ensures r.userEmail == s.userEmail && r.isVerifying == s.isVerifying && r.isOpen == s.isOpen
    ensures s.userEmail == "" ==> r == s.(verificationCode := "")
    ensures s.userEmail != "" ==> r.isCodeSent && !r.isLoading
  {
    SendStep(s.(verificationCode := ""))
  }

  /** Verification never looks at the code's characters: two codes of the same length lead to the same state. */
  lemma VerifyIgnoresContent(s: Verification, c1: string, c2: string)
    requires Utf16Length(c1) == Utf16Length(c2)
    ensures VerifyStep(EnterCode(s, c1)).(verificationCode := "") == VerifyStep(EnterCode(s, c2)).(verificationCode := "")
    ensures Utf16Length(c1) == CodeLength ==> VerifyStep(EnterCode(s, c1)) == VerifyStep(EnterCode(s, c2))
  {
  }

  /** Resend with an empty address still clears the code, and does nothing else. */
  lemma ResendWithoutEmail(s: Verification)
    requires s.userEmail == ""
    ensures ResendStep(s) == s.(verificationCode := "")
  {
  }

  /** After a resend the old code is gone, so verifying waits for a new code to be entered. */
  lemma ResendRequiresNewCode(s: Verification)
    requires ResendOffered(s)
    ensures !VerifyOffered(ResendStep(s))
    ensures s.userEmail != "" ==> ResendOffered(ResendStep(s))
  {
  }

  /** The happy path: send to an address, enter any six characters, verify; the dialog closes. */
  lemma SendThenVerify(email: string, code: string)
    requires email != "" && Utf16Length(code) == CodeLength
    ensures var sent := SendStep(Initial(Some(email)));
      && SendOffered(Initial(Some(email)))
      && sent.isCodeSent
      && VerifyOffered(EnterCode(sent, code))
      && var done := VerifyStep(EnterCode(sent, code));
         !done.isOpen && !done.isCodeSent && done.verificationCode == "" && done.userEmail == email
  {
  }

  /** A verified dialog is back at the address view, where sending is offered again for the same address. */
  lemma VerifyReturnsToSend(s: Verification)
    requires VerifyOffered(s) && !s.isLoading && s.userEmail != ""
    ensures SendOffered(VerifyStep(s))
  {
  }

  class VerificationDialog {
    var userEmail: string
    var verificationCode: string
    var isCodeSent: bool
    var isLoading: bool
    var isVerifying: bool
    /** The parent's `isOpen`, cleared by `onClose()`. */
    var isOpen: bool

    function State(): Verification
      reads this
    {
      Verification(userEmail, verificationCode, isCodeSent, isLoading, isVerifying, isOpen)
    }

    constructor (email: Option<string>)
      ensures State() == Initial(email)
    {
      userEmail := if email.Some? then email.value else "";
      verificationCode := "";
      isCodeSent, isLoading, isVerifying := false, false, false;
      isOpen := true;
    }

    method SetUserEmail(email: string)
      modifies this
      ensures State() == EnterEmail(old(State()), email)
    {
      userEmail := email;
    }

    method SetVerificationCode(code: string)
      modifies this
      ensures State() == EnterCode(old(State()), code)
    {
      verificationCode := code;
    }

    method HandleSendCode()
      modifies this
      ensures State() == SendStep(old(State()))
    {
      if userEmail == "" {
        return;
      }
      isLoading := true;
      isCodeSent := true;
      isLoading := false;
    }

    method HandleVerifyCode()
      modifies this
      ensures State() == VerifyStep(old(State()))
    {
      if Utf16Length(verificationCode) != CodeLength {
        return;
      }
      isVerifying := true;
      isOpen := false;
      isCodeSent := false;
      verificationCode := "";
      isVerifying := false;
    }

    method HandleResendCode()
      modifies this
      ensures State() == ResendStep(old(State()))
    {
      verificationCode := "";
      HandleSendCode();
    }
  }
}
