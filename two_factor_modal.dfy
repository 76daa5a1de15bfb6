/**
 * The two-factor dialog (`TwoFactorModal` in src/components/TwoFactorModal.tsx): a switch
 * that either opens the setup view (turning on) or disables two-factor at once (turning
 * off), and an enable action that accepts only the fixed demo code.
 */
module TwoFactorModal {
  import opened JsText

  /** The only code the demo accepts. */
  const DemoCode := "123456"

  /** Length of the one-time code the input collects and the enable button waits for. */
  const CodeLength := 6

  datatype TwoFactor = TwoFactor(isEnabled: bool, showSetup: bool, verificationCode: string, isLoading: bool)

  /** A fresh dialog: two-factor off, the switch offered, no enable action. */
  function Initial(): (r: TwoFactor)
    ensures !r.isEnabled && ToggleOffered(r) && !EnableOffered(r)
  {
    TwoFactor(false, false, "", false)
  }

  /** The switch is shown only outside the setup view, and is disabled while loading. */
  predicate ToggleOffered(s: TwoFactor) {
    !s.showSetup && !s.isLoading
  }

  /**
   * The enable button is shown in the setup view and disabled unless the code's
   * JavaScript length is 6 and nothing loads.
   */
  predicate EnableOffered(s: TwoFactor) {
    s.showSetup && Utf16Length(s.verificationCode) == CodeLength && !s.isLoading
  }

  /** The switch and the enable button belong to different views and are never offered together. */
  lemma SwitchOrEnable(s: TwoFactor)
    ensures !(ToggleOffered(s) && EnableOffered(s))
  {
  }

  /** The demo code has JavaScript length 6, so the enable button accepts it. */
  lemma DemoCodeLength()
    ensures Utf16Length(DemoCode) == CodeLength
  {
    BmpLength(DemoCode);
  }

  /** `setVerificationCode`, the code input's change handler. */
  function EnterCode(s: TwoFactor, code: string): (r: TwoFactor)
    ensures r.verificationCode == code
    ensures r.isEnabled == s.isEnabled && r.showSetup == s.showSetup && r.isLoading == s.isLoading
  {
    s.(verificationCode := code)
  }

  /** `handleDisable2FA`: two-factor is off and loading has finished. */
  function DisableStep(s: TwoFactor): (r: TwoFactor)
    ensures !r.isEnabled && !r.isLoading
    ensures r.showSetup == s.showSetup && r.verificationCode == s.verificationCode
  {
    s.(isEnabled := false, isLoading := false)
  }

  /** `handleEnable2FA`: the demo code turns two-factor on and leaves setup; any other code changes nothing but loading. */
  function EnableStep(s: TwoFactor): (r: TwoFactor)
    ensures !r.isLoading
    ensures r.verificationCode == s.verificationCode
    ensures s.verificationCode == DemoCode ==> r.isEnabled && !r.showSetup
    ensures s.verificationCode != DemoCode ==> r.isEnabled == s.isEnabled && r.showSetup == s.showSetup
  {
    if s.verificationCode == DemoCode then s.(isEnabled := true, showSetup := false, isLoading := false)
    else s.(isLoading := false)
  }

  /** `handleToggle2FA(enabled)`. */
  function ToggleStep(s: TwoFactor, enabled: bool): (r: TwoFactor)
    ensures enabled == s.isEnabled ==> r == s
    ensures r.verificationCode == s.verificationCode
    ensures enabled && !s.isEnabled ==> r.showSetup && r.isEnabled == s.isEnabled
    ensures enabled && !s.isEnabled ==> r.verificationCode == s.verificationCode && r.isLoading == s.isLoading
    ensures !enabled && s.isEnabled ==> !r.isEnabled && !r.isLoading && r.showSetup == s.showSetup
  {
    if enabled && !s.isEnabled then s.(showSetup := true)
    else if !enabled && s.isEnabled then DisableStep(s)
    else s
  }

  /** Turning the switch on and entering the demo code enables two-factor and closes the setup view. */
  lemma EnableWithDemoCode(s: TwoFactor)
    requires ToggleOffered(s) && !s.isEnabled
    ensures var t := EnterCode(ToggleStep(s, true), DemoCode);
      && EnableOffered(t)
      && EnableStep(t).isEnabled && !EnableStep(t).showSetup
      && ToggleOffered(EnableStep(t))
  {
    DemoCodeLength();
  }

  /** A wrong code keeps the setup view open with the code entered, so the user can retry. */
  lemma WrongCodeAllowsRetry(s: TwoFactor, code: string)
    requires s.showSetup && !s.isEnabled && code != DemoCode
    ensures var r := EnableStep(EnterCode(s, code));
      && !r.isEnabled && r.showSetup && !r.isLoading
      && EnableStep(EnterCode(r, DemoCode)).isEnabled
  {
  }

  /** Any code of JavaScript length 6 other than the demo code is offered to the enable action and then rejected. */
  lemma OfferedIsNotAccepted(s: TwoFactor, code: string)
    requires s.showSetup && !s.isLoading && !s.isEnabled
    requires Utf16Length(code) == CodeLength && code != DemoCode
    ensures EnableOffered(EnterCode(s, code))
    ensures !EnableStep(EnterCode(s, code)).isEnabled && EnableStep(EnterCode(s, code)).showSetup
  {
  }

  /** Toggling twice to the same value is the same as toggling once. */
  lemma ToggleIdempotent(s: TwoFactor, enabled: bool)
    ensures ToggleStep(ToggleStep(s, enabled), enabled) == ToggleStep(s, enabled)
  {
  }

  /** The full cycle from a fresh dialog: turn on, enter the demo code, enable, turn off. */
  lemma EnableThenDisable()
    ensures var on := EnableStep(EnterCode(ToggleStep(Initial(), true), DemoCode));
      && on.isEnabled
      && !ToggleStep(on, false).isEnabled
      && ToggleStep(on, false).showSetup == false
  {
  }

  class TwoFactorDialog {
    var isEnabled: bool
    var showSetup: bool
    var verificationCode: string
    var isLoading: bool

    function State(): TwoFactor
      reads this
    {
      TwoFactor(isEnabled, showSetup, verificationCode, isLoading)
    }

    constructor ()
      ensures State() == Initial()
    {
      isEnabled, showSetup, verificationCode, isLoading := false, false, "", false;
    }

    method SetVerificationCode(code: string)
      modifies this
      ensures State() == EnterCode(old(State()), code)
    {
      verificationCode := code;
    }

    method HandleToggle(enabled: bool)
      modifies this
      ensures State() == ToggleStep(old(State()), enabled)
    {
      if enabled && !isEnabled {
        showSetup := true;
      } else if !enabled && isEnabled {
        HandleDisable();
      }
    }

    method HandleEnable()
      modifies this
      ensures State() == EnableStep(old(State()))
    {
      isLoading := true;
      if verificationCode == DemoCode {
        isEnabled := true;
        showSetup := false;
      }
      isLoading := false;
    }

    method HandleDisable()
      modifies this
      ensures State() == DisableStep(old(State()))
    {
      isLoading := true;
      isEnabled := false;
      isLoading := false;
    }
  }
}
