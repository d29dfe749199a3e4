/** The two-factor modal: it walks the user from the initial screen through
    code verification to the backup codes, never backwards. */
module TwoFactorAuthModal {
  import opened Common
  import opened Toasts
  import opened UseTwoFactorAuth

  const CodesCopied: string := "Códigos de backup copiados!"

  datatype Step = Initial | Verify | Backup

  /** The order of the steps; the modal never goes back. */
  function Rank(s: Step): (n: nat)
    ensures n <= 2
    ensures n == 0 <==> s == Initial
    ensures n == 2 <==> s == Backup
  {
    match s
    case Initial => 0
    case Verify => 1
    case Backup => 2
  }

  /** The enable button is shown on the initial screen and disabled while
      loading. */
  predicate CanEnable(step: Step, loading: bool)
  {
    step == Initial && !loading
  }

  /** The verify screen is shown only with a (non-empty) QR code, and its
      button is disabled while loading or with an empty code. */
  predicate CanVerify(step: Step, qrCode: Option<string>, loading: bool, code: string)
  {
    step == Verify && qrCode.Some? && qrCode.value != "" && !loading && code != ""
  }

  /** The backup screen, and its copy button, is shown only with at least
      one backup code. */
  predicate CanCopy(step: Step, backupCodes: seq<string>)
  {
    step == Backup && |backupCodes| > 0
  }

  /** The copied text gives the codes back when split at line breaks,
      provided no code contains one. */
  lemma CopiedCodesRoundTrip(codes: seq<string>)
    requires |codes| > 0
    requires forall i :: 0 <= i < |codes| ==> '\n' !in codes[i]
    ensures Split(Join(codes, "\n"), '\n') == codes
  {
    SplitJoin(codes, '\n');
  }

  class TwoFactorModal {
    const hook: TwoFactorHook
    var verificationCode: string
    var step: Step
    var copiedCodes: bool
    var clipboard: Option<string>
    /** The modal's own toasts (the copy confirmation). */
    var toasts: seq<Toast>

    constructor (hook: TwoFactorHook)
      ensures this.hook == hook && verificationCode == "" && step == Initial && !copiedCodes
      ensures clipboard == None && toasts == []
    {
      this.hook := hook;
      verificationCode := "";
      step := Initial;
      copiedCodes := false;
      clipboard := None;
      toasts := [];
    }

    /** Typing into the code field. */
    method TypeCode(code: string)
      modifies this
      ensures verificationCode == code && step == old(step) && copiedCodes == old(copiedCodes)
      ensures clipboard == old(clipboard) && toasts == old(toasts)
    {
      verificationCode := code;
    }

    /** The enable button: when it can be pressed, `handleEnable2FA` moves
        to the verify step exactly when enrolment succeeded, and the hook
        stores the QR code and backup codes, or keeps them, with its
        toast. */
    method ClickEnable(response: Result<Enrollment>)
      modifies this, hook
      ensures !CanEnable(old(step), old(hook.loading)) ==>
        step == old(step) && hook.qrCode == old(hook.qrCode) && hook.backupCodes == old(hook.backupCodes) &&
        hook.toasts == old(hook.toasts) && hook.loading == old(hook.loading)
      ensures CanEnable(old(step), old(hook.loading)) ==> (step == Verify <==> response.Ok?) && !hook.loading
      ensures CanEnable(old(step), old(hook.loading)) && response.Ok? ==>
        hook.qrCode == response.value.qrCode &&
        hook.backupCodes == (if response.value.backupCodes.Some? then response.value.backupCodes.value else []) &&
        hook.toasts == old(hook.toasts) + [Toast(Success, Enabled)]
      ensures CanEnable(old(step), old(hook.loading)) && response.Err? ==>
        step == old(step) && hook.qrCode == old(hook.qrCode) && hook.backupCodes == old(hook.backupCodes) &&
        hook.toasts == old(hook.toasts) + [Toast(ToastKind.Error, EnableFailed)]
      ensures Rank(step) >= Rank(old(step))
      ensures verificationCode == old(verificationCode) && clipboard == old(clipboard) && toasts == old(toasts)
      ensures copiedCodes == old(copiedCodes)
    {
      if !CanEnable(step, hook.loading) {
        return;
      }
      var r := hook.Enable2FA(response);
      if r.Done? {
        step := Verify;
      }
    }

    /** The verify button: when it can be pressed, `handleVerifyCode`
        moves to the backup step exactly when the code was accepted, with
        the hook's verified or invalid-code toast; the QR code and backup
        codes stay as they were. */
    method ClickVerify(error: Option<string>)
      modifies this, hook
      ensures !CanVerify(old(step), old(hook.qrCode), old(hook.loading), old(verificationCode)) ==>
        step == old(step) && hook.toasts == old(hook.toasts) && hook.loading == old(hook.loading)
      ensures CanVerify(old(step), old(hook.qrCode), old(hook.loading), old(verificationCode)) ==>
        (step == Backup <==> error.None?) && (error.Some? ==> step == Verify) && !hook.loading &&
        hook.toasts == old(hook.toasts) +
          [if error.None? then Toast(Success, Verified) else Toast(ToastKind.Error, InvalidCode)]
      ensures hook.qrCode == old(hook.qrCode) && hook.backupCodes == old(hook.backupCodes)
      ensures Rank(step) >= Rank(old(step))
      ensures verificationCode == old(verificationCode) && clipboard == old(clipboard) && toasts == old(toasts)
      ensures copiedCodes == old(copiedCodes)
    {
      if !CanVerify(step, hook.qrCode, hook.loading, verificationCode) {
        return;
      }
      var r := hook.Verify2FACode(verificationCode, error);
      if r.Done? {
        step := Backup;
      }
    }

    /** The copy button: the codes joined by line breaks go to the
        clipboard, the copied flag is set and a toast shown. */
    method ClickCopy()
      modifies this
      ensures !CanCopy(old(step), hook.backupCodes) ==>
        clipboard == old(clipboard) && copiedCodes == old(copiedCodes) && toasts == old(toasts)
      ensures CanCopy(old(step), hook.backupCodes) ==>
        clipboard == Some(Join(hook.backupCodes, "\n")) && copiedCodes &&
        toasts == old(toasts) + [Toast(Success, CodesCopied)]
      ensures step == old(step) && verificationCode == old(verificationCode)
    {
      if !CanCopy(step, hook.backupCodes) {
        return;
      }
      clipboard := Some(Join(hook.backupCodes, "\n"));
      copiedCodes := true;
      toasts := toasts + [Toast(Success, CodesCopied)];
    }
  }
}
