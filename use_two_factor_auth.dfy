/** The two-factor authentication hook: enrolling, verifying and removing
    a TOTP factor. The answers of the authentication service are inputs. */
module UseTwoFactorAuth {
  import opened Common
  import opened Toasts

  const Enabled: string := "2FA habilitado com sucesso!"
  const EnableFailed: string := "Erro ao habilitar 2FA"
  const Verified: string := "Código verificado com sucesso!"
  const InvalidCode: string := "Código inválido"
  const Disabled: string := "2FA desabilitado com sucesso!"
  const DisableFailed: string := "Erro ao desabilitar 2FA"

  /** What a successful enrolment returns: the QR code and, possibly, the
      backup codes. */
  datatype Enrollment = Enrollment(qrCode: Option<string>, backupCodes: Option<seq<string>>)

  class TwoFactorHook {
    var loading: bool
    var qrCode: Option<string>
    var backupCodes: seq<string>
    var toasts: seq<Toast>

    constructor ()
      ensures !loading && qrCode == None && backupCodes == [] && toasts == []
    {
      loading := false;
      qrCode := None;
      backupCodes := [];
      toasts := [];
    }

    /** `enable2FA`: on success the QR code and the backup codes (none
        given: the empty list) are stored; on failure both are kept and
        the error raised. */
    method Enable2FA(response: Result<Enrollment>) returns (r: Outcome)
      modifies this
      ensures r.Done? <==> response.Ok?
      ensures response.Ok? ==>
        qrCode == response.value.qrCode &&
        backupCodes == (if response.value.backupCodes.Some? then response.value.backupCodes.value else []) &&
        toasts == old(toasts) + [Toast(Success, Enabled)]
      ensures response.Err? ==>
        qrCode == old(qrCode) && backupCodes == old(backupCodes) &&
        toasts == old(toasts) + [Toast(ToastKind.Error, EnableFailed)] && r == Failed(response.error)
      ensures !loading
    {
      loading := true;
      if response.Err? {
        toasts := toasts + [Toast(ToastKind.Error, EnableFailed)];
        r := Failed(response.error);
      } else {
        qrCode := response.value.qrCode;
        backupCodes := if response.value.backupCodes.Some? then response.value.backupCodes.value else [];
        toasts := toasts + [Toast(Success, Enabled)];
        r := Done;
      }
      loading := false;
    }

    /** `verify2FACode(code)`: only a toast and the outcome; the QR code
        and the backup codes are never touched. */
    method Verify2FACode(code: string, error: Option<string>) returns (r: Outcome)
      modifies this
      ensures r.Done? <==> error.None?
      ensures error.Some? ==> r == Failed(error.value) && toasts == old(toasts) + [Toast(ToastKind.Error, InvalidCode)]
      ensures error.None? ==> toasts == old(toasts) + [Toast(Success, Verified)]
      ensures qrCode == old(qrCode) && backupCodes == old(backupCodes)
      ensures !loading
    {
      loading := true;
      if error.Some? {
        toasts := toasts + [Toast(ToastKind.Error, InvalidCode)];
        r := Failed(error.value);
      } else {
        toasts := toasts + [Toast(Success, Verified)];
        r := Done;
      }
      loading := false;
    }

    /** `disable2FA`: on success the QR code and the backup codes are
        cleared; on failure they are kept and the error raised. */
    method Disable2FA(error: Option<string>) returns (r: Outcome)
      modifies this
      ensures r.Done? <==> error.None?
      ensures error.None? ==> qrCode == None && backupCodes == [] && toasts == old(toasts) + [Toast(Success, Disabled)]
      ensures error.Some? ==>
        r == Failed(error.value) && qrCode == old(qrCode) && backupCodes == old(backupCodes) &&
        toasts == old(toasts) + [Toast(ToastKind.Error, DisableFailed)]
      ensures !loading
    {
      loading := true;
      if error.Some? {
        toasts := toasts + [Toast(ToastKind.Error, DisableFailed)];
        r := Failed(error.value);
      } else {
        qrCode := None;
        backupCodes := [];
        toasts := toasts + [Toast(Success, Disabled)];
        r := Done;
      }
      loading := false;
    }
  }
}
