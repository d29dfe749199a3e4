/** Support-staff sign-in: the account is looked up by username, the
    password is checked against its hash, then, for accounts with MFA, the
    one-time token. Hash comparison and token verification are foreign code,
    given as predicates. */
module SupportAuth {
  import opened Common

  /** A row of `support_users`. */
  datatype SupportUserRow = SupportUserRow(id: string, username: string, passwordHash: string,
                                           permissions: seq<string>, mfaEnabled: bool, mfaSecret: string)

  /** What a successful sign-in returns: no hash and no secret. */
  datatype SupportUser = SupportUser(id: string, username: string, permissions: seq<string>, mfaEnabled: bool)

  const InvalidCredentials: string := "Invalid credentials"
  const MfaTokenRequired: string := "MFA token required"
  const InvalidMfaToken: string := "Invalid MFA token"

  /** `!mfaToken`: no token, or the empty string. */
  predicate MissingToken(mfaToken: Option<string>)
  {
    mfaToken.None? || mfaToken.value == ""
  }

  /** `authenticateSupport`. `lookup` is the outcome of the `.single()`
      query (an error, or the row if one was found); `passwordMatches(p, h)`
      is `bcrypt.compare` and `tokenValid(t, s)` is `authenticator.verify`. */
  function AuthenticateSupport(password: string, mfaToken: Option<string>, lookup: Result<Option<SupportUserRow>>,
                               passwordMatches: (string, string) -> bool,
                               tokenValid: (string, string) -> bool): (r: Result<SupportUser>)
    ensures r.Ok? ==> lookup.Ok? && lookup.value.Some?
    ensures r.Ok? ==> var u := lookup.value.value;
      r.value == SupportUser(u.id, u.username, u.permissions, u.mfaEnabled)
    ensures r.Err? ==> r.error in {InvalidCredentials, MfaTokenRequired, InvalidMfaToken}
  {
    if lookup.Err? || lookup.value.None? then Err(InvalidCredentials)
    else
      var u := lookup.value.value;
      if !passwordMatches(password, u.passwordHash) then Err(InvalidCredentials)
      else if u.mfaEnabled && MissingToken(mfaToken) then Err(MfaTokenRequired)
      else if u.mfaEnabled && !tokenValid(mfaToken.value, u.mfaSecret) then Err(InvalidMfaToken)
      else Ok(SupportUser(u.id, u.username, u.permissions, u.mfaEnabled))
  }

  /** Sign-in succeeds exactly when the account exists, the password matches
      and, if MFA is on, a non-empty token verifies against the account's
      secret. */
  lemma SucceedsIff(password: string, mfaToken: Option<string>, lookup: Result<Option<SupportUserRow>>,
                    passwordMatches: (string, string) -> bool, tokenValid: (string, string) -> bool)
    ensures AuthenticateSupport(password, mfaToken, lookup, passwordMatches, tokenValid).Ok? <==>
      lookup.Ok? && lookup.value.Some? &&
      passwordMatches(password, lookup.value.value.passwordHash) &&
      (lookup.value.value.mfaEnabled ==>
        !MissingToken(mfaToken) && tokenValid(mfaToken.value, lookup.value.value.mfaSecret))
  {
  }

  /** An unknown username and a wrong password give the same error, and the
      password is checked before anything about MFA: with a wrong password
      the token plays no part. */
  lemma CredentialsCheckedFirst(password: string, mfaToken: Option<string>, other: Option<string>,
                                lookup: Result<Option<SupportUserRow>>,
                                passwordMatches: (string, string) -> bool, tokenValid: (string, string) -> bool)
    requires lookup.Err? || lookup.value.None? || !passwordMatches(password, lookup.value.value.passwordHash)
    ensures AuthenticateSupport(password, mfaToken, lookup, passwordMatches, tokenValid) == Err(InvalidCredentials)
    ensures AuthenticateSupport(password, mfaToken, lookup, passwordMatches, tokenValid)
         == AuthenticateSupport(password, other, lookup, passwordMatches, tokenValid)
  {
  }

  /** For an account without MFA the token is never looked at. */
  lemma TokenIgnoredWithoutMfa(password: string, mfaToken: Option<string>, row: SupportUserRow,
                               passwordMatches: (string, string) -> bool, tokenValid: (string, string) -> bool)
    requires !row.mfaEnabled
    ensures AuthenticateSupport(password, mfaToken, Ok(Some(row)), passwordMatches, tokenValid)
         == AuthenticateSupport(password, None, Ok(Some(row)), passwordMatches, tokenValid)
  {
  }

  /** For an MFA account with the right password: no token (or an empty one)
      gives `MFA token required`, a token that fails verification gives
      `Invalid MFA token`. */
  lemma MfaErrors(password: string, mfaToken: Option<string>, row: SupportUserRow,
                  passwordMatches: (string, string) -> bool, tokenValid: (string, string) -> bool)
    requires row.mfaEnabled && passwordMatches(password, row.passwordHash)
    ensures MissingToken(mfaToken) ==>
      AuthenticateSupport(password, mfaToken, Ok(Some(row)), passwordMatches, tokenValid) == Err(MfaTokenRequired)
    ensures !MissingToken(mfaToken) && !tokenValid(mfaToken.value, row.mfaSecret) ==>
      AuthenticateSupport(password, mfaToken, Ok(Some(row)), passwordMatches, tokenValid) == Err(InvalidMfaToken)
  {
  }
}
