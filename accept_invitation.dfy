/**
 * The `/accept-invitation` page: the invited member chooses a password, which is checked
 * in the browser before the token and the password are sent to the backend.
 */
module AcceptInvitationPage {
  import opened Common
  import opened Browser

  const MISSING_TOKEN: string := "Invalid or missing invitation token"
  const INVALID_TOKEN: string := "Invalid invitation token"
  const TOO_SHORT: string := "Password must be at least 8 characters"
  const MISMATCH: string := "Passwords do not match"
  const REJECTED: string := "Failed to accept invitation"
  const NETWORK_ERROR: string := "An error occurred. Please try again."

  /** The shortest password the form lets through. */
  const MIN_PASSWORD_LENGTH: nat := 8

  /**
   * The checks in the order the form runs them; `None` when all pass. Only the first
   * failure is reported.
   */
  function Validate(token: Option<string>, password: string, confirm: string): (error: Option<string>)
    ensures error.None? <==> Truthy(token) && |password| >= MIN_PASSWORD_LENGTH && password == confirm
    ensures !Truthy(token) ==> error == Some(INVALID_TOKEN)
    ensures Truthy(token) && |password| < MIN_PASSWORD_LENGTH ==> error == Some(TOO_SHORT)
    ensures Truthy(token) && |password| >= MIN_PASSWORD_LENGTH && password != confirm ==> error == Some(MISMATCH)
  {
    if !Truthy(token) then Some(INVALID_TOKEN)
    else if |password| < MIN_PASSWORD_LENGTH then Some(TOO_SHORT)
    else if password != confirm then Some(MISMATCH)
    else None
  }

  /** A password of exactly eight characters, typed twice, is accepted. */
  lemma EightCharactersSuffice(token: string, password: string)
    requires token != "" && |password| == 8
    ensures Validate(Some(token), password, password) == None
  {
  }

  /** What `POST /api/auth/accept-invitation` answers. */
  datatype Reply = Accepted(accessToken: string, refreshToken: string) | Rejected(detail: Option<string>) | Unreachable

  class InvitationForm {
    var password: string
    var confirmPassword: string
    var loading: bool
    var error: string

    /** The page opens with empty fields; without a token it shows the missing-token error at once. */
    constructor (token: Option<string>)
      ensures password == "" && confirmPassword == "" && !loading
      ensures error == if Truthy(token) then "" else MISSING_TOKEN
    {
      password, confirmPassword, loading := "", "", false;
      error := if Truthy(token) then "" else MISSING_TOKEN;
    }

    /**
     * `handleSubmit`: clears the error, runs the checks and, when they pass, sends the
     * request. `sent` says whether a request went out. The form is not loading afterwards in
     * any outcome that sent one.
     */
    method HandleSubmit(token: Option<string>, reply: Reply, storage: LocalStorage) returns (sent: bool, nav: Navigation)
      modifies this, storage
      ensures password == old(password) && confirmPassword == old(confirmPassword)
      ensures sent <==> Validate(token, password, confirmPassword).None?
      ensures !sent ==>
        error == Validate(token, password, confirmPassword).value
        && loading == old(loading) && nav == Stay && storage.items == old(storage.items)
      ensures sent ==> !loading
      ensures sent && reply.Accepted? ==>
        error == "" && nav == GoTo("/dashboard")
        && storage.items == WithTokens(old(storage.items), reply.accessToken, reply.refreshToken)
      ensures sent && reply.Rejected? ==>
        error == OrElse(reply.detail, REJECTED) && nav == Stay && storage.items == old(storage.items)
      ensures sent && reply.Unreachable? ==>
        error == NETWORK_ERROR && nav == Stay && storage.items == old(storage.items)
    {
      error := "";
      nav := Stay;
      sent := false;
      if !Truthy(token) {
        error := INVALID_TOKEN;
        return;
      }
      if |password| < MIN_PASSWORD_LENGTH {
        error := TOO_SHORT;
        return;
      }
      if password != confirmPassword {
        error := MISMATCH;
        return;
      }
      loading := true;
      sent := true;
      match reply {
        case Accepted(access, refresh) =>
          StoreTokens(storage, access, refresh);
          nav := GoTo("/dashboard");
        case Rejected(detail) =>
          error := OrElse(detail, REJECTED);
        case Unreachable =>
          error := NETWORK_ERROR;
      }
      loading := false;
    }
  }
}
