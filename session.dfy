/** The authentication context: it decodes the JWT payload, restores a stored session at start-up,
    logs in (customers only) and logs out. */
module Session {
  import opened Wrappers
  import opened Text

  // ---------------------------------------------------------------------------------------------
  // Token decoding

  /** The claims the context reads from a decoded payload. */
  datatype Claims = Claims(exp: Option<int>, role: Option<string>, email: Option<string>, sub: Option<string>)

  /** The payload segment with the base64url alphabet mapped back to base64:
      `.replace(/-/g, '+').replace(/_/g, '/')`. */
  function RemapBase64Url(segment: string): string {
    ReplaceChar(ReplaceChar(segment, '-', '+'), '_', '/')
  }

  /** The remapped text keeps its length, has neither '-' nor '_' left, and differs from the
      segment only where one of those two stood. */
  lemma RemapBase64UrlAlphabet(segment: string)
    ensures var r := RemapBase64Url(segment);
      |r| == |segment| && '-' !in r && '_' !in r &&
      forall k :: 0 <= k < |segment| ==>
        r[k] == (if segment[k] == '-' then '+' else if segment[k] == '_' then '/' else segment[k])
  {
    var r := RemapBase64Url(segment);
    var once := ReplaceChar(segment, '-', '+');
    assert forall k :: 0 <= k < |r| ==> r[k] == (if once[k] == '_' then '/' else once[k]);
  }

  /** The text handed to the payload decoder: the second dot-separated segment, remapped. */
  function PayloadOf(token: string): string
    requires '.' in token
  {
    RemapBase64Url(Split(token, '.')[1])
  }

  /** `decoded.exp && decoded.exp * 1000 < Date.now()`: a non-zero expiry, in seconds, before now
      (milliseconds). */
  predicate Expired(c: Claims, now: int) {
    c.exp.Some? && c.exp.value != 0 && c.exp.value * 1000 < now
  }

  /** `parseJwt`. `decode` stands for `atob`, the percent re-encoding, `decodeURIComponent` and
      `JSON.parse` together, and gives None where any of them throws. None here is the one error
      the function throws, 'Token không hợp lệ.': the token has no second segment, the payload
      does not decode, or it has expired. A payload of `null` is None too, since reading its
      `exp` throws inside the same `try`. A truthy payload that is not an object (a number,
      `true`, a string, an array) is `NoClaims`: every field the context reads of it is
      undefined. */
  function ParseJwt(token: string, decode: string -> Option<Claims>, now: int): (r: Option<Claims>)
    ensures r.Some? ==> '.' in token && decode(PayloadOf(token)) == r && !Expired(r.value, now)
    ensures '.' in token && decode(PayloadOf(token)).Some? && !Expired(decode(PayloadOf(token)).value, now) ==> r.Some?
  {
    var parts := Split(token, '.');
    if |parts| < 2 then None
    else
      match decode(RemapBase64Url(parts[1]))
      case None => None
      case Some(c) => if Expired(c, now) then None else Some(c)
  }

  /** The claims of a truthy payload that is not an object: no field is defined. */
  const NoClaims := Claims(None, None, None, None)

  /** A truthy non-object payload parses, never expires, and fails both role tests, so login
      and the start-up restore log it out. */
  lemma RolelessPayloadRefused(token: string, decode: string -> Option<Claims>, now: int)
    requires '.' in token && decode(PayloadOf(token)) == Some(NoClaims)
    ensures ParseJwt(token, decode, now) == Some(NoClaims)
    ensures !RoleAllowed(NoClaims) && !RoleMatchesAsWritten(NoClaims)
  {
  }

  /** A token that parses now parses at every earlier instant. */
  lemma {:induction false} ValidEarlier(token: string, decode: string -> Option<Claims>, now: int, earlier: int)
    requires ParseJwt(token, decode, now).Some? && earlier <= now
    ensures ParseJwt(token, decode, earlier) == ParseJwt(token, decode, now)
  {
  }

  /** A payload without an expiry (or with expiry 0) never expires. */
  lemma NoExpiryNeverExpires(token: string, decode: string -> Option<Claims>, now: int)
    requires '.' in token && decode(PayloadOf(token)).Some?
    requires decode(PayloadOf(token)).value.exp in {None, Some(0)}
    ensures ParseJwt(token, decode, now) == decode(PayloadOf(token))
  {
  }

  // ---------------------------------------------------------------------------------------------
  // Roles

  const AllowedRole := "ROLE_customer"

  /** `decoded?.role?.toLowerCase()`. */
  function LoweredRole(c: Claims): Option<string> {
    if c.role.Some? then Some(ToLower(c.role.value)) else None
  }

  /** The role test of the start-up restore as written: the lower-cased role against
      `ALLOWED_ROLE` itself. */
  predicate RoleMatchesAsWritten(c: Claims) {
    LoweredRole(c) == Some(AllowedRole)
  }

  /** The as-written test never passes: a lower-cased role cannot begin with 'R'. */
  lemma StoredRoleNeverMatches(c: Claims)
    ensures !RoleMatchesAsWritten(c)
  {
    if c.role.Some? {
      ToLowerNeverUpper(c.role.value, AllowedRole, 0);
    }
  }

  /** The role test as login writes it, against `ALLOWED_ROLE.toLowerCase()`. */
  predicate RoleAllowed(c: Claims) {
    LoweredRole(c) == Some(ToLower(AllowedRole))
  }

  /** Lower-casing gives `t` when it does so character by character. */
  lemma LowersTo(s: string, t: string)
    requires |s| == |t| && forall k :: 0 <= k < |s| ==> LowerChar(s[k]) == t[k]
    ensures ToLower(s) == t
  {
  }

  /** The customer role lower-cases to "role_customer". */
  lemma AllowedRoleLowered()
    ensures ToLower(AllowedRole) == "role_customer"
  {
    LowersTo(AllowedRole, "role_customer");
  }

  /** A role is accepted exactly when it lower-cases to "role_customer". */
  lemma RoleAllowedIff(c: Claims)
    ensures RoleAllowed(c) <==> c.role.Some? && ToLower(c.role.value) == "role_customer"
  {
    AllowedRoleLowered();
  }

  /** The role test ignores case: a role and its lower-cased form are accepted alike. */
  lemma RoleCaseIgnored(c: Claims, role: string)
    ensures RoleAllowed(c.(role := Some(role))) <==> RoleAllowed(c.(role := Some(ToLower(role))))
  {
    ToLowerIdempotent(role);
  }

  // ---------------------------------------------------------------------------------------------
  // The context's state

  datatype User = User(token: string, email: Option<string>, role: string)

  /** `decoded?.email || decoded?.sub`. */
  function UserEmail(c: Claims): (e: Option<string>)
    ensures c.email.Some? && c.email.value != "" ==> e == c.email
    ensures c.email.None? || c.email.value == "" ==> e == c.sub
  {
    if c.email.Some? && c.email.value != "" then c.email else c.sub
  }

  /** The user a token with these claims signs in. */
  function UserOf(token: string, c: Claims): User
    requires c.role.Some?
  {
    User(token, UserEmail(c), ToLower(c.role.value))
  }

  /** What the token store gives at start-up: nothing, a token, or a failure (the store call
      throws). */
  datatype StoredToken = NoToken | Stored(token: string) | ReadFailed

  /** What the login request gives: the response body's `token`, or a rejection with the thrown
      value's `message`. */
  datatype LoginResponse = LoginOk(token: Option<string>) | LoginFailed(message: Option<string>)

  const NoTokenText := "Không nhận được token."
  const InvalidTokenText := "Token không hợp lệ."
  const DesktopOnlyText := "Vui lòng dùng máy tính để sử dụng tính năng này."
  const LoginFailedText := "Đăng nhập thất bại."

  /** Whether a login with this response signs a user in. */
  predicate LoginAccepted(res: LoginResponse, decode: string -> Option<Claims>, now: int) {
    res.LoginOk? && res.token.Some? && res.token.value != "" &&
    ParseJwt(res.token.value, decode, now).Some? && RoleAllowed(ParseJwt(res.token.value, decode, now).value)
  }

  class AuthSession {
    var user: Option<User>
    var loading: bool

    constructor ()
      ensures user == None && loading
    {
      user := None;
      loading := true;
    }

    /** The start-up effect as written. Every stored token that parses leads to a logout request
        and clears the user, whatever its role, because the role test compares with
        `ALLOWED_ROLE` itself (see `StoredRoleNeverMatches`); a token that does not parse, or a
        failed read, clears the user too; with no token the user is left alone. `logoutResult`
        is the outcome of the logout request: a rejection lands in the catch, which clears the
        user as well. */
    method LoadUser(stored: StoredToken, decode: string -> Option<Claims>, now: int, logoutResult: Outcome)
      returns (logoutCalled: bool)
      modifies this
      ensures !loading
      ensures stored == NoToken || stored == Stored("") ==> user == old(user) && !logoutCalled
      ensures stored == ReadFailed ==> user == None && !logoutCalled
      ensures stored.Stored? && stored.token != "" ==>
        user == None && (logoutCalled <==> ParseJwt(stored.token, decode, now).Some?)
    {
      logoutCalled := false;
      match stored {
        case NoToken =>
        case ReadFailed =>
          user := None;
        case Stored(token) =>
          if token != "" {
            var decoded := ParseJwt(token, decode, now);
            if decoded.None? {
              user := None;
            } else if !RoleMatchesAsWritten(decoded.value) {
              logoutCalled := true;
              user := None;
            } else {
              StoredRoleNeverMatches(decoded.value);
              assert false;
            }
          }
      }
      loading := false;
    }

    /** The start-up effect with the role test login uses. A stored token that parses and
        carries the customer role becomes the user; any other stored token clears the user
        (after a logout request when the role is wrong); with no token the user is left alone. */
    method LoadUserCorrected(stored: StoredToken, decode: string -> Option<Claims>, now: int, logoutResult: Outcome)
      returns (logoutCalled: bool)
      modifies this
      ensures !loading
      ensures stored == NoToken || stored == Stored("") ==> user == old(user) && !logoutCalled
      ensures stored == ReadFailed ==> user == None && !logoutCalled
      ensures stored.Stored? && stored.token != "" ==>
        var parsed := ParseJwt(stored.token, decode, now);
        (parsed.Some? && RoleAllowed(parsed.value) ==> user == Some(UserOf(stored.token, parsed.value)) && !logoutCalled) &&
        (parsed.Some? && !RoleAllowed(parsed.value) ==> user == None && logoutCalled) &&
        (parsed.None? ==> user == None && !logoutCalled)
    {
      logoutCalled := false;
      match stored {
        case NoToken =>
        case ReadFailed =>
          user := None;
        case Stored(token) =>
          if token != "" {
            var decoded := ParseJwt(token, decode, now);
            if decoded.None? {
              user := None;
            } else if !RoleAllowed(decoded.value) {
              logoutCalled := true;
              user := None;
            } else {
              user := Some(UserOf(token, decoded.value));
            }
          }
      }
      loading := false;
    }

    /** `login`: `error` is the message of the alert shown and of the error thrown back to the
        caller, None when the user is signed in. `logoutResult` is the outcome of the logout
        request made when the role is refused. */
    method Login(res: LoginResponse, decode: string -> Option<Claims>, now: int, logoutResult: Outcome)
      returns (error: Option<string>, logoutCalled: bool)
      modifies this`user
      ensures error.None? <==> LoginAccepted(res, decode, now)
      ensures error.None? ==> user == Some(UserOf(res.token.value, ParseJwt(res.token.value, decode, now).value))
      ensures error.Some? ==> user == old(user)
      ensures logoutCalled <==>
        res.LoginOk? && res.token.Some? && res.token.value != "" &&
        ParseJwt(res.token.value, decode, now).Some? && !RoleAllowed(ParseJwt(res.token.value, decode, now).value)
      ensures res.LoginFailed? ==> error == Some(MessageOr(res.message, LoginFailedText))
      ensures res.LoginOk? && (res.token.None? || res.token.value == "") ==> error == Some(NoTokenText)
      ensures res.LoginOk? && res.token.Some? && res.token.value != "" && ParseJwt(res.token.value, decode, now).None? ==>
        error == Some(InvalidTokenText)
      ensures logoutCalled ==>
        error == Some(if logoutResult.Rejected? then MessageOr(logoutResult.message, LoginFailedText) else DesktopOnlyText)
    {
      logoutCalled := false;
      match res {
        case LoginFailed(m) =>
          error := Some(MessageOr(m, LoginFailedText));
        case LoginOk(token) =>
          if token.None? || token.value == "" {
            error := Some(NoTokenText);
          } else {
            var decoded := ParseJwt(token.value, decode, now);
            if decoded.None? {
              error := Some(InvalidTokenText);
            } else if !RoleAllowed(decoded.value) {
              logoutCalled := true;
              error := Some(if logoutResult.Rejected? then MessageOr(logoutResult.message, LoginFailedText) else DesktopOnlyText);
            } else {
              user := Some(UserOf(token.value, decoded.value));
              error := None;
            }
          }
      }
    }

    /** `logout`: `busy` is the loading flag while the request is awaited; the user is cleared
        only when it resolves, and a rejection propagates (`failed`). */
    method Logout(result: Outcome) returns (busy: bool, failed: bool)
      modifies this
      ensures busy && !loading
      ensures failed <==> result.Rejected?
      ensures result.Resolved? ==> user == None
      ensures result.Rejected? ==> user == old(user)
    {
      loading := true;
      busy := loading;
      failed := result.Rejected?;
      if result.Resolved? {
        user := None;
      }
      loading := false;
    }
  }
}
