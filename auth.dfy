/**
 * The one-time-password login flow (auth/auth.service.js,
 * auth/auth.controller.js) and the request guards in front of the protected
 * routes (auth/auth.middleware.js), over the users collection.
 *
 * JWT signing and verification are oracles: a token is a string the model
 * does not look into, and `verifyJWT` is a parameter `decoded` that is `None`
 * when verification throws and the token's `userId` otherwise. The random
 * draw of `generateOTP` is a parameter too.
 */
module Auth {
  import opened Common
  import opened Text
  import opened Accounts

  // ---------------------------------------------------------------------------
  // one-time passwords
  // ---------------------------------------------------------------------------

  const OtpExpiryMinutes := 10
  /** How long an issued OTP stays usable, in milliseconds. */
  const OtpLifetime: Millis := OtpExpiryMinutes * 60 * 1000

  /**
   * `generateOTP()`: `crypto.randomInt(100000, 999999)` draws `draw` from
   * [100000, 999999) (the upper bound is exclusive); the OTP is its decimal
   * string, always six digits with no leading zero.
   */
  function GenerateOTP(draw: nat): (otp: string)
    requires 100000 <= draw < 999999
    ensures |otp| == 6 && otp[0] != '0'
    ensures forall i :: 0 <= i < |otp| ==> IsDigit(otp[i])
    ensures ParseDecimal(otp) == draw
  {
    assert Pow10(5) == 100000 && Pow10(6) == 1000000;
    DecimalLength(draw, 6);
    DecimalRoundTrip(draw);
    DecimalString(draw)
  }

  const UserNotFound := "User not found"
  const InvalidOtp := "Invalid OTP"
  const OtpExpired := "OTP has expired"

  /** `user.otpExpiry < new Date()`: a `null` expiry compares as 0. */
  predicate Expired(otpExpiry: Option<Millis>, now: Millis) {
    (if otpExpiry.None? then 0 else otpExpiry.value) < now
  }

  /**
   * The checks of `verifyOTP`, in order, on the stored user (if any): the
   * user exists, an OTP is stored and equals the one given, it has not
   * expired. `None` means the login goes through.
   */
  function OtpRefusal(user: Option<UserDoc>, otp: string, now: Millis): (e: Option<string>)
    ensures e == Some(UserNotFound) <==> user.None?
    ensures e == Some(InvalidOtp) <==> user.Some? && !(Truthy(user.value.otp) && user.value.otp.value == otp)
    ensures e == Some(OtpExpired) <==>
      user.Some? && Truthy(user.value.otp) && user.value.otp.value == otp && Expired(user.value.otpExpiry, now)
    ensures e.None? <==> user.Some? && user.value.otp == Some(otp) && otp != "" && !Expired(user.value.otpExpiry, now)
  {
    if user.None? then Some(UserNotFound)
    else if !Truthy(user.value.otp) || user.value.otp.value != otp then Some(InvalidOtp)
    else if Expired(user.value.otpExpiry, now) then Some(OtpExpired)
    else None
  }

  /** What a successful login does to the stored user: the OTP is spent and the login time recorded. */
  function LoggedIn(d: UserDoc, now: Millis): UserDoc {
    d.(otp := None, otpExpiry := None, lastLogin := Some(now), updatedAt := now)
  }

  /** What `saveOTP` does to a stored user: only the OTP and its expiry change (and the save stamp). */
  function OtpIssued(d: UserDoc, otp: string, now: Millis): UserDoc {
    d.(otp := Some(otp), otpExpiry := Some(now + OtpLifetime), updatedAt := now)
  }

  /** An OTP is single use: once a login went through, no OTP is accepted until a new one is issued. */
  lemma OtpSingleUse(d: UserDoc, otp: string, now: Millis, any: string, later: Millis)
    requires OtpRefusal(Some(d), otp, now).None?
    ensures OtpRefusal(Some(LoggedIn(d, now)), any, later) == Some(InvalidOtp)
  {
  }

  /**
   * A freshly issued OTP is accepted exactly when it is the one given, it is
   * not empty, and at most ten minutes have passed.
   */
  lemma IssuedOtpAcceptedIff(d: UserDoc, otp: string, issued: Millis, given: string, now: Millis)
    ensures OtpRefusal(Some(OtpIssued(d, otp, issued)), given, now).None?
            <==> (given == otp && otp != "" && now <= issued + OtpLifetime)
  {
  }

  /** Issuing a new OTP supersedes the previous one: only the newest is accepted. */
  lemma NewOtpSupersedes(d: UserDoc, first: string, second: string, t1: Millis, t2: Millis, now: Millis)
    requires first != second
    ensures OtpRefusal(Some(OtpIssued(OtpIssued(d, first, t1), second, t2)), first, now) == Some(InvalidOtp)
  {
  }

  /** The user part of a login or refresh response. */
  datatype UserSummary = UserSummary(id: UserId, email: string, credits: int, activePlan: Option<PlanId>)

  function Summarize(d: UserDoc): UserSummary {
    UserSummary(d.id, d.email, d.credits, d.activePlan)
  }

  // ---------------------------------------------------------------------------
  // the users collection
  // ---------------------------------------------------------------------------

  const RefreshFailed := "Failed to refresh token"

  /** The users collection, reachable by `findOne({ email })` and by `findById`. */
  class UserStore {
    var byEmail: map<string, UserAccount>
    var byId: map<UserId, UserAccount>
    var nextId: UserId

    /** Both indexes hold the same users; `email` is unique; ids are below the counter. */
    ghost predicate Valid()
      reads this
    {
      && (forall e :: e in byEmail ==> byEmail[e].email == e && byEmail[e].id in byId && byId[byEmail[e].id] == byEmail[e])
      && (forall i :: i in byId ==> byId[i].id == i && i < nextId && byId[i].email in byEmail && byEmail[byId[i].email] == byId[i])
    }

    constructor ()
      ensures Valid() && byEmail == map[] && byId == map[]
    {
      byEmail := map[];
      byId := map[];
      nextId := 0;
    }

    /** `User.findOne({ email })`, as a value. */
    function FindByEmail(email: string): (d: Option<UserDoc>)
      reads this, byEmail.Values
      ensures d.Some? <==> email in byEmail
      ensures d.Some? ==> d.value == byEmail[email].Doc()
    {
      if email in byEmail then Some(byEmail[email].Doc()) else None
    }

    /**
     * `saveOTP(email, otp)`: an unknown email gets a new user with no credits
     * holding the OTP; a known user gets the OTP and its expiry, now plus ten
     * minutes, and nothing else changes. Either way the user is saved.
     */
    method SaveOTP(email: string, otp: string, now: Millis) returns (user: UserAccount)
      requires Valid()
      modifies this, (if email in byEmail then {byEmail[email]} else {})
      ensures Valid()
      ensures email in byEmail && user == byEmail[email]
      ensures old(email in byEmail) ==>
        && byEmail == old(byEmail) && byId == old(byId) && user == old(byEmail[email])
        && user.Doc() == OtpIssued(old(user.Doc()), otp, now)
      ensures old(email !in byEmail) ==>
        && fresh(user) && user.id !in old(byId)
        && byEmail == old(byEmail)[email := user] && byId == old(byId)[user.id := user]
        && user.Doc() == UserDoc(user.id, email, Some(otp), Some(now + OtpLifetime), 0, None, [], [], None, true, now, now)
    {
      if email in byEmail {
        user := byEmail[email];
        user.otp := Some(otp);
        user.otpExpiry := Some(now + OtpLifetime);
        user.Save(now);
      } else {
        user := Register(email, otp, now);
      }
    }

    /** The `new User({ email, otp, otpExpiry, credits: 0 })` branch of `saveOTP`, saved under a fresh id. */
    method Register(email: string, otp: string, now: Millis) returns (user: UserAccount)
      requires Valid() && email !in byEmail
      modifies this
      ensures Valid()
      ensures fresh(user) && user.id !in old(byId)
      ensures byEmail == old(byEmail)[email := user] && byId == old(byId)[user.id := user]
      ensures user.Doc() == UserDoc(user.id, email, Some(otp), Some(now + OtpLifetime), 0, None, [], [], None, true, now, now)
    {
      user := new UserAccount(nextId, email, now);
      user.otp := Some(otp);
      user.otpExpiry := Some(now + OtpLifetime);
      user.Save(now);
      byEmail := byEmail[email := user];
      byId := byId[nextId := user];
      nextId := nextId + 1;
    }

    /**
     * `verifyOTP(email, otp)`: fails with the first of `OtpRefusal`'s errors;
     * otherwise the OTP is spent, the login time recorded, the user saved and
     * summarised for the response.
     */
    method VerifyOTP(email: string, otp: string, now: Millis) returns (r: Result<UserSummary>)
      requires Valid()
      modifies (if email in byEmail then {byEmail[email]} else {})
      ensures r.Failure? <==> OtpRefusal(old(FindByEmail(email)), otp, now).Some?
      ensures r.Failure? ==> r.error == OtpRefusal(old(FindByEmail(email)), otp, now).value
      ensures r.Failure? && email in byEmail ==> byEmail[email].Doc() == old(byEmail[email].Doc())
      ensures r.Success? ==>
        && email in byEmail
        && byEmail[email].Doc() == LoggedIn(old(byEmail[email].Doc()), now)
        && r.value == Summarize(byEmail[email].Doc())
    {
      var found := FindByEmail(email);
      var refusal := OtpRefusal(found, otp, now);
      if refusal.Some? {
        return Failure(refusal.value);
      }
      var user := byEmail[email];
      user.otp := None;
      user.otpExpiry := None;
      user.lastLogin := Some(now);
      user.Save(now);
      r := Success(Summarize(user.Doc()));
    }

    /** The user a verified token names, if it exists and is active (the `findById` + `isActive` step). */
    function ActiveUser(decoded: Option<UserId>): (u: Option<UserDoc>)
      reads this, byId.Values
      ensures u.Some? <==> decoded.Some? && decoded.value in byId && byId[decoded.value].isActive
      ensures u.Some? ==> u.value == byId[decoded.value].Doc()
    {
      if decoded.Some? && decoded.value in byId && byId[decoded.value].isActive
      then Some(byId[decoded.value].Doc())
      else None
    }

    /**
     * `refreshToken(oldToken)`: the token's signature is checked (its expiry
     * is not), and the user it names must exist and be active. Every failure
     * surfaces as the same message.
     */
    function RefreshToken(decoded: Option<UserId>): (r: Result<UserSummary>)
      reads this, byId.Values
      ensures r.Success? <==> ActiveUser(decoded).Some?
      ensures r.Failure? ==> r.error == RefreshFailed
      ensures r.Success? ==> r.value == Summarize(byId[decoded.value].Doc())
    {
      var u := ActiveUser(decoded);
      if u.None? then Failure(RefreshFailed) else Success(Summarize(u.value))
    }

    // -------------------------------------------------------------------------
    // middleware
    // -------------------------------------------------------------------------

    /**
     * `authMiddleware`: 401 without a token, with a token that does not
     * verify, or for a missing or inactive user; otherwise the request goes
     * on with that user and the token.
     */
    function Authenticate(authorization: Option<string>, decoded: Option<UserId>): (g: Gate)
      reads this, byId.Values
      ensures g.Reject? ==> g.status == 401
      ensures !Truthy(BearerToken(authorization)) ==> g == Reject(401, AuthenticationRequired)
      ensures g.Pass? <==> Truthy(BearerToken(authorization)) && ActiveUser(decoded).Some?
      ensures g.Pass? ==> g.user == ActiveUser(decoded).value && g.token == BearerToken(authorization).value
    {
      var token := BearerToken(authorization);
      if !Truthy(token) then Reject(401, AuthenticationRequired)
      else if decoded.None? then Reject(401, InvalidToken)
      else
        var u := ActiveUser(decoded);
        if u.None? then Reject(401, UserMissingOrInactive)
        else Pass(u.value, token.value)
    }

    /**
     * `optionalAuth`: never rejects. The request carries a user exactly when
     * `authMiddleware` would have let it through, and then the same one.
     */
    function OptionalAuth(authorization: Option<string>, decoded: Option<UserId>): (u: Option<UserDoc>)
      reads this, byId.Values
      ensures u.Some? <==> Authenticate(authorization, decoded).Pass?
      ensures u.Some? ==> u.value == Authenticate(authorization, decoded).user
    {
      var token := BearerToken(authorization);
      if !Truthy(token) then None else ActiveUser(decoded)
    }

    // -------------------------------------------------------------------------
    // controller
    // -------------------------------------------------------------------------

    /**
     * `sendOTP`: 400 without an email or with one that does not match the
     * e-mail pattern; otherwise the OTP is stored under the lowercased email
     * (before the mail is sent, so a failed mail still leaves it stored: 500).
     */
    method SendOTP(email: Option<string>, otp: string, mailOk: bool, now: Millis) returns (r: Reply<string>)
      requires Valid()
      modifies this, (if email.Some? && ToLower(email.value) in byEmail then {byEmail[ToLower(email.value)]} else {})
      ensures Valid()
      ensures !Truthy(email) ==> r == Refused(400, EmailRequired) && byEmail == old(byEmail)
      ensures Truthy(email) && !ValidEmail(email.value) ==> r == Refused(400, InvalidEmailFormat) && byEmail == old(byEmail)
      ensures Truthy(email) && ValidEmail(email.value) ==>
        && ToLower(email.value) in byEmail
        && byEmail[ToLower(email.value)].otp == Some(otp)
        && byEmail[ToLower(email.value)].otpExpiry == Some(now + OtpLifetime)
        && (mailOk ==> r == Done(ToLower(email.value)))
        && (!mailOk ==> r == Refused(500, SendOtpFailed))
      ensures !Truthy(email) || !ValidEmail(email.value) ==> byEmail == old(byEmail) && byId == old(byId)
      ensures (!Truthy(email) || !ValidEmail(email.value)) && email.Some? && ToLower(email.value) in old(byEmail) ==>
        byEmail[ToLower(email.value)].Doc() == old(byEmail[ToLower(email.value)].Doc())
      ensures Truthy(email) && ValidEmail(email.value) && ToLower(email.value) in old(byEmail) ==>
        && byEmail == old(byEmail) && byId == old(byId)
        && byEmail[ToLower(email.value)].Doc() == OtpIssued(old(byEmail[ToLower(email.value)].Doc()), otp, now)
      ensures Truthy(email) && ValidEmail(email.value) && ToLower(email.value) !in old(byEmail) ==>
        var user := byEmail[ToLower(email.value)];
        && fresh(user) && user.id !in old(byId)
        && byEmail == old(byEmail)[ToLower(email.value) := user] && byId == old(byId)[user.id := user]
        && user.Doc() == UserDoc(user.id, ToLower(email.value), Some(otp), Some(now + OtpLifetime), 0, None, [], [],
                                 None, true, now, now)
    {
      if !Truthy(email) {
        return Refused(400, EmailRequired);
      }
      if !ValidEmail(email.value) {
        return Refused(400, InvalidEmailFormat);
      }
      var user := SaveOTP(ToLower(email.value), otp, now);
      if !mailOk {
        return Refused(500, SendOtpFailed);
      }
      r := Done(ToLower(email.value));
    }

    /** The `verifyOTP` route: 400 without both fields or when the service refuses; it looks the lowercased email up. */
    method VerifyOTPRequest(email: Option<string>, otp: Option<string>, now: Millis) returns (r: Reply<UserSummary>)
      requires Valid()
      modifies (if email.Some? && ToLower(email.value) in byEmail then {byEmail[ToLower(email.value)]} else {})
      ensures !Truthy(email) || !Truthy(otp) ==> r == Refused(400, EmailAndOtpRequired)
      ensures Truthy(email) && Truthy(otp) ==>
        (r.Done? <==> OtpRefusal(old(FindByEmail(ToLower(email.value))), otp.value, now).None?)
      ensures r.Refused? ==> r.status == 400
      ensures r.Done? ==> r.value.email == ToLower(email.value)
      ensures r.Done? ==>
        && ToLower(email.value) in byEmail
        && byEmail[ToLower(email.value)].Doc() == LoggedIn(old(byEmail[ToLower(email.value)].Doc()), now)
        && r.value == Summarize(byEmail[ToLower(email.value)].Doc())
      ensures r.Refused? && email.Some? && ToLower(email.value) in byEmail ==>
        byEmail[ToLower(email.value)].Doc() == old(byEmail[ToLower(email.value)].Doc())
    {
      if !Truthy(email) || !Truthy(otp) {
        return Refused(400, EmailAndOtpRequired);
      }
      var result := VerifyOTP(ToLower(email.value), otp.value, now);
      if result.Failure? {
        return Refused(400, VerifyOtpFailed);
      }
      r := Done(result.value);
    }

    /** The `refreshToken` route: 400 without a token, 401 when the service refuses. */
    function RefreshTokenRequest(authorization: Option<string>, decoded: Option<UserId>): (r: Reply<UserSummary>)
      reads this, byId.Values
      ensures !Truthy(BearerToken(authorization)) ==> r == Refused(400, TokenRequired)
      ensures Truthy(BearerToken(authorization)) ==>
        (r.Done? <==> RefreshToken(decoded).Success?) && (r.Refused? ==> r.status == 401)
    {
      if !Truthy(BearerToken(authorization)) then Refused(400, TokenRequired)
      else
        var result := RefreshToken(decoded);
        if result.Failure? then Refused(401, RefreshFailed) else Done(result.value)
    }

    /** `getProfile`: 404 for a user that no longer exists; the report count is the length of the report history. */
    function GetProfile(id: UserId): (r: Reply<Profile>)
      reads this, byId.Values
      ensures r.Refused? <==> id !in byId
      ensures r.Refused? ==> r.status == 404
      ensures r.Done? ==> r.value == ProfileOf(byId[id].Doc())
    {
      if id !in byId then Refused(404, UserNotFound) else Done(ProfileOf(byId[id].Doc()))
    }
  }

  // ---------------------------------------------------------------------------
  // request guards
  // ---------------------------------------------------------------------------

  const AuthenticationRequired := "Authentication required"
  const InvalidToken := "Invalid or expired token"
  const UserMissingOrInactive := "User not found or inactive"
  const InsufficientCreditsError := "Insufficient credits"

  /** A guard's decision: stop the request with a status, or let it through with the user. */
  datatype Gate = Reject(status: nat, error: string) | Pass(user: UserDoc, token: string)

  /** `req.headers.authorization?.replace('Bearer ', '')`. */
  function BearerToken(authorization: Option<string>): (t: Option<string>)
    ensures t.Some? <==> authorization.Some?
  {
    if authorization.None? then None else Some(ReplaceFirst(authorization.value, "Bearer ", ""))
  }

  /** A header `Bearer <t>` carries the token `t`. */
  lemma BearerTokenOfHeader(t: string)
    ensures BearerToken(Some("Bearer " + t)) == Some(t)
  {
    ReplaceFirstOfPrefixed("Bearer ", t);
  }

  /** The decision of `requireCredits(creditsNeeded)`. */
  datatype CreditGate = NotSignedIn | Short(required: int, current: int) | Enough

  const DefaultCreditsNeeded := 1

  /**
   * `requireCredits(creditsNeeded)`: 401 without a user, 403 with the
   * required and current counts when the balance is below the need,
   * otherwise the request goes on.
   */
  function RequireCredits(user: Option<UserDoc>, creditsNeeded: int): (g: CreditGate)
    ensures g.NotSignedIn? <==> user.None?
    ensures g.Short? <==> user.Some? && user.value.credits < creditsNeeded
    ensures g.Short? ==> g.required == creditsNeeded && g.current == user.value.credits
    ensures g.Enough? <==> user.Some? && user.value.credits >= creditsNeeded
  {
    if user.None? then NotSignedIn
    else if user.value.credits < creditsNeeded then Short(creditsNeeded, user.value.credits)
    else Enough
  }

  function CreditGateStatus(g: CreditGate): nat {
    match g
    case NotSignedIn => 401
    case Short(_, _) => 403
    case Enough => 200
  }

  /** With the default need, a signed-in user gets through exactly when `hasCredits()` holds. */
  lemma DefaultNeedIsHasCredits(u: UserDoc)
    ensures RequireCredits(Some(u), DefaultCreditsNeeded).Enough? <==> u.credits > 0
  {
  }

  /** A user let through for `n` credits can have `n` deducted: the gate and `deductCredit` agree. */
  lemma GateAdmitsDeduction(u: UserDoc, n: int)
    ensures RequireCredits(Some(u), n).Enough? <==> u.credits >= n
  {
  }

  // ---------------------------------------------------------------------------
  // controller validation
  // ---------------------------------------------------------------------------

  const EmailRequired := "Email is required"
  const InvalidEmailFormat := "Invalid email format"
  const SendOtpFailed := "Failed to send OTP"
  const EmailAndOtpRequired := "Email and OTP are required"
  const VerifyOtpFailed := "Failed to verify OTP"
  const TokenRequired := "Token is required"

  /** A route's reply: its value, or an error status and message. */
  datatype Reply<+T> = Done(value: T) | Refused(status: nat, error: string)

  /** `[^\s@]`: a character the e-mail pattern allows in each of its three parts. */
  predicate Plain(c: char) {
    c != '@' && !IsJsWhitespace(c)
  }

  /**
   * The pattern `^[^\s@]+@[^\s@]+\.[^\s@]+$` read as a formula: one `@` with
   * something before it, then a `.` with something between them and
   * something after it, and no whitespace anywhere.
   */
  ghost predicate MatchesEmailPattern(s: string) {
    exists at, dot ::
      && 0 < at && at + 1 < dot && dot + 1 < |s| && s[at] == '@' && s[dot] == '.'
      && forall i :: 0 <= i < |s| && i != at ==> Plain(s[i])
  }

  /**
   * The pattern test as the controller runs it: the first `@`, nothing plain
   * violated elsewhere, and a `.` after the character following the `@` that
   * is not the last character.
   */
  function ValidEmail(s: string): (b: bool)
    ensures b <==> MatchesEmailPattern(s)
  {
    var at := IndexOf(s, "@", 0);
    EmailPatternAt(s, at);
    if at <= 0 || exists i :: 0 <= i < |s| && i != at && !Plain(s[i]) then false
    else
      var dot := IndexOf(s, ".", at + 2);
      ValidEmailWitness(s, at, dot);
      dot != -1 && dot + 1 < |s|
  }

  /** Any `@` the pattern matches is the first one, and everything else is plain. */
  lemma EmailPatternAt(s: string, at: int)
    requires at == IndexOf(s, "@", 0)
    ensures MatchesEmailPattern(s) ==> at > 0 && forall i :: 0 <= i < |s| && i != at ==> Plain(s[i])
  {
    if MatchesEmailPattern(s) {
      var a, d :| && 0 < a && a + 1 < d && d + 1 < |s| && s[a] == '@' && s[d] == '.'
                  && forall i :: 0 <= i < |s| && i != a ==> Plain(s[i]);
      OccursAsChar(s, '@', a);
      assert at != -1 && at <= a;
      OccursAsChar(s, '@', at);
    }
  }

  /** A one-character pattern occurs exactly where that character stands. */
  lemma OccursAsChar(s: string, c: char, j: int)
    ensures OccursAt(s, [c], j) <==> 0 <= j < |s| && s[j] == c
  {
    if 0 <= j < |s| {
      assert s[j..j + 1] == [s[j]];
    }
  }

  lemma ValidEmailWitness(s: string, at: int, dot: int)
    requires at > 0 && OccursAt(s, "@", at)
    requires forall i :: 0 <= i < |s| && i != at ==> Plain(s[i])
    requires dot == IndexOf(s, ".", at + 2)
    ensures (dot != -1 && dot + 1 < |s|) <==> MatchesEmailPattern(s)
  {
    OccursAsChar(s, '@', at);
    if dot != -1 && dot + 1 < |s| {
      OccursAsChar(s, '.', dot);
    }
    if MatchesEmailPattern(s) {
      var a, d :| && 0 < a && a + 1 < d && d + 1 < |s| && s[a] == '@' && s[d] == '.'
                  && forall i :: 0 <= i < |s| && i != a ==> Plain(s[i]);
      OccursAsChar(s, '.', d);
    }
  }

  /** Lowercasing keeps an address valid or invalid: it changes neither `@`, `.` nor whitespace. */
  lemma LowercasePreservesValidity(s: string)
    ensures ValidEmail(ToLower(s)) <==> ValidEmail(s)
  {
    var t := ToLower(s);
    forall i | 0 <= i < |s|
      ensures Plain(t[i]) <==> Plain(s[i])
      ensures t[i] == '@' <==> s[i] == '@'
      ensures t[i] == '.' <==> s[i] == '.'
    {
    }
    SameShapeSamePattern(s, t);
    SameShapeSamePattern(t, s);
  }

  /** Two strings that agree on where `@`, `.` and the other plain characters sit agree on the pattern. */
  lemma SameShapeSamePattern(s: string, t: string)
    requires |s| == |t|
    requires forall i :: 0 <= i < |s| ==> (Plain(t[i]) <==> Plain(s[i]))
    requires forall i :: 0 <= i < |s| ==> (t[i] == '@' <==> s[i] == '@') && (t[i] == '.' <==> s[i] == '.')
    ensures MatchesEmailPattern(s) ==> MatchesEmailPattern(t)
  {
    if MatchesEmailPattern(s) {
      var a, d :| && 0 < a && a + 1 < d && d + 1 < |s| && s[a] == '@' && s[d] == '.'
                  && forall i :: 0 <= i < |s| && i != a ==> Plain(s[i]);
      assert t[a] == '@' && t[d] == '.';
    }
  }

  /** What `getProfile` returns about a user (the referenced plan documents are not looked up). */
  datatype Profile = Profile(id: UserId, email: string, credits: int, activePlan: Option<PlanId>,
                             planHistory: seq<UserPlanId>, reportCount: nat, createdAt: Millis,
                             lastLogin: Option<Millis>)

  function ProfileOf(d: UserDoc): Profile {
    Profile(d.id, d.email, d.credits, d.activePlan, d.planHistory, |d.reportHistory|, d.createdAt, d.lastLogin)
  }

  /** Each report added to the history counts once in the profile. */
  lemma ReportCountFollowsHistory(d: UserDoc, r: ReportId)
    ensures ProfileOf(d.(reportHistory := d.reportHistory + [r])).reportCount == ProfileOf(d).reportCount + 1
  {
  }
}
