/**
 * The authentication controller: registration, OTP login, OTP verification and logout.
 * The process-wide `otpStorage` object and the users collection are the two fields of
 * `AuthController`; the clock, the random code, the validator library and mail delivery
 * are parameters of the methods.
 */
module Auth {
  import opened Common

  type Id = string

  /** `5 * 60 * 1000`: an OTP is valid for five minutes, in milliseconds. */
  const OTP_TTL_MS: int := 5 * 60 * 1000

  /** The roles registration accepts. */
  const ROLES: seq<string> := ["Patient", "Doctor", "Admin"]

  /** A signed session token; `jwt.sign({ id, role }, secret, { expiresIn: '2d' })` is taken as a constructor. */
  datatype Token = Token(id: Id, role: string)

  /** A user document; `accessToken` is None where the source stores ''. */
  datatype User = User(fullName: string, email: string, mobile_no: string, role: string, accessToken: Option<Token>)

  /** One entry of `otpStorage`. */
  datatype OtpEntry = OtpEntry(otp: string, expiresAt: int)

  // ---------------------------------------------------------------------------
  // generateOTP: Math.floor(100000 + Math.random() * 900000).toString()

  predicate IsDigit(c: char) {
    '0' <= c <= '9'
  }

  function DigitChar(d: int): (c: char)
    requires 0 <= d < 10
    ensures IsDigit(c) && c as int - '0' as int == d
  {
    ('0' as int + d) as char
  }

  /** The number a string of decimal digits denotes. */
  function DigitsValue(s: string): nat
    requires forall i :: 0 <= i < |s| ==> IsDigit(s[i])
  {
    if s == [] then 0
    else
      assert IsDigit(s[|s| - 1]);
      DigitsValue(s[..|s| - 1]) * 10 + (s[|s| - 1] as int - '0' as int)
  }

  function Pow10(n: nat): (p: nat)
    ensures p >= 1
  {
    if n == 0 then 1 else 10 * Pow10(n - 1)
  }

  lemma {:induction false} Pow10Monotone(a: nat, b: nat)
    requires a <= b
    ensures Pow10(a) <= Pow10(b)
    decreases b
  {
    if a < b {
      Pow10Monotone(a, b - 1);
    }
  }

  /** `n.toString()`: decimal digits, no leading zero, as many digits as `n` needs. */
  function Decimal(n: nat): (s: string)
    ensures 1 <= |s|
    ensures forall i :: 0 <= i < |s| ==> IsDigit(s[i])
    ensures DigitsValue(s) == n
    ensures |s| > 1 ==> s[0] != '0'
    ensures n < Pow10(|s|)
    ensures |s| > 1 ==> Pow10(|s| - 1) <= n
  {
    if n < 10 then [DigitChar(n)]
    else
      var t := Decimal(n / 10);
      var s := t + [DigitChar(n % 10)];
      assert s[..|s| - 1] == t;
      assert |t| > 1 ==> Pow10(|t| - 1) <= n / 10;
      s
  }

  /**
   * `generateOTP()`, given the integer `Math.floor(100000 + Math.random() * 900000)`:
   * exactly six decimal digits, never a leading zero, denoting `code`.
   */
  function GenerateOtp(code: int): (otp: string)
    requires 100000 <= code <= 999999
    ensures |otp| == 6
    ensures forall i :: 0 <= i < |otp| ==> IsDigit(otp[i])
    ensures otp[0] != '0'
    ensures DigitsValue(otp) == code
  {
    DecimalOfSixDigitNumber(code);
    Decimal(code)
  }

  lemma DecimalOfSixDigitNumber(n: nat)
    requires 100000 <= n <= 999999
    ensures |Decimal(n)| == 6
  {
    var s := Decimal(n);
    assert Pow10(5) == 100000 && Pow10(6) == 1000000;
    if |s| < 6 {
      Pow10Monotone(|s|, 5);
    } else if |s| > 6 {
      Pow10Monotone(6, |s| - 1);
    }
  }

  /** Two different codes never give the same OTP string. */
  lemma GenerateOtpInjective(a: int, b: int)
    requires 100000 <= a <= 999999 && 100000 <= b <= 999999
    requires GenerateOtp(a) == GenerateOtp(b)
    ensures a == b
  {
  }

  // ---------------------------------------------------------------------------
  // Request classification shared by loginUser and verifyOTP

  /** `!email && !mobile_no` is false: the request names at least one contact field. */
  predicate ContactGiven(email: string, mobile_no: string) {
    email != "" || mobile_no != ""
  }

  /** `email || mobile_no`: the key of `otpStorage`, the same in login and verify. */
  function OtpKey(email: string, mobile_no: string): (key: string)
    ensures ContactGiven(email, mobile_no) ==> key != ""
    ensures email != "" ==> key == email
    ensures email == "" ==> key == mobile_no
  {
    if email != "" then email else mobile_no
  }

  /** `{ $or: [{ email }, { mobile_no }] }` on one user: a given contact field equals the user's. */
  predicate Matches(u: User, email: string, mobile_no: string) {
    (email != "" && u.email == email) || (mobile_no != "" && u.mobile_no == mobile_no)
  }

  /** `User.findOne({ $or: [{ email }, { mobile_no }] })` finds a user. */
  predicate Known(users: map<Id, User>, email: string, mobile_no: string) {
    exists id :: id in users && Matches(users[id], email, mobile_no)
  }

  /** The submitted code is the one stored under `key`. */
  /**
   * The one key a plain object does not hold as an own property: assigning to
   * `otpStorage["__proto__"]` replaces the object's prototype, which is then read back
   * under that key, and `delete` on it removes nothing.
   */
  const PROTO_KEY := "__proto__"

  /** `delete otpStorage[key]`: the entry is gone, the others stay, and the prototype key is never removed. */
  function Forget(store: map<string, OtpEntry>, key: string): (r: map<string, OtpEntry>)
    ensures key != PROTO_KEY ==> key !in r
    ensures key == PROTO_KEY ==> r == store
    ensures forall k :: k != key ==> (k in r <==> k in store)
    ensures forall k :: k in r ==> k in store && r[k] == store[k]
  {
    if key == PROTO_KEY then store else store - {key}
  }

  predicate CodeMatches(store: map<string, OtpEntry>, key: string, otp: string) {
    key in store && store[key].otp == otp
  }

  // ---------------------------------------------------------------------------
  // registerUser's validation chain

  datatype RegisterError = MissingFields | InvalidRole | InvalidEmail | InvalidMobile | EmailTaken | MobileTaken

  function RegisterErrorMessage(e: RegisterError): string {
    match e
    case MissingFields => "All fields are required"
    case InvalidRole => "Invalid role. Only \"Patient\", \"Doctor\", and \"Admin\" roles are allowed."
    case InvalidEmail => "Invalid email"
    case InvalidMobile => "Invalid mobile number"
    case EmailTaken => "User with this email already exists"
    case MobileTaken => "User with this mobile number already exists"
  }

  predicate AllFilled(fullName: string, email: string, mobile_no: string, role: string) {
    Truthy(fullName) && Truthy(email) && Truthy(mobile_no) && Truthy(role)
  }

  predicate EmailInUse(users: map<Id, User>, email: string) {
    exists id :: id in users && users[id].email == email
  }

  predicate MobileInUse(users: map<Id, User>, mobile_no: string) {
    exists id :: id in users && users[id].mobile_no == mobile_no
  }

  /**
   * The six checks of registerUser, in their order; `isEmail` and `isMobile` stand for
   * `validator.isEmail` and `validator.isMobilePhone(_, 'en-IN')`. Each error is reported
   * exactly when its own check fails and every earlier one passed.
   */
  function CheckRegistration(fullName: string, email: string, mobile_no: string, role: string,
                             isEmail: string -> bool, isMobile: string -> bool,
                             users: map<Id, User>): (r: Option<RegisterError>)
    ensures r == Some(MissingFields) <==> !AllFilled(fullName, email, mobile_no, role)
    ensures r == Some(InvalidRole) <==> AllFilled(fullName, email, mobile_no, role) && role !in ROLES
    ensures r == Some(InvalidEmail) <==>
      AllFilled(fullName, email, mobile_no, role) && role in ROLES && !isEmail(email)
    ensures r == Some(InvalidMobile) <==>
      AllFilled(fullName, email, mobile_no, role) && role in ROLES && isEmail(email) && !isMobile(mobile_no)
    ensures r == Some(EmailTaken) <==>
      AllFilled(fullName, email, mobile_no, role) && role in ROLES && isEmail(email) && isMobile(mobile_no)
      && EmailInUse(users, email)
    ensures r == Some(MobileTaken) <==>
      AllFilled(fullName, email, mobile_no, role) && role in ROLES && isEmail(email) && isMobile(mobile_no)
      && !EmailInUse(users, email) && MobileInUse(users, mobile_no)
    ensures r == None <==>
      AllFilled(fullName, email, mobile_no, role) && role in ROLES && isEmail(email) && isMobile(mobile_no)
      && !EmailInUse(users, email) && !MobileInUse(users, mobile_no)
  {
    if !AllFilled(fullName, email, mobile_no, role) then Some(MissingFields)
    else if role !in ROLES then Some(InvalidRole)
    else if !isEmail(email) then Some(InvalidEmail)
    else if !isMobile(mobile_no) then Some(InvalidMobile)
    else if EmailInUse(users, email) then Some(EmailTaken)
    else if MobileInUse(users, mobile_no) then Some(MobileTaken)
    else None
  }

  /** A registered user's email is in use, so registering it again is refused. */
  lemma RegisteredEmailIsTaken(users: map<Id, User>, id: Id, u: User, fullName: string, mobile_no: string, role: string,
                               isEmail: string -> bool, isMobile: string -> bool)
    requires Truthy(fullName) && Truthy(u.email) && Truthy(mobile_no) && role in ROLES
    requires isEmail(u.email) && isMobile(mobile_no)
    ensures CheckRegistration(fullName, u.email, mobile_no, role, isEmail, isMobile, users[id := u]) == Some(EmailTaken)
  {
    assert id in users[id := u] && users[id := u][id].email == u.email;
  }

  // ---------------------------------------------------------------------------

  class AuthController {
    /** `otpStorage`: contact key to the code last issued for it and its expiry. */
    var otpStorage: map<string, OtpEntry>
    /** The users collection, by document id. */
    var users: map<Id, User>

    /** A freshly loaded module: no OTP issued yet. */
    constructor (users: map<Id, User>)
      ensures otpStorage == map[] && this.users == users
    {
      otpStorage := map[];
      this.users := users;
    }

    /**
     * registerUser. `newId` is the id the database gives the new document and
     * `welcomeSent` whether sendWelcomeEmail resolved; the user is stored before the
     * welcome mail is attempted, so a failed mail still leaves the user registered.
     */
    method Register(fullName: string, email: string, mobile_no: string, role: string,
                    isEmail: string -> bool, isMobile: string -> bool,
                    newId: Id, welcomeSent: bool) returns (reply: Reply<Token>)
      requires newId !in users
      modifies this`users
      ensures var check := CheckRegistration(fullName, email, mobile_no, role, isEmail, isMobile, old(users));
        check.Some? ==> reply == Reply(400, RegisterErrorMessage(check.value), None) && users == old(users)
      ensures CheckRegistration(fullName, email, mobile_no, role, isEmail, isMobile, old(users)).None? ==>
        users == old(users)[newId := User(fullName, email, mobile_no, role, Some(Token(newId, role)))]
        && reply == (if welcomeSent then Reply(200, "User Registration Successfully", Some(Token(newId, role)))
                     else Reply(500, "Server error", None))
    {
      var check := CheckRegistration(fullName, email, mobile_no, role, isEmail, isMobile, users);
      if check.Some? {
        return Reply(400, RegisterErrorMessage(check.value), None);
      }
      var token := Token(newId, role);
      users := users[newId := User(fullName, email, mobile_no, role, Some(token))];
      if !welcomeSent {
        return Reply(500, "Server error", None);
      }
      reply := Reply(200, "User Registration Successfully", Some(token));
    }

    /**
     * loginUser at time `now`, `code` being the integer generateOTP draws. The entry is
     * written before delivery: `emailSent` says whether sendOtpEmail resolved, and the
     * mobile path calls `sendSMS`, which is never defined, so it always answers 500.
     */
    method Login(email: string, mobile_no: string, now: int, code: int, emailSent: bool) returns (reply: Reply<()>)
      requires 100000 <= code <= 999999
      modifies this`otpStorage
      ensures !ContactGiven(email, mobile_no) ==>
        reply == Reply(400, "Email or mobile number is required", None) && otpStorage == old(otpStorage)
      ensures ContactGiven(email, mobile_no) && !Known(users, email, mobile_no) ==>
        reply == Reply(404, "User not found", None) && otpStorage == old(otpStorage)
      ensures ContactGiven(email, mobile_no) && Known(users, email, mobile_no) ==>
        otpStorage == old(otpStorage)[OtpKey(email, mobile_no) := OtpEntry(GenerateOtp(code), now + OTP_TTL_MS)]
        && reply == (if email != "" && emailSent then Reply(200, "OTP sent successfully", None)
                     else Reply(500, "Server error", None))
    {
      if email == "" && mobile_no == "" {
        return Reply(400, "Email or mobile number is required", None);
      }
      if !Known(users, email, mobile_no) {
        return Reply(404, "User not found", None);
      }
      var otp := GenerateOtp(code);
      var key := OtpKey(email, mobile_no);
      otpStorage := otpStorage[key := OtpEntry(otp, now + OTP_TTL_MS)];
      if email != "" {
        if !emailSent {
          return Reply(500, "Server error", None);
        }
      } else {
        return Reply(500, "Server error", None);
      }
      reply := Reply(200, "OTP sent successfully", None);
    }

    /**
     * verifyOTP at time `now`. The guards run in the source's order; a missing entry or a
     * different code leaves the entry in place, an expired one is deleted, and a match
     * deletes the entry before the user is looked up, so the code is spent either way,
     * except under the prototype key, which `delete` does not remove.
     */
    method VerifyOtp(email: string, mobile_no: string, otp: string, now: int) returns (reply: Reply<Token>)
      modifies this`otpStorage
      ensures !ContactGiven(email, mobile_no) ==>
        reply == Reply(400, "Email or mobile number is required", None) && otpStorage == old(otpStorage)
      ensures ContactGiven(email, mobile_no) && |otp| != 6 ==>
        reply == Reply(400, "Invalid OTP", None) && otpStorage == old(otpStorage)
      ensures ContactGiven(email, mobile_no) && |otp| == 6
              && !CodeMatches(old(otpStorage), OtpKey(email, mobile_no), otp) ==>
        reply == Reply(400, "Invalid OTP", None) && otpStorage == old(otpStorage)
      ensures ContactGiven(email, mobile_no) && |otp| == 6
              && CodeMatches(old(otpStorage), OtpKey(email, mobile_no), otp) ==>
        otpStorage == Forget(old(otpStorage), OtpKey(email, mobile_no))
      ensures ContactGiven(email, mobile_no) && |otp| == 6
              && CodeMatches(old(otpStorage), OtpKey(email, mobile_no), otp)
              && now > old(otpStorage)[OtpKey(email, mobile_no)].expiresAt ==>
        reply == Reply(400, "OTP expired", None)
      ensures ContactGiven(email, mobile_no) && |otp| == 6
              && CodeMatches(old(otpStorage), OtpKey(email, mobile_no), otp)
              && now <= old(otpStorage)[OtpKey(email, mobile_no)].expiresAt ==>
        if Known(users, email, mobile_no) then
          reply.status == 200 && reply.message == "OTP verified successfully" && reply.body.Some?
          && reply.body.value.id in users && Matches(users[reply.body.value.id], email, mobile_no)
          && reply.body.value.role == users[reply.body.value.id].role
        else
          reply == Reply(404, "User not found", None)
    {
      if email == "" && mobile_no == "" {
        return Reply(400, "Email or mobile number is required", None);
      }
      if |otp| != 6 {
        return Reply(400, "Invalid OTP", None);
      }
      var key := OtpKey(email, mobile_no);
      if key !in otpStorage || otpStorage[key].otp != otp {
        return Reply(400, "Invalid OTP", None);
      }
      var stored := otpStorage[key];
      if now > stored.expiresAt {
        otpStorage := Forget(otpStorage, key);
        return Reply(400, "OTP expired", None);
      }
      otpStorage := Forget(otpStorage, key);
      if !Known(users, email, mobile_no) {
        return Reply(404, "User not found", None);
      }
      var id :| id in users && Matches(users[id], email, mobile_no);
      reply := Reply(200, "OTP verified successfully", Some(Token(id, users[id].role)));
    }

    /** logoutUser: clears the stored access token of the user with id `id`. */
    method Logout(id: Id) returns (reply: Reply<()>)
      modifies this`users
      ensures id in old(users) ==>
        users == old(users)[id := old(users)[id].(accessToken := None)]
        && reply == Reply(200, "Successfully Logged Out", None)
      ensures id !in old(users) ==>
        users == old(users) && reply == Reply(400, "Could Not Logout, Please Try Again", None)
    {
      if id !in users {
        return Reply(400, "Could Not Logout, Please Try Again", None);
      }
      users := users[id := users[id].(accessToken := None)];
      reply := Reply(200, "Successfully Logged Out", None);
    }
  }

  // ---------------------------------------------------------------------------
  // Sequences of calls

  /** Login, then verify with the delivered code inside the window: it works once, and the replay is refused. */
  method SingleUse(auth: AuthController, email: string, code: int, now: int, later: int)
    returns (first: Reply<Token>, replay: Reply<Token>)
    requires email != "" && email != PROTO_KEY && Known(auth.users, email, "")
    requires 100000 <= code <= 999999
    requires now <= later <= now + OTP_TTL_MS
    modifies auth
    ensures first.status == 200 && first.body.Some? && first.body.value.id in auth.users
    ensures replay == Reply(400, "Invalid OTP", None)
    ensures email !in auth.otpStorage
  {
    var sent := auth.Login(email, "", now, code, true);
    var otp := GenerateOtp(code);
    first := auth.VerifyOtp(email, "", otp, later);
    replay := auth.VerifyOtp(email, "", otp, later);
  }

  /** A second login overwrites the first code: the first is refused and the entry kept, the second works. */
  method SecondLoginWins(auth: AuthController, email: string, code1: int, code2: int, now: int)
    returns (old1: Reply<Token>, new2: Reply<Token>)
    requires email != "" && Known(auth.users, email, "")
    requires 100000 <= code1 <= 999999 && 100000 <= code2 <= 999999 && code1 != code2
    modifies auth
    ensures old1 == Reply(400, "Invalid OTP", None)
    ensures new2.status == 200
  {
    var r1 := auth.Login(email, "", now, code1, true);
    var r2 := auth.Login(email, "", now, code2, true);
    if GenerateOtp(code1) == GenerateOtp(code2) {
      GenerateOtpInjective(code1, code2);
    }
    old1 := auth.VerifyOtp(email, "", GenerateOtp(code1), now);
    new2 := auth.VerifyOtp(email, "", GenerateOtp(code2), now);
  }

  /** A wrong code leaves the entry for a retry; after the window the right code is expired and then gone. */
  method RetryThenExpire(auth: AuthController, email: string, code: int, wrong: string, now: int, late: int)
    returns (miss: Reply<Token>, expired: Reply<Token>, after: Reply<Token>)
    requires email != "" && email != PROTO_KEY && Known(auth.users, email, "")
    requires 100000 <= code <= 999999
    requires wrong != GenerateOtp(code)
    requires late > now + OTP_TTL_MS
    modifies auth
    ensures miss == Reply(400, "Invalid OTP", None)
    ensures expired == Reply(400, "OTP expired", None)
    ensures after == Reply(400, "Invalid OTP", None)
  {
    var sent := auth.Login(email, "", now, code, true);
    miss := auth.VerifyOtp(email, "", wrong, now);
    expired := auth.VerifyOtp(email, "", GenerateOtp(code), late);
    after := auth.VerifyOtp(email, "", GenerateOtp(code), late);
  }

  /**
   * Under the prototype key the code is never spent: a user found by mobile number while
   * the request's email is "__proto__" can verify the same code twice.
   */
  method PrototypeKeyReplays(auth: AuthController, mobile_no: string, code: int, now: int)
    returns (first: Reply<Token>, replay: Reply<Token>)
    requires Known(auth.users, PROTO_KEY, mobile_no)
    requires 100000 <= code <= 999999
    modifies auth
    ensures first.status == 200 && replay.status == 200
    ensures PROTO_KEY in auth.otpStorage
  {
    var sent := auth.Login(PROTO_KEY, mobile_no, now, code, true);
    var otp := GenerateOtp(code);
    first := auth.VerifyOtp(PROTO_KEY, mobile_no, otp, now);
    replay := auth.VerifyOtp(PROTO_KEY, mobile_no, otp, now);
  }
}
