/**
 * The OTP login decisions of the auth service. The SMS gateway's answers, the environment
 * variables and the generated user id are inputs; signing the token is left to the caller,
 * which receives the payload to sign.
 */
module Auth {
  import opened Wrappers
  import opened Users
  import opened Drivers

  /** The environment variables the service reads; a variable that is not set is `None`. */
  datatype Env = Env(authKey: Option<string>, templateId: Option<string>, nodeEnv: Option<string>)

  /** JavaScript truthiness of an optional string: set and not empty. */
  predicate Truthy(s: Option<string>)
  {
    s.Some? && s.value != ""
  }

  predicate IsProduction(env: Env)
  {
    env.nodeEnv == Some("production")
  }

  /** The JSON body the gateway answers with; `kind` is its `type` field. */
  datatype GatewayReply = GatewayReply(kind: Option<string>, message: Option<string>)

  /** A call to the gateway: which endpoint, for which mobile number, with which key. */
  datatype GatewayRequest =
    | SendRequest(templateId: string, mobile: string, authKey: string)
    | VerifyRequest(otp: string, mobile: string, authKey: string)

  datatype AuthError =
    | Unauthorized(message: string)
    | SendFailed(message: string)

  // ---------------------------------------------------------------------------
  // Mobile numbers

  /** Lines 39 and 71: a 10-character number gets the `91` country code. */
  function MobileForOtp(phoneNumber: string): (r: string)
    ensures |phoneNumber| == 10 ==> |r| == 12 && r[..2] == "91" && r[2..] == phoneNumber
    ensures |phoneNumber| != 10 ==> r == phoneNumber
  {
    if |phoneNumber| == 10 then "91" + phoneNumber else phoneNumber
  }

  /** The number sent to the gateway normalises back to the phone number the user typed:
      prefixing a 10-digit number is undone by the driver service's normalisation. */
  lemma MobileForOtpNormalizesBack(phoneNumber: string)
    requires |phoneNumber| == 10 && forall i :: 0 <= i < |phoneNumber| ==> Text.IsDigit(phoneNumber[i])
    ensures NormalizePhoneNumber(MobileForOtp(phoneNumber)) == phoneNumber
  {
    var m := MobileForOtp(phoneNumber);
    assert forall i :: 0 <= i < |m| ==> Text.IsDigit(m[i]) by {
      forall i | 0 <= i < |m| ensures Text.IsDigit(m[i]) {
        if i >= 2 {
          assert m[i] == phoneNumber[i - 2];
        }
      }
    }
    assert Text.Digits(m) == m;
  }

  // ---------------------------------------------------------------------------
  // Sending an OTP

  /** Lines 33-41: the gateway is called only when both the key and the template id are set. */
  function SendOtpRequest(env: Env, phoneNumber: string): (r: Option<GatewayRequest>)
    ensures r.None? <==> !Truthy(env.authKey) || !Truthy(env.templateId)
    ensures r.Some? ==> r.value == SendRequest(env.templateId.value, MobileForOtp(phoneNumber), env.authKey.value)
  {
    if !Truthy(env.authKey) || !Truthy(env.templateId) then None
    else Some(SendRequest(env.templateId.value, MobileForOtp(phoneNumber), env.authKey.value))
  }

  /** Lines 28-53: the reply to `sendOtp`, given the gateway's answer (`None` when the call or
      the JSON parsing fails). Every failure is reported as the same error. */
  function SendOtp(env: Env, phoneNumber: string, reply: Option<GatewayReply>): (r: Result<string, AuthError>)
    ensures SendOtpRequest(env, phoneNumber).None? ==> r == Success("OTP sending simulated (missing credentials)")
    ensures SendOtpRequest(env, phoneNumber).Some? ==>
      (r.Success? <==> reply.Some? && reply.value.kind == Some("success"))
    ensures SendOtpRequest(env, phoneNumber).Some? && r.Success? ==> r.value == "OTP sent successfully"
    ensures r.Failure? ==> r.error == SendFailed("Failed to send OTP")
  {
    if SendOtpRequest(env, phoneNumber).None? then Success("OTP sending simulated (missing credentials)")
    else if reply.Some? && reply.value.kind == Some("success") then Success("OTP sent successfully")
    else Failure(SendFailed("Failed to send OTP"))
  }

  /** Without credentials the gateway's answer plays no part. */
  lemma SendOtpWithoutCredentialsIgnoresGateway(env: Env, phoneNumber: string, reply1: Option<GatewayReply>, reply2: Option<GatewayReply>)
    requires !Truthy(env.authKey) || !Truthy(env.templateId)
    ensures SendOtp(env, phoneNumber, reply1) == SendOtp(env, phoneNumber, reply2)
  {
  }

  // ---------------------------------------------------------------------------
  // Verifying an OTP

  predicate IsTestCredential(phoneNumber: string, otp: string)
  {
    phoneNumber == "1234567890" && otp == "123456"
  }

  /** Lines 63-76: the gateway is asked only for a non-test login with the key set. */
  function VerifyOtpRequest(env: Env, phoneNumber: string, otp: string): (r: Option<GatewayRequest>)
    ensures r.Some? <==> !IsTestCredential(phoneNumber, otp) && Truthy(env.authKey)
    ensures r.Some? ==> r.value == VerifyRequest(otp, MobileForOtp(phoneNumber), env.authKey.value)
  {
    if IsTestCredential(phoneNumber, otp) || !Truthy(env.authKey) then None
    else Some(VerifyRequest(otp, MobileForOtp(phoneNumber), env.authKey.value))
  }

  /** Lines 55-104 up to the login: whether the OTP is accepted. `reply` is the gateway's
      answer, `None` when the call or the JSON parsing fails. */
  function VerifyOtpDecision(env: Env, phoneNumber: string, otp: string, reply: Option<GatewayReply>): (r: Result<(), AuthError>)
    ensures r.Failure? ==> r.error.Unauthorized?
  {
    if IsTestCredential(phoneNumber, otp) then Success(())
    else if Truthy(env.authKey) then
      if reply.None? then Failure(Unauthorized("OTP verification failed"))
      else if reply.value.kind != Some("success") then
        Failure(Unauthorized(if Truthy(reply.value.message) then reply.value.message.value else "Invalid OTP"))
      else Success(())
    else if IsProduction(env) then Failure(Unauthorized("Service configuration error. Please contact support."))
    else if otp == "" then Failure(Unauthorized("Invalid OTP"))
    else Success(())
  }

  /** The test credential logs in whatever the environment and the gateway say. */
  lemma TestCredentialAlwaysAccepted(env: Env, reply: Option<GatewayReply>)
    ensures VerifyOtpRequest(env, "1234567890", "123456").None?
    ensures VerifyOtpDecision(env, "1234567890", "123456", reply) == Success(())
  {
  }

  /** With the key set, only a `success` answer from the gateway is accepted. */
  lemma GatewayDecidesWhenKeySet(env: Env, phoneNumber: string, otp: string, reply: Option<GatewayReply>)
    requires !IsTestCredential(phoneNumber, otp) && Truthy(env.authKey)
    ensures VerifyOtpDecision(env, phoneNumber, otp, reply).Success? <==> reply.Some? && reply.value.kind == Some("success")
    ensures reply.None? ==> VerifyOtpDecision(env, phoneNumber, otp, reply) == Failure(Unauthorized("OTP verification failed"))
    ensures reply.Some? && reply.value.kind != Some("success") && !Truthy(reply.value.message) ==>
      VerifyOtpDecision(env, phoneNumber, otp, reply) == Failure(Unauthorized("Invalid OTP"))
    ensures reply.Some? && reply.value.kind != Some("success") && Truthy(reply.value.message) ==>
      VerifyOtpDecision(env, phoneNumber, otp, reply) == Failure(Unauthorized(reply.value.message.value))
  {
  }

  /** Without the key, production refuses every login and any other environment accepts exactly
      the non-empty OTPs; the gateway's answer plays no part. */
  lemma FallbackWithoutKey(env: Env, phoneNumber: string, otp: string, reply1: Option<GatewayReply>, reply2: Option<GatewayReply>)
    requires !IsTestCredential(phoneNumber, otp) && !Truthy(env.authKey)
    ensures VerifyOtpDecision(env, phoneNumber, otp, reply1) == VerifyOtpDecision(env, phoneNumber, otp, reply2)
    ensures IsProduction(env) ==>
      VerifyOtpDecision(env, phoneNumber, otp, reply1) == Failure(Unauthorized("Service configuration error. Please contact support."))
    ensures !IsProduction(env) ==> (VerifyOtpDecision(env, phoneNumber, otp, reply1).Success? <==> otp != "")
  {
  }

  // ---------------------------------------------------------------------------
  // Logging in

  /** The token payload (lines 123-128). */
  datatype JwtPayload = JwtPayload(sub: string, phoneNumber: string, roles: seq<UserRole>, name: string)

  /** The user part of the login reply (lines 138-147). */
  datatype LoginUser = LoginUser(
    id: string,
    phoneNumber: string,
    name: string,
    roles: seq<UserRole>,
    isVerified: bool,
    isDriver: bool,
    driverStatus: Option<DriverStatus>,
    driverId: Option<string>)

  datatype Login = Login(payload: JwtPayload, isNewUser: bool, user: LoginUser)

  /** Lines 138-147: the user as the login reply shows it, with the driver profile if one exists. */
  function LoginView(user: User, driver: Option<DriverProfile>): (r: LoginUser)
    ensures r.isDriver <==> driver.Some? || Driver in user.roles
    ensures driver.None? ==> r.driverStatus.None? && r.driverId.None?
    ensures driver.Some? ==> r.driverStatus == Some(driver.value.status)
    ensures r.id == user.id && r.phoneNumber == user.phoneNumber && r.roles == user.roles
    ensures r.name == user.name && r.isVerified == user.isVerified
    ensures driver.Some? ==> r.driverId == (if driver.value.userId != "" then Some(driver.value.userId) else None)
  {
    LoginUser(user.id, user.phoneNumber, user.name, user.roles, user.isVerified,
      driver.Some? || Driver in user.roles,
      if driver.Some? then Some(driver.value.status) else None,
      if driver.Some? && driver.value.userId != "" then Some(driver.value.userId) else None)
  }

  /** A user who has registered as a driver is reported as one, with or without a profile. */
  lemma RegisteredDriverLogsInAsDriver(existing: Option<User>, newId: string, phone: string, name: string, driver: Option<DriverProfile>)
    ensures LoginView(RegisteredUser(existing, newId, phone, name), driver).isDriver
  {
  }

  /** The user a first login creates (line 115-119). */
  function NewLoginUser(id: string, phoneNumber: string): (r: User)
    ensures r.roles == [Rider] && r.name == "" && r.phoneNumber == phoneNumber && r.id == id && !r.isVerified
  {
    User(id, "", phoneNumber, [Rider], false)
  }

  /** A user that only ever logged in is not a driver. */
  lemma NewLoginUserIsNotDriver(id: string, phoneNumber: string)
    ensures !LoginView(NewLoginUser(id, phoneNumber), None).isDriver
  {
  }

  class AuthService {
    var users: seq<User>
    var drivers: map<string, DriverProfile>

    ghost predicate Valid()
      reads this
    {
      UniqueUsers(users)
    }

    constructor()
      ensures Valid()
      ensures users == [] && drivers == map[]
    {
      users := [];
      drivers := map[];
    }

    /** Lines 106-149: reuse the user with this phone number, or create exactly one with an empty
        name and the RIDER role under `newUserId`; then report the driver profile, if any. */
    method LoginVerified(phoneNumber: string, newUserId: string) returns (login: Login)
      requires Valid()
      requires newUserId !in UserIds(users)
      modifies this
      ensures Valid()
      ensures drivers == old(drivers)
      ensures match IndexOfPhone(old(users), phoneNumber)
        case Some(i) => (users == old(users) && !login.isNewUser &&
          login.user == LoginView(old(users)[i], if old(users)[i].id in drivers then Some(drivers[old(users)[i].id]) else None))
        case None => (users == old(users) + [NewLoginUser(newUserId, phoneNumber)] && login.isNewUser &&
          login.user == LoginView(NewLoginUser(newUserId, phoneNumber), if newUserId in drivers then Some(drivers[newUserId]) else None))
      ensures login.payload == JwtPayload(login.user.id, login.user.phoneNumber, login.user.roles, login.user.name)
    {
      var existing := IndexOfPhone(users, phoneNumber);
      var user: User;
      var isNewUser := false;
      if existing.Some? {
        user := users[existing.value];
      } else {
        user := NewLoginUser(newUserId, phoneNumber);
        AppendKeepsUnique(users, user);
        users := users + [user];
        isNewUser := true;
      }
      var payload := JwtPayload(user.id, user.phoneNumber, user.roles, user.name);
      var driver := if user.id in drivers then Some(drivers[user.id]) else None;
      login := Login(payload, isNewUser, LoginView(user, driver));
    }

    /** Lines 55-104: decide on the OTP, then log in. */
    method VerifyOtp(env: Env, phoneNumber: string, otp: string, reply: Option<GatewayReply>, newUserId: string)
      returns (r: Result<Login, AuthError>)
      requires Valid()
      requires newUserId !in UserIds(users)
      modifies this
      ensures Valid()
      ensures drivers == old(drivers)
      ensures VerifyOtpDecision(env, phoneNumber, otp, reply).Failure? ==>
        r == Failure(VerifyOtpDecision(env, phoneNumber, otp, reply).error) && users == old(users)
      ensures VerifyOtpDecision(env, phoneNumber, otp, reply).Success? ==> r.Success?
      ensures VerifyOtpDecision(env, phoneNumber, otp, reply).Success? ==>
        r.value.payload == JwtPayload(r.value.user.id, r.value.user.phoneNumber, r.value.user.roles, r.value.user.name)
      ensures VerifyOtpDecision(env, phoneNumber, otp, reply).Success? ==>
        (match IndexOfPhone(old(users), phoneNumber)
         case Some(i) => (users == old(users) && !r.value.isNewUser &&
           r.value.user == LoginView(old(users)[i], if old(users)[i].id in drivers then Some(drivers[old(users)[i].id]) else None))
         case None => (users == old(users) + [NewLoginUser(newUserId, phoneNumber)] && r.value.isNewUser &&
           r.value.user == LoginView(NewLoginUser(newUserId, phoneNumber), if newUserId in drivers then Some(drivers[newUserId]) else None)))
    {
      var decision := VerifyOtpDecision(env, phoneNumber, otp, reply);
      if decision.Failure? {
        return Failure(decision.error);
      }
      var login := LoginVerified(phoneNumber, newUserId);
      r := Success(login);
    }
  }
}
