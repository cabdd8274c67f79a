/** Registration, login and password reset (the backend's AuthService). The password
    encoder, the JWT issuer and the e-mail sender are parameters; the clock is `now` in
    minutes and the random draw of `nextInt(900000)` is `draw`. */
module AuthService {
  import opened Wrappers
  import opened Strings
  import opened Accounts
  import opened Repositories

  /** The registration form as the backend receives it; absent optional fields are None. */
  datatype RegisterRequest = RegisterRequest(
    fullName: string, email: string, phoneNumber: string,
    password: string, confirmPassword: string, role: Role,
    parkingAreaName: Option<string>, location: Option<string>, totalSlots: Option<int>,
    ownerName: Option<string>, aadharNumber: Option<string>, propertyPermitNumber: Option<string>,
    vehicleName: Option<string>, vehicleNumber: Option<string>, vehicleType: Option<string>)

  datatype UserInfo = UserInfo(
    id: Option<int>, name: string, email: string, phoneNumber: string, role: string, approved: bool)

  datatype AuthResponse = AuthResponse(
    token: Option<string>, role: string, message: Option<string>, user: Option<UserInfo>)

  const EmailRegistered := "Email already registered"
  const PhoneRegistered := "Phone number already registered"
  const PasswordsDiffer := "Passwords do not match"
  const AwaitApproval := "Registered successfully. Await admin approval."
  const RegisteredAdmin := "Registered successfully!"
  const InvalidCredentials := "Invalid email or password"
  const AwaitingApproval := "Your account is awaiting admin approval."
  const AccountDisabled := "Your account is disabled"
  const UserNotFoundWithEmail := "User not found with this email"
  const UserNotFound := "User not found"
  const InvalidOtp := "Invalid OTP"
  /** The exception Spring Data raises when a single-result query finds several rows. */
  const SeveralOtps := "IncorrectResultSizeDataAccessException"
  const OtpOfOtherUser := "OTP does not belong to this user"
  const OtpExpired := "OTP has expired"

  /** Minutes a reset OTP stays valid. */
  const OtpLifetime := 10

  ghost predicate EmailTaken(us: seq<User>, email: string)
    reads us
  {
    exists i :: 0 <= i < |us| && us[i].email == email
  }

  ghost predicate PhoneTaken(us: seq<User>, phoneNumber: string)
    reads us
  {
    exists i :: 0 <= i < |us| && us[i].phoneNumber == phoneNumber
  }

  /** The stored user with the given e-mail (unique in a valid store). */
  ghost function Holder(us: seq<User>, email: string): (u: User)
    reads us
    requires EmailTaken(us, email)
    ensures u in us && u.email == email
  {
    var i :| 0 <= i < |us| && us[i].email == email; us[i]
  }

  // ---------------------------------------------------------------------------
  // Register
  // ---------------------------------------------------------------------------

  /** A new User with the fields common to every role filled in. */
  function BaseProfile(req: RegisterRequest, encodedPassword: string, now: int): Profile {
    Profile(req.fullName, req.email, req.phoneNumber, encodedPassword, Some(req.role),
            false, true, PENDING, None, None, None, None, None, None, None, None,
            Some(0.0), now)
  }

  /** The row registration stores for `req`, given the encoded password: every role
      starts enabled; PROVIDER and DRIVER start unapproved and PENDING, exactly as the
      role constructor of User would set them, ADMIN approved and APPROVED. A provider's
      hub fields get their placeholders and the owner name, when given, becomes the
      full name; a driver's vehicle is copied; other roles carry none of those fields. */
  function RegisteredProfile(req: RegisterRequest, encodedPassword: string, now: int): (p: Profile)
    ensures p.role == Some(req.role) && p.enabled
    ensures p.approved == !NeedsApproval(Some(req.role))
    ensures p.verificationStatus == (if NeedsApproval(Some(req.role)) then PENDING else APPROVED)
    ensures p.email == req.email && p.phoneNumber == req.phoneNumber && p.password == encodedPassword
    ensures p.fullName == (if req.role == PROVIDER && req.ownerName.Some? then req.ownerName.value
                           else req.fullName)
    ensures req.role == PROVIDER <==> p.parkingAreaName.Some? && p.location.Some? && p.totalSlots.Some?
    ensures req.role == PROVIDER ==>
              && p.parkingAreaName == Some(if req.parkingAreaName.Some? then req.parkingAreaName.value
                                           else "Pending Setup")
              && p.location == Some(if req.location.Some? then req.location.value else "Not Specified")
              && p.totalSlots == Some(if req.totalSlots.Some? then req.totalSlots.value else 0)
    ensures req.role == PROVIDER ==>
              p.aadharNumber == req.aadharNumber && p.propertyPermitNumber == req.propertyPermitNumber
    ensures req.role != PROVIDER ==> p.aadharNumber.None? && p.propertyPermitNumber.None?
    ensures req.role == DRIVER ==>
              p.vehicleName == req.vehicleName && p.vehicleNumber == req.vehicleNumber
              && p.vehicleType == req.vehicleType
    ensures req.role != DRIVER ==> p.vehicleName.None? && p.vehicleNumber.None? && p.vehicleType.None?
    ensures p.walletBalance == Some(0.0) && p.createdAt == now
  {
    var base := BaseProfile(req, encodedPassword, now);
    match req.role
    case PROVIDER =>
      base.(parkingAreaName := Some(req.parkingAreaName.GetOr("Pending Setup")),
            location := Some(req.location.GetOr("Not Specified")),
            totalSlots := Some(req.totalSlots.GetOr(0)),
            fullName := req.ownerName.GetOr(req.fullName),
            aadharNumber := req.aadharNumber,
            propertyPermitNumber := req.propertyPermitNumber)
    case DRIVER =>
      base.(vehicleName := req.vehicleName, vehicleNumber := req.vehicleNumber,
            vehicleType := req.vehicleType)
    case ADMIN =>
      base.(approved := true, verificationStatus := APPROVED)
  }

  /** `%s` of a possibly null string. */
  function FormatString(s: Option<string>): string {
    s.GetOr("null")
  }

  /** `%d` of a possibly null Integer. */
  function FormatInt(n: Option<int>): string {
    if n.Some? then IntToString(n.value) else "null"
  }

  /** The notification the administrators get about a new provider or driver; none for an admin. */
  function RegistrationNotice(p: Profile, id: Option<int>, now: int): (r: seq<Notification>)
    ensures |r| == (if NeedsApproval(p.role) then 1 else 0)
    ensures forall i :: 0 <= i < |r| ==> r[i].targetRole == "ADMIN" && r[i].refId == id && !r[i].read
    ensures forall i :: 0 <= i < |r| ==>
              r[i].notificationType == (if p.role == Some(PROVIDER) then "PROVIDER_REGISTRATION"
                                        else "DRIVER_REGISTRATION")
  {
    if p.role == Some(PROVIDER) then
      [Notification("New provider registered: " + p.fullName
                    + ". Hub: " + FormatString(p.parkingAreaName)
                    + ", Location: " + FormatString(p.location)
                    + ", Slots: " + FormatInt(p.totalSlots),
                    "ADMIN", "PROVIDER_REGISTRATION", id, false, now)]
    else if p.role == Some(DRIVER) then
      [Notification("New driver registered: " + p.fullName, "ADMIN", "DRIVER_REGISTRATION", id, false, now)]
    else []
  }

  function InfoOf(u: User, approved: bool): (info: UserInfo)
    reads u
    requires u.role.Some?
  {
    UserInfo(u.id, u.fullName, u.email, u.phoneNumber, RoleName(u.role.value), approved)
  }

  /** The User object registration fills in, field by field, before saving it. */
  method NewUser(req: RegisterRequest, encodedPassword: string, now: int) returns (u: User)
    ensures fresh(u) && u.id == None
    ensures Snapshot(u) == RegisteredProfile(req, encodedPassword, now)
  {
    u := new User(now);
    SetUpBase(u, req, encodedPassword);
    assert Snapshot(u) == BaseProfile(req, encodedPassword, now);
    if req.role == PROVIDER {
      SetUpProvider(u, req);
    } else if req.role == DRIVER {
      SetUpDriver(u, req);
    } else {
      SetUpAdmin(u);
    }
  }

  /** The fields every role gets from the request. */
  method SetUpBase(u: User, req: RegisterRequest, encodedPassword: string)
    modifies u
    ensures Snapshot(u)
            == old(Snapshot(u)).(fullName := req.fullName, email := req.email,
                                 phoneNumber := req.phoneNumber, password := encodedPassword,
                                 role := Some(req.role))
    ensures u.id == old(u.id)
  {
    u.SetFullName(req.fullName);
    u.SetEmail(req.email);
    u.SetPhoneNumber(req.phoneNumber);
    u.SetPassword(encodedPassword);
    u.SetRole(Some(req.role));
  }

  /** An administrator is approved and enabled at once. */
  method SetUpAdmin(u: User)
    modifies u
    ensures Snapshot(u) == old(Snapshot(u)).(approved := true, enabled := true, verificationStatus := APPROVED)
    ensures u.id == old(u.id)
  {
    u.SetApproved(true);
    u.SetEnabled(true);
    u.SetVerificationStatus(APPROVED);
  }

  /** A provider or driver waits, enabled, for approval. */
  method SetUpPending(u: User)
    modifies u
    ensures Snapshot(u) == old(Snapshot(u)).(approved := false, enabled := true, verificationStatus := PENDING)
    ensures u.id == old(u.id)
  {
    u.SetApproved(false);
    u.SetEnabled(true);
    u.SetVerificationStatus(PENDING);
  }

  method SetUpProvider(u: User, req: RegisterRequest)
    modifies u
    ensures Snapshot(u)
            == old(Snapshot(u)).(approved := false, enabled := true, verificationStatus := PENDING,
                                 parkingAreaName := Some(req.parkingAreaName.GetOr("Pending Setup")),
                                 location := Some(req.location.GetOr("Not Specified")),
                                 totalSlots := Some(req.totalSlots.GetOr(0)),
                                 fullName := req.ownerName.GetOr(req.fullName),
                                 aadharNumber := req.aadharNumber,
                                 propertyPermitNumber := req.propertyPermitNumber)
    ensures u.id == old(u.id)
  {
    SetUpPending(u);
    SetUpHub(u, req);
    u.SetFullName(req.ownerName.GetOr(req.fullName));
    u.SetAadharNumber(req.aadharNumber);
    u.SetPropertyPermitNumber(req.propertyPermitNumber);
  }

  /** A provider's hub, with placeholders for what the form left out. */
  method SetUpHub(u: User, req: RegisterRequest)
    modifies u
    ensures Snapshot(u)
            == old(Snapshot(u)).(parkingAreaName := Some(req.parkingAreaName.GetOr("Pending Setup")),
                                 location := Some(req.location.GetOr("Not Specified")),
                                 totalSlots := Some(req.totalSlots.GetOr(0)))
    ensures u.id == old(u.id)
  {
    u.SetParkingAreaName(Some(req.parkingAreaName.GetOr("Pending Setup")));
    u.SetLocation(Some(req.location.GetOr("Not Specified")));
    u.SetTotalSlots(Some(req.totalSlots.GetOr(0)));
  }

  method SetUpDriver(u: User, req: RegisterRequest)
    modifies u
    ensures Snapshot(u)
            == old(Snapshot(u)).(approved := false, enabled := true, verificationStatus := PENDING,
                                 vehicleName := req.vehicleName, vehicleNumber := req.vehicleNumber,
                                 vehicleType := req.vehicleType)
    ensures u.id == old(u.id)
  {
    SetUpPending(u);
    u.SetVehicleName(req.vehicleName);
    u.SetVehicleNumber(req.vehicleNumber);
    u.SetVehicleType(req.vehicleType);
  }

  /** The saving half of a registration: the new user is stored with the next id, and the
      administrators are told about a provider or driver. */
  method AddAccount(users: UserRepository, notifications: NotificationRepository, req: RegisterRequest,
                    encodedPassword: string, now: int)
    returns (u: User)
    requires users.Valid() && !EmailTaken(users.users, req.email) && !PhoneTaken(users.users, req.phoneNumber)
    modifies users, notifications
    ensures users.Valid()
    ensures users.users == old(users.users) + [u]
    ensures fresh(u) && u.id == Some(old(users.nextId))
    ensures Snapshot(u) == RegisteredProfile(req, encodedPassword, now)
    ensures notifications.items == old(notifications.items) + RegistrationNotice(Snapshot(u), u.id, now)
  {
    u := NewUser(req, encodedPassword, now);
    users.Insert(u);
    if req.role == PROVIDER || req.role == DRIVER {
      notifications.Save(RegistrationNotice(Snapshot(u), u.id, now)[0]);
    }
  }

  /** `register`: rejects a taken e-mail, then a taken phone number, then a confirmation that
      differs from the password; otherwise stores the new user (with the next id), tells
      the administrators about a provider or driver, and answers a provider or driver with
      no token and an admin with a token and the account. */
  method Register(users: UserRepository, notifications: NotificationRepository, req: RegisterRequest,
                  encode: string -> string, issueToken: User -> string, now: int)
    returns (r: Result<AuthResponse, string>)
    requires users.Valid()
    modifies users, notifications
    ensures users.Valid()
    ensures r.Failure? <==>
              old(EmailTaken(users.users, req.email)) || old(PhoneTaken(users.users, req.phoneNumber))
              || req.password != req.confirmPassword
    ensures old(EmailTaken(users.users, req.email)) ==> r == Failure(EmailRegistered)
    ensures (!old(EmailTaken(users.users, req.email)) && old(PhoneTaken(users.users, req.phoneNumber)))
              ==> r == Failure(PhoneRegistered)
    ensures (!old(EmailTaken(users.users, req.email)) && !old(PhoneTaken(users.users, req.phoneNumber))
             && req.password != req.confirmPassword) ==> r == Failure(PasswordsDiffer)
    ensures r.Failure? ==>
              users.users == old(users.users) && users.nextId == old(users.nextId)
              && notifications.items == old(notifications.items)
    ensures r.Success? ==>
              |users.users| == |old(users.users)| + 1 && users.users[..|old(users.users)|] == old(users.users)
    ensures r.Success? ==>
              var u := users.users[|old(users.users)|];
              && fresh(u) && u.id == Some(old(users.nextId))
              && Snapshot(u) == RegisteredProfile(req, encode(req.password), now)
              && notifications.items
                 == old(notifications.items) + RegistrationNotice(Snapshot(u), u.id, now)
              && r.value.role == RoleName(req.role)
              && (NeedsApproval(Some(req.role)) ==>
                    r.value == AuthResponse(None, RoleName(req.role), Some(AwaitApproval), None))
              && (req.role == ADMIN ==>
                    r.value == AuthResponse(Some(issueToken(u)), "ADMIN", Some(RegisteredAdmin),
                                            Some(UserInfo(u.id, u.fullName, u.email, u.phoneNumber,
                                                          "ADMIN", true))))
  {
    var emailTaken := users.ExistsByEmail(req.email);
    if emailTaken {
      return Failure(EmailRegistered);
    }
    var phoneTaken := users.ExistsByPhoneNumber(req.phoneNumber);
    if phoneTaken {
      return Failure(PhoneRegistered);
    }
    if req.password != req.confirmPassword {
      return Failure(PasswordsDiffer);
    }

    var u := AddAccount(users, notifications, req, encode(req.password), now);
    if req.role == PROVIDER || req.role == DRIVER {
      return Success(AuthResponse(None, RoleName(req.role), Some(AwaitApproval), None));
    }
    var token := issueToken(u);
    return Success(AuthResponse(Some(token), RoleName(req.role), Some(RegisteredAdmin),
                                Some(InfoOf(u, u.approved))));
  }

  // ---------------------------------------------------------------------------
  // Login
  // ---------------------------------------------------------------------------

  /** What login decides once the password matched. */
  datatype LoginDecision = PendingApproval | Suspended(accountType: string) | Disabled | Granted

  /** The approval gate for providers and drivers, then the enabled gate for everyone: an
      unapproved provider or driver is told to wait (not refused), an approved but
      disabled one is told which kind of account was suspended, a disabled admin is refused,
      and everyone else gets a token. */
  function Decide(role: Option<Role>, approved: bool, enabled: bool): (d: LoginDecision)
    ensures d == PendingApproval <==> NeedsApproval(role) && !approved
    ensures d.Suspended? <==> NeedsApproval(role) && approved && !enabled
    ensures d.Suspended? ==> d.accountType == (if role == Some(PROVIDER) then "provider" else "driver")
    ensures d == Disabled <==> !NeedsApproval(role) && !enabled
    ensures d == Granted <==> enabled && (approved || !NeedsApproval(role))
  {
    if NeedsApproval(role) && !approved then PendingApproval
    else if NeedsApproval(role) && !enabled then
      Suspended(if role == Some(PROVIDER) then "provider" else "driver")
    else if !enabled then Disabled
    else Granted
  }

  /** The reply for a decision about `u`. */
  function LoginReply(d: LoginDecision, u: User, token: string): (r: Result<AuthResponse, string>)
    reads u
    requires u.role.Some?
    ensures r.Success? <==> d == PendingApproval || d == Granted
    ensures r.Success? ==> r.value.role == RoleName(u.role.value) && r.value.user.Some?
    ensures r.Success? ==> (r.value.token.Some? <==> d == Granted)
    ensures d == PendingApproval ==>
              r.Success? && r.value.message == Some(AwaitingApproval) && r.value.user == Some(InfoOf(u, false))
    ensures d == Granted ==>
              && r.Success? && r.value.token == Some(token) && r.value.message == None
              && r.value.user == Some(InfoOf(u, u.approved))
    ensures d.Suspended? ==> r == Failure("Your " + d.accountType + " account has been suspended by admin.")
    ensures d == Disabled ==> r == Failure(AccountDisabled)
  {
    match d
    case PendingApproval =>
      Success(AuthResponse(None, RoleName(u.role.value), Some(AwaitingApproval), Some(InfoOf(u, false))))
    case Suspended(kind) =>
      Failure("Your " + kind + " account has been suspended by admin.")
    case Disabled =>
      Failure(AccountDisabled)
    case Granted =>
      Success(AuthResponse(Some(token), RoleName(u.role.value), None, Some(InfoOf(u, u.approved))))
  }

  /** `login`: an unknown e-mail and a wrong password get the same refusal; a matching
      password leads to the decision of `Decide` on the stored account. */
  method Login(users: UserRepository, email: string, password: string,
               matches: (string, string) -> bool, issueToken: User -> string)
    returns (r: Result<AuthResponse, string>)
    requires users.Valid()
    ensures !EmailTaken(users.users, email) ==> r == Failure(InvalidCredentials)
    ensures EmailTaken(users.users, email) ==>
              var u := Holder(users.users, email);
              && u.role.Some?
              && (!matches(password, u.password) ==> r == Failure(InvalidCredentials))
              && (matches(password, u.password) ==>
                    r == LoginReply(Decide(u.role, u.approved, u.enabled), u, issueToken(u)))
  {
    var found := users.FindByEmail(email);
    if found.None? {
      return Failure(InvalidCredentials);
    }
    var u := found.value;
    assert u == Holder(users.users, email);
    if !matches(password, u.password) {
      return Failure(InvalidCredentials);
    }
    if u.role == Some(PROVIDER) || u.role == Some(DRIVER) {
      if !u.approved {
        return Success(AuthResponse(None, RoleName(u.role.value), Some(AwaitingApproval),
                                    Some(InfoOf(u, false))));
      }
      if !u.enabled {
        var kind := if u.role == Some(PROVIDER) then "provider" else "driver";
        return Failure("Your " + kind + " account has been suspended by admin.");
      }
    }
    if !u.enabled {
      return Failure(AccountDisabled);
    }
    var token := issueToken(u);
    return Success(AuthResponse(Some(token), RoleName(u.role.value), None, Some(InfoOf(u, u.approved))));
  }

  /** A freshly registered provider or driver is asked to wait on login; a fresh admin gets in. */
  lemma RegisteredAccountLogin(req: RegisterRequest, encodedPassword: string, now: int)
    ensures var p := RegisteredProfile(req, encodedPassword, now);
            Decide(p.role, p.approved, p.enabled) == (if req.role == ADMIN then Granted else PendingApproval)
  {
  }

  // ---------------------------------------------------------------------------
  // Password reset
  // ---------------------------------------------------------------------------

  /** The one-time password for a draw of `nextInt(900000)`. */
  function Otp(draw: int): (otp: string)
    requires 0 <= draw < 900000
  {
    NatToString(100000 + draw)
  }

  /** Every OTP is six decimal digits whose value is 100000 + draw. */
  lemma {:induction false} OtpIsSixDigits(draw: int)
    requires 0 <= draw < 900000
    ensures |Otp(draw)| == 6 && AllDigits(Otp(draw))
    ensures DecValue(Otp(draw)) == 100000 + draw
  {
    assert Pow10(5) == 100000 by {
      assert Pow10(1) == 10;
      assert Pow10(2) == 100;
      assert Pow10(3) == 1000;
      assert Pow10(4) == 10000;
    }
    assert Pow10(6) == 1000000;
    NatToStringLength(100000 + draw, 5);
    DecValueOfNatToString(100000 + draw);
  }

  /** The e-mail `sendResetOtp` hands to the mail service. */
  datatype OtpEmail = OtpEmail(to: string, otp: string)

  /** `sendResetOtp`: for a known e-mail, replaces every token of that user with one new
      token, valid for ten minutes, and mails its text. */
  method SendResetOtp(users: UserRepository, tokens: VerificationTokenRepository, email: string,
                      draw: int, now: int)
    returns (r: Result<OtpEmail, string>)
    requires users.Valid()
    requires 0 <= draw < 900000
    modifies tokens
    ensures !EmailTaken(users.users, email) ==>
              r == Failure(UserNotFoundWithEmail) && tokens.tokens == old(tokens.tokens)
    ensures EmailTaken(users.users, email) ==>
              var u := Holder(users.users, email);
              && r == Success(OtpEmail(email, Otp(draw)))
              && tokens.tokens
                 == TokensNotOf(old(tokens.tokens), u) + [VerificationToken(Otp(draw), now + OtpLifetime, u)]
              && (forall j :: 0 <= j < |tokens.tokens| - 1 ==> tokens.tokens[j].user != u)
  {
    var found := users.FindByEmail(email);
    if found.None? {
      return Failure(UserNotFoundWithEmail);
    }
    var u := found.value;
    assert u == Holder(users.users, email);
    var otp := Otp(draw);
    tokens.DeleteByUser(u);
    tokens.Save(VerificationToken(otp, now + OtpLifetime, u));
    return Success(OtpEmail(u.email, otp));
  }

  /** The effect of a successful reset: the user's password and tokens, and nothing else. */
  method ReplacePassword(users: UserRepository, tokens: VerificationTokenRepository, u: User,
                         encodedPassword: string)
    requires users.Valid() && u in users.users
    modifies u, tokens
    ensures users.Valid()
    ensures Snapshot(u) == old(Snapshot(u)).(password := encodedPassword)
    ensures forall v :: v in users.users && v != u ==> unchanged(v)
    ensures tokens.tokens == TokensNotOf(old(tokens.tokens), u)
  {
    u.SetPassword(encodedPassword);
    tokens.DeleteByUser(u);
  }

  /** `resetPassword`: the user must exist, the OTP must name exactly one token, that token
      must be the user's (compared by id) and not expired; then the password is replaced by
      the encoding of the new one and all the user's tokens are removed. A failure changes
      nothing. */
  method ResetPassword(users: UserRepository, tokens: VerificationTokenRepository, email: string,
                       otp: string, newPassword: string, encode: string -> string, now: int)
    returns (r: Result<(), string>)
    requires users.Valid()
    modifies users.users, tokens
    ensures users.Valid()
    ensures !EmailTaken(users.users, email) ==> r == Failure(UserNotFound)
    ensures EmailTaken(users.users, email) ==>
              var u := Holder(users.users, email);
              var lookup := old(tokens.FindByToken(otp));
              && (lookup == NoToken ==> r == Failure(InvalidOtp))
              && (lookup == SeveralTokens ==> r == Failure(SeveralOtps))
              && (lookup.OneToken? && old(lookup.found.user.id) != old(u.id) ==> r == Failure(OtpOfOtherUser))
              && (lookup.OneToken? && old(lookup.found.user.id) == old(u.id) && IsExpired(lookup.found, now) ==>
                    r == Failure(OtpExpired))
              && (lookup.OneToken? && old(lookup.found.user.id) == old(u.id) && !IsExpired(lookup.found, now) ==>
                    r == Success(())
                    && Snapshot(u) == old(Snapshot(u)).(password := encode(newPassword))
                    && tokens.tokens == TokensNotOf(old(tokens.tokens), u))
    ensures forall v :: v in users.users && v.email != email ==> unchanged(v)
    ensures r.Failure? ==> tokens.tokens == old(tokens.tokens) && unchanged(users.users)
  {
    var found := users.FindByEmail(email);
    if found.None? {
      return Failure(UserNotFound);
    }
    var u := found.value;
    assert u == Holder(users.users, email);
    r := ResetFor(users, tokens, u, otp, encode(newPassword), now);
  }

  /** The OTP checks of `resetPassword` once the user `u` is found. */
  method ResetFor(users: UserRepository, tokens: VerificationTokenRepository, u: User,
                  otp: string, encodedPassword: string, now: int)
    returns (r: Result<(), string>)
    requires users.Valid() && u in users.users
    modifies u, tokens
    ensures users.Valid()
    ensures var lookup := old(tokens.FindByToken(otp));
            && (lookup == NoToken ==> r == Failure(InvalidOtp))
            && (lookup == SeveralTokens ==> r == Failure(SeveralOtps))
            && (lookup.OneToken? && old(lookup.found.user.id) != old(u.id) ==> r == Failure(OtpOfOtherUser))
            && (lookup.OneToken? && old(lookup.found.user.id) == old(u.id) && IsExpired(lookup.found, now) ==>
                  r == Failure(OtpExpired))
            && (lookup.OneToken? && old(lookup.found.user.id) == old(u.id) && !IsExpired(lookup.found, now) ==>
                  r == Success(())
                  && Snapshot(u) == old(Snapshot(u)).(password := encodedPassword)
                  && tokens.tokens == TokensNotOf(old(tokens.tokens), u))
    ensures forall v :: v in users.users && v != u ==> unchanged(v)
    ensures r.Failure? ==> tokens.tokens == old(tokens.tokens) && unchanged(u)
  {
    var lookup := tokens.FindByToken(otp);
    match lookup
    case NoToken =>
      return Failure(InvalidOtp);
    case SeveralTokens =>
      return Failure(SeveralOtps);
    case OneToken(t) =>
      if t.user.id != u.id {
        return Failure(OtpOfOtherUser);
      }
      if IsExpired(t, now) {
        return Failure(OtpExpired);
      }
      ReplacePassword(users, tokens, u, encodedPassword);
      return Success(());
  }
}
