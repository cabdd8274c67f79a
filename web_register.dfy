/** The registration page of the web frontend (`handleRegister` of its UnifiedRegister):
    both messages are cleared, an ordered chain of checks may set the error message and
    stop, otherwise the payload is posted and the reply sets one of the two messages. */
module WebRegister {
  import opened Wrappers
  import opened Strings
  import opened Accounts
  import AuthService
  import MobileRegister

  /** The form's fields, every one a string ("" until typed into; the vehicle type starts at
      "Car"). There is no owner name or document field on this page. */
  datatype Form = Form(
    name: string, email: string, phone: string, password: string, confirmPassword: string,
    parkingAreaName: string, location: string, totalSlots: string,
    vehicleName: string, vehicleNumber: string, vehicleType: string)

  const EmptyForm := Form("", "", "", "", "", "", "", "", "", "", "Car")

  /** The page's state that `handleRegister` writes. */
  datatype PageState = PageState(errorMessage: string, successMessage: string, isLoading: bool)

  const MissingRequired := "Please fill in all required fields"
  const PasswordMismatch := "Passwords do not match"
  const MissingLocation := "Location is required for providers"
  const MissingVehicle := "Vehicle details are required for drivers"
  const RegistrationFailed := "Registration failed"
  const Registered := "Registered successfully. Redirecting to login..."
  const NetworkFailed := "Something went wrong. Please try again."

  /** The JSON body posted; `None` is a field left `undefined`, which the body omits. */
  datatype Payload = Payload(
    fullName: string, email: string, phoneNumber: string, password: string,
    confirmPassword: string, role: string, parkingAreaName: string, location: string,
    totalSlots: Option<int>, vehicleName: Option<string>, vehicleNumber: Option<string>,
    vehicleType: Option<string>)

  predicate CommonMissing(f: Form) {
    f.name == "" || f.email == "" || f.password == "" || f.confirmPassword == "" || f.phone == ""
  }

  predicate VehicleMissing(f: Form) {
    f.vehicleName == "" || f.vehicleNumber == ""
  }

  /** The first check that stops the attempt, in the page's order: the common fields, the
      password confirmation, and only then the role's own fields (a provider's location, a
      driver's vehicle). */
  function Check(role: Role, f: Form): (stop: Option<string>)
    ensures CommonMissing(f) ==> stop == Some(MissingRequired)
    ensures !CommonMissing(f) && f.password != f.confirmPassword ==> stop == Some(PasswordMismatch)
    ensures stop == Some(MissingLocation) <==>
              !CommonMissing(f) && f.password == f.confirmPassword && role == PROVIDER && f.location == ""
    ensures stop == Some(MissingVehicle) <==>
              !CommonMissing(f) && f.password == f.confirmPassword && role == DRIVER && VehicleMissing(f)
    ensures stop.None? <==>
              && !CommonMissing(f) && f.password == f.confirmPassword
              && !(role == PROVIDER && f.location == "") && !(role == DRIVER && VehicleMissing(f))
  {
    if CommonMissing(f) then Some(MissingRequired)
    else if f.password != f.confirmPassword then Some(PasswordMismatch)
    else if role == PROVIDER && f.location == "" then Some(MissingLocation)
    else if role == DRIVER && VehicleMissing(f) then Some(MissingVehicle)
    else None
  }

  /** The posted body: nothing trimmed, the role's own name, the hub name and location for
      every role, the slot count (`parseInt(text) || 0`) for a provider only, the vehicle
      fields for a driver only. */
  function BuildPayload(role: Role, f: Form): (p: Payload)
    ensures p.fullName == f.name && p.email == f.email && p.phoneNumber == f.phone
    ensures p.password == f.password && p.confirmPassword == f.confirmPassword
    ensures RoleValueOf(p.role) == Some(role)
    ensures p.parkingAreaName == f.parkingAreaName && p.location == f.location
    ensures p.totalSlots.Some? <==> role == PROVIDER
    ensures role == PROVIDER ==> p.totalSlots == Some(ParseIntOrZero(f.totalSlots))
    ensures role == DRIVER <==> p.vehicleName.Some? && p.vehicleNumber.Some? && p.vehicleType.Some?
    ensures role == DRIVER ==>
              p.vehicleName == Some(f.vehicleName) && p.vehicleNumber == Some(f.vehicleNumber)
              && p.vehicleType == Some(f.vehicleType)
  {
    var driver := role == DRIVER;
    Payload(
      f.name, f.email, f.phone, f.password, f.confirmPassword, RoleName(role),
      f.parkingAreaName, f.location,
      if role == PROVIDER then Some(ParseIntOrZero(f.totalSlots)) else None,
      if driver then Some(f.vehicleName) else None,
      if driver then Some(f.vehicleNumber) else None,
      if driver then Some(f.vehicleType) else None)
  }

  /** How the `fetch` ends: it throws, or a response arrives with its `ok` flag and the
      `message` of its JSON body ("" when the body is missing, unparsable or has none). */
  datatype Reply = Thrown | Response(ok: bool, message: string)

  /** The messages a posted attempt leaves: the server's message (else the generic one) on a
      non-OK response, the success message on an OK one, the generic network message when the
      fetch throws. */
  function Settle(reply: Reply): (s: PageState)
    ensures !s.isLoading
    ensures s.successMessage != "" <==> reply.Response? && reply.ok
    ensures s.successMessage == "" <==> s.errorMessage != ""
    ensures reply.Response? && !reply.ok && reply.message != "" ==> s.errorMessage == reply.message
    ensures reply.Response? && !reply.ok && reply.message == "" ==> s.errorMessage == RegistrationFailed
    ensures reply.Response? && reply.ok ==> s == PageState("", Registered, false)
    ensures reply == Thrown ==> s == PageState(NetworkFailed, "", false)
  {
    match reply
    case Thrown => PageState(NetworkFailed, "", false)
    case Response(ok, message) =>
      if !ok then PageState(if message != "" then message else RegistrationFailed, "", false)
      else PageState("", Registered, false)
  }

  /** One submit: the page state afterwards and the body posted, if any. */
  datatype Attempt = Attempt(state: PageState, sent: Option<Payload>)

  /** `handleRegister`. A failed check leaves only its message, sends nothing and does not
      touch the loading flag; otherwise the payload is posted and the reply settles the page.
      Whatever messages were on the page before are gone. */
  function HandleRegister(before: PageState, role: Role, f: Form, reply: Reply): (a: Attempt)
    ensures a.sent.None? <==> Check(role, f).Some?
    ensures a.sent.None? ==>
              a.state == PageState(Check(role, f).value, "", before.isLoading)
    ensures a.sent.Some? ==> a.sent.value == BuildPayload(role, f) && a.state == Settle(reply)
    ensures (a.state.errorMessage == "") != (a.state.successMessage == "")
  {
    match Check(role, f)
    case Some(message) => Attempt(PageState(message, "", before.isLoading), None)
    case None => Attempt(Settle(reply), Some(BuildPayload(role, f)))
  }

  /** Messages are cleared at the start of every attempt: what an attempt shows does not
      depend on what the page showed before it. */
  lemma {:induction false} MessagesCleared(before: PageState, before': PageState, role: Role, f: Form, reply: Reply)
    requires before.isLoading == before'.isLoading
    ensures HandleRegister(before, role, f, reply) == HandleRegister(before', role, f, reply)
  {
  }

  /** The backend request the JSON body becomes: omitted fields arrive as null, and the
      owner name and documents are never sent. */
  function ToRequest(role: Role, p: Payload): (r: AuthService.RegisterRequest)
    requires RoleValueOf(p.role) == Some(role)
    ensures r.role == role && r.fullName == p.fullName && r.email == p.email
    ensures r.parkingAreaName == Some(p.parkingAreaName) && r.location == Some(p.location)
    ensures r.totalSlots == p.totalSlots && r.ownerName.None?
    ensures r.vehicleName == p.vehicleName && r.vehicleNumber == p.vehicleNumber
  {
    AuthService.RegisterRequest(
      p.fullName, p.email, p.phoneNumber, p.password, p.confirmPassword, role,
      Some(p.parkingAreaName), Some(p.location), p.totalSlots, None, None, None,
      p.vehicleName, p.vehicleNumber, p.vehicleType)
  }

  /** A provider registered from this page gets the hub name exactly as typed: an empty
      field arrives as "", not as null, so the backend's "Pending Setup" placeholder never
      applies; the account is named as typed and carries no documents. */
  lemma {:induction false} ProviderHubAsTyped(f: Form, encodedPassword: string, now: int)
    requires Check(PROVIDER, f).None?
    ensures var u := AuthService.RegisteredProfile(ToRequest(PROVIDER, BuildPayload(PROVIDER, f)),
                                                   encodedPassword, now);
            && u.parkingAreaName == Some(f.parkingAreaName) && u.location == Some(f.location)
            && u.fullName == f.name && u.aadharNumber.None? && u.propertyPermitNumber.None?
            && !u.approved
  {
  }

  /** The hub name and location a driver's page sends are dropped by the backend. */
  lemma {:induction false} DriverHubFieldsDropped(f: Form, encodedPassword: string, now: int)
    ensures var u := AuthService.RegisteredProfile(ToRequest(DRIVER, BuildPayload(DRIVER, f)),
                                                   encodedPassword, now);
            && u.parkingAreaName.None? && u.location.None? && u.totalSlots.None?
            && u.vehicleName == Some(f.vehicleName) && u.vehicleNumber == Some(f.vehicleNumber)
  {
  }

  /** The two registration screens check in different orders: a driver who leaves the
      vehicle empty and mistypes the confirmation is told about the vehicle on the mobile app
      and about the password on the web page. */
  lemma {:induction false} ScreensCheckInDifferentOrders()
    ensures var mobile := MobileRegister.EmptyForm.(name := "n", email := "e", phone := "p",
                                                    password := "a", confirmPassword := "b");
            var web := EmptyForm.(name := "n", email := "e", phone := "p",
                                  password := "a", confirmPassword := "b");
            && MobileRegister.Check(MobileRegister.Driver, mobile) == Some(MobileRegister.MissingVehicle)
            && Check(DRIVER, web) == Some(PasswordMismatch)
  {
  }
}
