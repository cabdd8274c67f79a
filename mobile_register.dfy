/** The registration screen of the mobile app (`handleRegister` of its UnifiedRegister):
    an ordered chain of checks on the form, each stopping the attempt with an alert, then
    the request payload, then the alert that reports how the request ended. */
module MobileRegister {
  import opened Wrappers
  import opened Strings
  import opened Accounts
  import AuthService

  /** The screen's `role` prop: lower-case in this app. */
  datatype ScreenRole = Driver | Provider | Admin

  /** The role's own spelling, which is also what the success message shows. */
  function RoleText(r: ScreenRole): string {
    match r
    case Driver => "driver"
    case Provider => "provider"
    case Admin => "admin"
  }

  /** The backend role a screen role stands for. */
  function BackendRole(r: ScreenRole): Role {
    match r
    case Driver => DRIVER
    case Provider => PROVIDER
    case Admin => ADMIN
  }

  /** The text inputs of the screen (every one a string, "" until typed into; the vehicle
      type picker starts at "Car"). */
  datatype Form = Form(
    name: string, email: string, phone: string, password: string, confirmPassword: string,
    vehicleName: string, vehicleNumber: string, vehicleType: string,
    parkingAreaName: string, location: string, totalSlots: string,
    ownerName: string, aadharNumber: string, propertyPermitNumber: string)

  const EmptyForm := Form("", "", "", "", "", "", "", "Car", "", "", "", "", "", "")

  /** A native alert: title and message. */
  datatype Alert = Alert(title: string, message: string)

  const MissingRequired := Alert("Incomplete", "Please provide all required parameters.")
  const MissingVehicle := Alert("Incomplete", "Please provide vehicle details.")
  const MissingHub := Alert("Incomplete", "Please provide all parking hub and verification details.")
  const PasswordMismatch := Alert("Mismatch", "Confirmation key does not match password.")

  /** The object passed to the `register` API call; `None` is a field left `undefined`,
      which the JSON body omits. */
  datatype Payload = Payload(
    fullName: string, email: string, phoneNumber: string, password: string,
    confirmPassword: string, role: string,
    vehicleName: Option<string>, vehicleNumber: Option<string>, vehicleType: Option<string>,
    parkingAreaName: Option<string>, location: Option<string>, totalSlots: Option<int>,
    ownerName: Option<string>, aadharNumber: Option<string>, propertyPermitNumber: Option<string>)

  /** An empty string is the only falsy string. */
  predicate CommonMissing(f: Form) {
    f.name == "" || f.email == "" || f.phone == "" || f.password == "" || f.confirmPassword == ""
  }

  predicate VehicleMissing(f: Form) {
    f.vehicleName == "" || f.vehicleNumber == ""
  }

  predicate HubMissing(f: Form) {
    || f.parkingAreaName == "" || f.location == "" || f.totalSlots == ""
    || f.ownerName == "" || f.aadharNumber == "" || f.propertyPermitNumber == ""
  }

  /** The first check that stops the attempt, in the screen's order: the common fields, the
      role's own fields, and only then the password confirmation. */
  function Check(role: ScreenRole, f: Form): (stop: Option<Alert>)
    ensures CommonMissing(f) ==> stop == Some(MissingRequired)
    ensures !CommonMissing(f) && role == Driver && VehicleMissing(f) ==> stop == Some(MissingVehicle)
    ensures !CommonMissing(f) && role == Provider && HubMissing(f) ==> stop == Some(MissingHub)
    ensures stop == Some(PasswordMismatch) <==>
              && !CommonMissing(f) && !(role == Driver && VehicleMissing(f))
              && !(role == Provider && HubMissing(f)) && f.password != f.confirmPassword
    ensures stop.None? <==>
              && !CommonMissing(f) && !(role == Driver && VehicleMissing(f))
              && !(role == Provider && HubMissing(f)) && f.password == f.confirmPassword
  {
    if CommonMissing(f) then Some(MissingRequired)
    else if role == Driver && VehicleMissing(f) then Some(MissingVehicle)
    else if role == Provider && HubMissing(f) then Some(MissingHub)
    else if f.password != f.confirmPassword then Some(PasswordMismatch)
    else None
  }

  /** A field sent only for one role. */
  function Only<T>(role: ScreenRole, wanted: ScreenRole, v: T): (r: Option<T>)
    ensures r.Some? <==> role == wanted
    ensures r.Some? ==> r.value == v
  {
    if role == wanted then Some(v) else None
  }

  /** The request payload: name, email and phone trimmed, the role upper-cased, the vehicle
      fields for a driver only, the hub and verification fields for a provider only, the slot
      count as `parseInt(text) || 0`. */
  function BuildPayload(role: ScreenRole, f: Form): (p: Payload)
    ensures p.fullName == Trim(f.name) && p.email == Trim(f.email) && p.phoneNumber == Trim(f.phone)
    ensures p.password == f.password && p.confirmPassword == f.confirmPassword
    ensures p.role == ToUpper(RoleText(role))
    ensures role == Driver <==> p.vehicleName.Some? && p.vehicleNumber.Some? && p.vehicleType.Some?
    ensures role == Driver ==>
              p.vehicleName == Some(f.vehicleName) && p.vehicleNumber == Some(f.vehicleNumber)
              && p.vehicleType == Some(f.vehicleType)
    ensures role == Provider <==> p.parkingAreaName.Some? && p.location.Some? && p.totalSlots.Some?
    ensures role == Provider <==> p.ownerName.Some? && p.aadharNumber.Some? && p.propertyPermitNumber.Some?
    ensures role == Provider ==>
              && p.parkingAreaName == Some(f.parkingAreaName) && p.location == Some(f.location)
              && p.totalSlots == Some(ParseIntOrZero(f.totalSlots)) && p.ownerName == Some(f.ownerName)
              && p.aadharNumber == Some(f.aadharNumber)
              && p.propertyPermitNumber == Some(f.propertyPermitNumber)
  {
    Payload(
      Trim(f.name), Trim(f.email), Trim(f.phone), f.password, f.confirmPassword,
      ToUpper(RoleText(role)),
      Only(role, Driver, f.vehicleName), Only(role, Driver, f.vehicleNumber),
      Only(role, Driver, f.vehicleType),
      Only(role, Provider, f.parkingAreaName), Only(role, Provider, f.location),
      Only(role, Provider, ParseIntOrZero(f.totalSlots)),
      Only(role, Provider, f.ownerName), Only(role, Provider, f.aadharNumber),
      Only(role, Provider, f.propertyPermitNumber))
  }

  /** What the HTTP client reports when `register` rejects: the error's `code`, the server's
      reply if one came (its body's `message` and its status), whether a request went out,
      and the error's own `message`. A missing string is "". */
  datatype ErrorResponse = ErrorResponse(message: string, status: int)
  datatype RequestError = RequestError(
    code: string, response: Option<ErrorResponse>, requestSent: bool, message: string)

  /** How the awaited `register` call ends. */
  datatype Reply = Registered | Rejected(error: RequestError)

  /** `a || b` on strings. */
  function Or(a: string, b: string): (r: string)
    ensures a != "" ==> r == a
    ensures a == "" ==> r == b
  {
    if a != "" then a else b
  }

  const PendingHead := "Onboarding initiated! Your "
  const PendingTail := " account is now pending admin approval. You can access the portal once verified."
  const ReadyToLogin := "Account successfully initialized. Proceeding to login."

  /** The success alert's message: providers and drivers are told, by the role's own name,
      that they await approval; an admin is told to proceed to login. */
  function SuccessMessage(role: ScreenRole): (m: string)
    ensures |m| > 0
    ensures m == ReadyToLogin <==> role == Admin
    ensures role != Admin ==> m == PendingHead + RoleText(role) + PendingTail
  {
    if role == Provider || role == Driver then PendingHead + RoleText(role) + PendingTail
    else ReadyToLogin
  }

  const DefaultError := "Initialization failed. System error."
  const TimedOut := "Server connection timed out (10s). Ensure Firewall allows port 8080. Target: "
  const NoResponse := "No response from server. Check Firewall/Network. Target: "
  const ServerErrorHead := "Server error: "

  /** The error alert's message, by the first matching case: a timeout, a server reply (its
      message, else its status), no reply at all, else the error's own message. `api` is the
      server address the app is built with. */
  function ErrorMessage(e: RequestError, api: string): (m: string)
    ensures m != ""
    ensures e.code == "ECONNABORTED" ==> m == TimedOut + api
    ensures e.code != "ECONNABORTED" && e.response.Some? ==>
              m == (if e.response.value.message != "" then e.response.value.message
                    else ServerErrorHead + IntToString(e.response.value.status))
    ensures e.code != "ECONNABORTED" && e.response.None? && e.requestSent ==> m == NoResponse + api
    ensures e.code != "ECONNABORTED" && e.response.None? && !e.requestSent ==>
              m == (if e.message != "" then e.message else DefaultError)
  {
    if e.code == "ECONNABORTED" then TimedOut + api
    else if e.response.Some? then
      Or(e.response.value.message, ServerErrorHead + IntToString(e.response.value.status))
    else if e.requestSent then NoResponse + api
    else Or(e.message, DefaultError)
  }

  /** The alert that ends a submitted attempt. */
  function Outcome(role: ScreenRole, reply: Reply, api: string): (a: Alert)
    ensures a.title == "Success" <==> reply == Registered
    ensures a.message != ""
    ensures reply == Registered ==> a.message == SuccessMessage(role)
    ensures reply.Rejected? ==> a.title == "Error" && a.message == ErrorMessage(reply.error, api)
  {
    match reply
    case Registered => Alert("Success", SuccessMessage(role))
    case Rejected(e) => Alert("Error", ErrorMessage(e, api))
  }

  /** One press of the register button: the alert shown, the payload sent (if any) and the
      loading flag afterwards. */
  datatype Attempt = Attempt(alert: Alert, sent: Option<Payload>, isLoading: bool)

  /** `handleRegister`. A failed check shows its alert, sends nothing and leaves the loading
      flag as it was; otherwise the payload is sent, the reply decides the alert, and the
      loading flag ends false either way. */
  function HandleRegister(isLoading: bool, role: ScreenRole, f: Form, reply: Reply, api: string): (a: Attempt)
    ensures a.sent.None? <==> Check(role, f).Some?
    ensures a.sent.None? ==> a.alert == Check(role, f).value && a.isLoading == isLoading
    ensures a.sent.Some? ==>
              a.sent.value == BuildPayload(role, f) && a.alert == Outcome(role, reply, api) && !a.isLoading
  {
    match Check(role, f)
    case Some(stop) => Attempt(stop, None, isLoading)
    case None => Attempt(Outcome(role, reply, api), Some(BuildPayload(role, f)), false)
  }

  /** Upper-casing the screen's role gives the backend role's name. */
  lemma {:induction false} UpperRoleText(role: ScreenRole)
    ensures ToUpper(RoleText(role)) == RoleName(BackendRole(role))
  {
    var t := RoleText(role);
    var u := ToUpper(t);
    var name := RoleName(BackendRole(role));
    assert |u| == |name|;
    forall i | 0 <= i < |u|
      ensures u[i] == name[i]
    {
      assert u[i] == UpperChar(t[i]);
    }
  }

  /** The upper-cased role is exactly the name of the backend role the screen is for, so the
      server reads it back. */
  lemma {:induction false} PayloadRoleIsBackendRole(role: ScreenRole, f: Form)
    ensures RoleValueOf(BuildPayload(role, f).role) == Some(BackendRole(role))
  {
    UpperRoleText(role);
  }

  /** A string that neither starts nor ends with white space. */
  predicate Trimmed(s: string) {
    s == [] || (!IsJsSpace(s[0]) && !IsJsSpace(s[|s| - 1]))
  }

  lemma {:induction false} TrimGivesTrimmed(s: string)
    ensures Trimmed(Trim(s))
  {
    TrimIsNormal(s);
  }

  /** The sent name, email and phone never start or end with white space. */
  lemma {:induction false} PayloadIsTrimmed(role: ScreenRole, f: Form)
    ensures var p := BuildPayload(role, f);
            Trimmed(p.fullName) && Trimmed(p.email) && Trimmed(p.phoneNumber)
  {
    var p := BuildPayload(role, f);
    TrimGivesTrimmed(f.name);
    TrimGivesTrimmed(f.email);
    TrimGivesTrimmed(f.phone);
    assert p.fullName == Trim(f.name) && p.email == Trim(f.email) && p.phoneNumber == Trim(f.phone);
  }

  /** A provider's slot count typed as plain digits is sent as the number they denote. */
  lemma {:induction false} DigitSlotsAreSent(f: Form)
    requires |f.totalSlots| > 0 && AllDigits(f.totalSlots)
    ensures BuildPayload(Provider, f).totalSlots == Some(DecValue(f.totalSlots))
  {
    ParseIntOfDigits(f.totalSlots);
  }

  /** The emptiness checks run before trimming: a name made only of blanks is checked like
      any other non-empty name, and the payload carries it as the empty string. */
  lemma {:induction false} BlankNameIsSentEmpty(isLoading: bool, role: ScreenRole, f: Form, reply: Reply,
                                                api: string)
    requires |f.name| > 0 && forall i :: 0 <= i < |f.name| ==> IsJsSpace(f.name[i])
    ensures Check(role, f) == Check(role, f.(name := "x"))
    ensures BuildPayload(role, f).fullName == ""
    ensures Check(role, f).None? ==> HandleRegister(isLoading, role, f, reply, api).sent.value.fullName == ""
  {
    assert TrimStart(f.name) == [];
  }

  /** The backend request the JSON body becomes: omitted fields arrive as null; a role the
      backend enum does not know fails to deserialise. */
  function ToRequest(p: Payload): (r: Option<AuthService.RegisterRequest>)
    ensures r.Some? <==> RoleValueOf(p.role).Some?
    ensures r.Some? ==>
              && r.value.role == RoleValueOf(p.role).value && r.value.email == p.email
              && r.value.phoneNumber == p.phoneNumber && r.value.fullName == p.fullName
              && r.value.parkingAreaName == p.parkingAreaName && r.value.location == p.location
              && r.value.totalSlots == p.totalSlots && r.value.ownerName == p.ownerName
              && r.value.vehicleName == p.vehicleName && r.value.vehicleNumber == p.vehicleNumber
              && r.value.aadharNumber == p.aadharNumber
  {
    match RoleValueOf(p.role)
    case None => None
    case Some(role) =>
      Some(AuthService.RegisterRequest(
        p.fullName, p.email, p.phoneNumber, p.password, p.confirmPassword, role,
        p.parkingAreaName, p.location, p.totalSlots, p.ownerName, p.aadharNumber,
        p.propertyPermitNumber, p.vehicleName, p.vehicleNumber, p.vehicleType))
  }

  /** A provider registered from this screen keeps the hub details typed in (the backend's
      placeholders never apply, since every hub field is sent), is named after the owner,
      and starts unapproved. */
  lemma {:induction false} ProviderKeepsHubDetails(f: Form, encodedPassword: string, now: int)
    requires Check(Provider, f).None?
    ensures var req := ToRequest(BuildPayload(Provider, f));
            && req.Some?
            && var u := AuthService.RegisteredProfile(req.value, encodedPassword, now);
            && u.role == Some(PROVIDER) && !u.approved
            && u.parkingAreaName == Some(f.parkingAreaName) && u.location == Some(f.location)
            && u.totalSlots == Some(ParseIntOrZero(f.totalSlots)) && u.fullName == f.ownerName
            && u.aadharNumber == Some(f.aadharNumber)
  {
    PayloadRoleIsBackendRole(Provider, f);
  }
}
