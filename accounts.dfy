/** User accounts: the Role and VerificationStatus enums and the mutable User entity. */
module Accounts {
  import opened Wrappers
  import opened Strings

  datatype Role = ADMIN | PROVIDER | DRIVER

  /** The values of the verification lifecycle that the account code assigns. */
  datatype VerificationStatus = PENDING | APPROVED

  /** `role.name()`. */
  function RoleName(r: Role): (s: string)
    ensures IsUpperCase(s)
  {
    match r
    case ADMIN => "ADMIN"
    case PROVIDER => "PROVIDER"
    case DRIVER => "DRIVER"
  }

  /** `Role.valueOf(s)`: the constant whose name is exactly `s`, or None where Java throws. */
  function RoleValueOf(s: string): (r: Option<Role>)
    ensures r.Some? ==> RoleName(r.value) == s
    ensures r.None? ==> forall role :: RoleName(role) != s
  {
    if s == "ADMIN" then Some(ADMIN)
    else if s == "PROVIDER" then Some(PROVIDER)
    else if s == "DRIVER" then Some(DRIVER)
    else None
  }

  /** `Role.valueOf(s.toUpperCase())` finds exactly the role whose name equals `s` ignoring case. */
  lemma {:induction false} ParseRoleIgnoringCase(s: string)
    ensures forall role :: RoleValueOf(ToUpper(s)) == Some(role) <==> EqualsIgnoreCase(s, RoleName(role))
  {
    forall role
      ensures RoleValueOf(ToUpper(s)) == Some(role) <==> EqualsIgnoreCase(s, RoleName(role))
    {
      UpperMatchIsCaseInsensitive(s, RoleName(role));
    }
  }

  /** The roles that need an administrator's approval before they may log in. */
  predicate NeedsApproval(role: Option<Role>) {
    role == Some(PROVIDER) || role == Some(DRIVER)
  }

  /** The users table row. Strings the source leaves null until a setter runs are modelled
      as empty strings; `role`, the optional profile fields and the balance keep their null. */
  class User {
    var id: Option<int>
    var fullName: string
    var email: string
    var phoneNumber: string
    var password: string
    var role: Option<Role>
    var approved: bool
    var enabled: bool
    var verificationStatus: VerificationStatus
    var vehicleName: Option<string>
    var vehicleNumber: Option<string>
    var vehicleType: Option<string>
    var parkingAreaName: Option<string>
    var location: Option<string>
    var totalSlots: Option<int>
    var aadharNumber: Option<string>
    var propertyPermitNumber: Option<string>
    var walletBalance: Option<real>
    var createdAt: int

    /** `new User()`: the field initialisers only. */
    constructor (now: int)
      ensures id == None && role == None
      ensures !approved && enabled && verificationStatus == PENDING
      ensures walletBalance == Some(0.0) && createdAt == now
      ensures fullName == "" && email == "" && phoneNumber == "" && password == ""
      ensures vehicleName == None && vehicleNumber == None && vehicleType == None
      ensures parkingAreaName == None && location == None && totalSlots == None
      ensures aadharNumber == None && propertyPermitNumber == None
    {
      id, role := None, None;
      fullName, email, phoneNumber, password := "", "", "", "";
      approved, enabled, verificationStatus := false, true, PENDING;
      vehicleName, vehicleNumber, vehicleType := None, None, None;
      parkingAreaName, location, totalSlots := None, None, None;
      aadharNumber, propertyPermitNumber := None, None;
      walletBalance, createdAt := Some(0.0), now;
    }

    /** The registration constructor: PROVIDER and DRIVER start unapproved and PENDING,
        any other role (ADMIN, or none) starts approved and APPROVED; `enabled` keeps its
        initial `true` for every role. */
    constructor WithRole(fullName: string, email: string, phoneNumber: string, password: string,
                         role: Option<Role>, now: int)
      ensures this.fullName == fullName && this.email == email
      ensures this.phoneNumber == phoneNumber && this.password == password && this.role == role
      ensures approved == !NeedsApproval(role)
      ensures verificationStatus == (if NeedsApproval(role) then PENDING else APPROVED)
      ensures enabled
      ensures id == None && walletBalance == Some(0.0) && createdAt == now
      ensures vehicleName == None && vehicleNumber == None && vehicleType == None
      ensures parkingAreaName == None && location == None && totalSlots == None
      ensures aadharNumber == None && propertyPermitNumber == None
    {
      id := None;
      this.fullName, this.email, this.phoneNumber, this.password := fullName, email, phoneNumber, password;
      this.role := role;
      enabled := true;
      vehicleName, vehicleNumber, vehicleType := None, None, None;
      parkingAreaName, location, totalSlots := None, None, None;
      aadharNumber, propertyPermitNumber := None, None;
      walletBalance, createdAt := Some(0.0), now;
      if role == Some(PROVIDER) || role == Some(DRIVER) {
        approved := false;
        verificationStatus := PENDING;
      } else {
        approved := true;
        verificationStatus := APPROVED;
      }
    }

    // Setters: each frame names its one field, so nothing else can change.

    method SetFullName(v: string) modifies this`fullName ensures fullName == v { fullName := v; }
    method SetEmail(v: string) modifies this`email ensures email == v { email := v; }
    method SetPhoneNumber(v: string) modifies this`phoneNumber ensures phoneNumber == v { phoneNumber := v; }
    method SetPassword(v: string) modifies this`password ensures password == v { password := v; }
    method SetRole(v: Option<Role>) modifies this`role ensures role == v { role := v; }
    method SetApproved(v: bool) modifies this`approved ensures approved == v { approved := v; }
    method SetEnabled(v: bool) modifies this`enabled ensures enabled == v { enabled := v; }
    method SetVerificationStatus(v: VerificationStatus)
      modifies this`verificationStatus ensures verificationStatus == v
    { verificationStatus := v; }
    method SetVehicleName(v: Option<string>) modifies this`vehicleName ensures vehicleName == v { vehicleName := v; }
    method SetVehicleNumber(v: Option<string>)
      modifies this`vehicleNumber ensures vehicleNumber == v
    { vehicleNumber := v; }
    method SetVehicleType(v: Option<string>) modifies this`vehicleType ensures vehicleType == v { vehicleType := v; }
    method SetParkingAreaName(v: Option<string>)
      modifies this`parkingAreaName ensures parkingAreaName == v
    { parkingAreaName := v; }
    method SetLocation(v: Option<string>) modifies this`location ensures location == v { location := v; }
    method SetTotalSlots(v: Option<int>) modifies this`totalSlots ensures totalSlots == v { totalSlots := v; }
    method SetAadharNumber(v: Option<string>)
      modifies this`aadharNumber ensures aadharNumber == v
    { aadharNumber := v; }
    method SetPropertyPermitNumber(v: Option<string>)
      modifies this`propertyPermitNumber ensures propertyPermitNumber == v
    { propertyPermitNumber := v; }
    method SetWalletBalance(v: Option<real>)
      modifies this`walletBalance ensures walletBalance == v
    { walletBalance := v; }
  }

  /** The values of a user's columns other than the generated id. */
  datatype Profile = Profile(
    fullName: string, email: string, phoneNumber: string, password: string,
    role: Option<Role>, approved: bool, enabled: bool, verificationStatus: VerificationStatus,
    vehicleName: Option<string>, vehicleNumber: Option<string>, vehicleType: Option<string>,
    parkingAreaName: Option<string>, location: Option<string>, totalSlots: Option<int>,
    aadharNumber: Option<string>, propertyPermitNumber: Option<string>,
    walletBalance: Option<real>, createdAt: int)

  function Snapshot(u: User): Profile
    reads u
  {
    Profile(u.fullName, u.email, u.phoneNumber, u.password, u.role, u.approved, u.enabled,
            u.verificationStatus, u.vehicleName, u.vehicleNumber, u.vehicleType,
            u.parkingAreaName, u.location, u.totalSlots, u.aadharNumber, u.propertyPermitNumber,
            u.walletBalance, u.createdAt)
  }

  /** `getWalletBalance() != null ? getWalletBalance() : 0.0`. */
  function BalanceOf(u: User): real
    reads u
  {
    u.walletBalance.GetOr(0.0)
  }
}
