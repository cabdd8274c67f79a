/** The administrator's driver management (the backend's AdminDriverService): listing
    drivers by approval state, and approving, rejecting, suspending and reactivating one. */
module AdminDrivers {
  import opened Wrappers
  import opened Strings
  import opened Accounts
  import opened Repositories
  import AuthService

  const DriverNotFound := "Driver not found"
  const NotADriver := "User is not a driver"
  const ApprovedMessage := "Account Approved! Welcome to ParkEase."
  const RejectedMessage := "A driver application was rejected by admin."
  const SuspendedMessage := "Your driver account has been suspended by admin."
  const ReactivatedMessage := "Your driver account has been reactivated by admin."

  /** One row of the administrator's driver list. */
  datatype AdminDriverResponse = AdminDriverResponse(
    id: Option<int>, name: string, email: string, phone: string, joinedDate: int,
    status: string, approved: bool, vehicleNumber: Option<string>, vehicleType: Option<string>)

  /** The status shown for a driver: "pending" until approved, then "active" or "suspended"
      according to the enabled flag. */
  function DriverStatus(approved: bool, enabled: bool): (s: string)
    ensures s == "pending" <==> !approved
    ensures s == "active" <==> approved && enabled
    ensures s == "suspended" <==> approved && !enabled
  {
    if !approved then "pending" else if enabled then "active" else "suspended"
  }

  /** `map`. */
  function Map(u: User): (d: AdminDriverResponse)
    reads u
    ensures d.id == u.id && d.approved == u.approved
    ensures d.status == DriverStatus(u.approved, u.enabled)
    ensures d.vehicleNumber == u.vehicleNumber && d.vehicleType == u.vehicleType
    ensures d.name == u.fullName && d.email == u.email && d.phone == u.phoneNumber
    ensures d.joinedDate == u.createdAt
  {
    AdminDriverResponse(u.id, u.fullName, u.email, u.phoneNumber, u.createdAt,
                        DriverStatus(u.approved, u.enabled), u.approved, u.vehicleNumber, u.vehicleType)
  }

  /** The list filter: "PENDING" (any case) keeps the unapproved, "APPROVED" (any case) the
      approved, and any other status, null included, keeps everyone. */
  predicate Keep(status: Option<string>, approved: bool) {
    if LiteralEqualsIgnoreCase("PENDING", status) then !approved
    else if LiteralEqualsIgnoreCase("APPROVED", status) then approved
    else true
  }

  /** The drivers in `ds` that the filter keeps, in order. */
  function KeptDrivers(ds: seq<User>, status: Option<string>): (r: seq<User>)
    reads ds
    ensures |r| <= |ds|
    ensures forall i :: 0 <= i < |r| ==> r[i] in ds && Keep(status, r[i].approved)
    ensures forall k :: 0 <= k < |ds| && Keep(status, ds[k].approved) ==> ds[k] in r
  {
    if ds == [] then []
    else
      var last := ds[|ds| - 1];
      KeptDrivers(ds[..|ds| - 1], status) + (if Keep(status, last.approved) then [last] else [])
  }

  /** `KeptDrivers` keeps every driver the filter admits as often as it occurs, and no other. */
  lemma {:induction false} KeptDriversCounts(ds: seq<User>, status: Option<string>)
    ensures forall x: User :: multiset(KeptDrivers(ds, status))[x] == (if Keep(status, x.approved) then multiset(ds)[x] else 0)
  {
    if ds != [] {
      var init, last := ds[..|ds| - 1], ds[|ds| - 1];
      KeptDriversCounts(init, status);
      assert ds == init + [last];
    }
  }

  /** The drivers `getDrivers` lists for a status filter: each stored driver the filter
      admits, as often as the store holds it, and nobody else. */
  lemma ListedDriversCounts(users: UserRepository, status: Option<string>)
    ensures var kept := KeptDrivers(users.FindByRole(DRIVER), status);
            && multiset(kept) <= multiset(users.users)
            && forall x: User :: multiset(kept)[x]
                 == (if x.role == Some(DRIVER) && Keep(status, x.approved) then multiset(users.users)[x] else 0)
  {
    WithRoleCounts(users.users, DRIVER);
    KeptDriversCounts(users.FindByRole(DRIVER), status);
  }

  /** `getDrivers`: one row per stored driver that the status filter keeps, and a row for
      every such driver. */
  function GetDrivers(users: UserRepository, status: Option<string>): (r: seq<AdminDriverResponse>)
    reads users, users.users
    ensures var kept := KeptDrivers(users.FindByRole(DRIVER), status);
            && |r| == |kept|
            && (forall i :: 0 <= i < |r| ==>
                  && r[i] == Map(kept[i]) && kept[i] in users.users
                  && kept[i].role == Some(DRIVER) && Keep(status, kept[i].approved))
            && (forall k :: (0 <= k < |users.users| && users.users[k].role == Some(DRIVER)
                             && Keep(status, users.users[k].approved)) ==> users.users[k] in kept)
  {
    var kept := KeptDrivers(users.FindByRole(DRIVER), status);
    seq(|kept|, i requires 0 <= i < |kept| reads kept => Map(kept[i]))
  }

  /** The pending filter lists only "pending" rows, the approved filter none of them. */
  lemma FilterMatchesStatus(users: UserRepository, status: Option<string>)
    ensures LiteralEqualsIgnoreCase("PENDING", status) ==>
              forall i :: 0 <= i < |GetDrivers(users, status)| ==> GetDrivers(users, status)[i].status == "pending"
    ensures LiteralEqualsIgnoreCase("APPROVED", status) && !LiteralEqualsIgnoreCase("PENDING", status) ==>
              forall i :: 0 <= i < |GetDrivers(users, status)| ==> GetDrivers(users, status)[i].status != "pending"
  {
  }

  /** What `getDriver` finds for `id`: the stored user with that id if it is a driver. */
  ghost function DriverLookup(us: seq<User>, id: int): (r: Result<User, string>)
    reads us
    ensures r.Success? ==> r.value in us && r.value.id == Some(id) && r.value.role == Some(DRIVER)
  {
    if exists i :: 0 <= i < |us| && us[i].id == Some(id) then
      var i :| 0 <= i < |us| && us[i].id == Some(id);
      if us[i].role == Some(DRIVER) then Success(us[i]) else Failure(NotADriver)
    else Failure(DriverNotFound)
  }

  /** In a store with unique ids the lookup succeeds exactly for the id of a driver, fails
      with "Driver not found" exactly for an unknown id, and otherwise with "User is not a
      driver". */
  lemma DriverLookupCases(us: seq<User>, id: int)
    requires forall i, j :: 0 <= i < j < |us| ==> us[i].id != us[j].id
    ensures DriverLookup(us, id).Success?
            <==> exists i :: 0 <= i < |us| && us[i].id == Some(id) && us[i].role == Some(DRIVER)
    ensures DriverLookup(us, id) == Failure(DriverNotFound) <==> forall i :: 0 <= i < |us| ==> us[i].id != Some(id)
    ensures DriverLookup(us, id).Failure? ==> DriverLookup(us, id).error in {DriverNotFound, NotADriver}
  {
  }

  /** `getDriver`. */
  method GetDriver(users: UserRepository, id: int) returns (r: Result<User, string>)
    requires users.Valid()
    ensures r == DriverLookup(users.users, id)
  {
    var found := users.FindById(id);
    if found.None? {
      return Failure(DriverNotFound);
    }
    var u := found.value;
    if u.role != Some(DRIVER) {
      return Failure(NotADriver);
    }
    return Success(u);
  }

  /** A notification created by these operations (type "INFO" unless given). */
  function Notice(message: string, targetRole: string, refId: Option<int>, now: int): Notification {
    Notification(message, targetRole, "INFO", refId, false, now)
  }

  /** Approval opens the account: approved, enabled and APPROVED. */
  function Approved(p: Profile): (q: Profile)
    ensures q.approved && q.enabled && q.verificationStatus == APPROVED
    ensures q.(approved := p.approved, enabled := p.enabled, verificationStatus := p.verificationStatus) == p
  {
    p.(approved := true, enabled := true, verificationStatus := APPROVED)
  }

  /** The three setter calls of an approval, on a stored user. */
  method Approve(users: UserRepository, u: User)
    requires users.Valid() && u in users.users
    modifies u
    ensures users.Valid()
    ensures Snapshot(u) == Approved(old(Snapshot(u))) && u.id == old(u.id)
  {
    u.SetApproved(true);
    u.SetEnabled(true);
    u.SetVerificationStatus(APPROVED);
    users.KeysUnchanged();
  }

  /** The setter call of a suspension or reactivation, on a stored user. */
  method SetEnabledOf(users: UserRepository, u: User, enabled: bool)
    requires users.Valid() && u in users.users
    modifies u
    ensures users.Valid()
    ensures Snapshot(u) == old(Snapshot(u)).(enabled := enabled) && u.id == old(u.id)
  {
    u.SetEnabled(enabled);
    users.KeysUnchanged();
  }

  /** `approveDriver`: a failing notification (`notificationFails`) is swallowed and the
      approval stands. */
  method ApproveDriver(users: UserRepository, notifications: NotificationRepository, id: int,
                       notificationFails: bool, now: int)
    returns (r: Result<(), string>)
    requires users.Valid()
    modifies users.users, notifications
    ensures users.Valid()
    ensures old(DriverLookup(users.users, id)).Failure? ==>
              r == Failure(old(DriverLookup(users.users, id)).error)
              && unchanged(users.users) && notifications.items == old(notifications.items)
    ensures old(DriverLookup(users.users, id)).Success? ==>
              var u := old(DriverLookup(users.users, id)).value;
              && r == Success(())
              && Snapshot(u) == Approved(old(Snapshot(u))) && u.id == old(u.id)
              && (forall v :: v in users.users && v != u ==> unchanged(v))
              && notifications.items
                 == old(notifications.items)
                    + (if notificationFails then [] else [Notice(ApprovedMessage, "DRIVER", Some(id), now)])
  {
    var found := GetDriver(users, id);
    if found.Failure? {
      return Failure(found.error);
    }
    var u := found.value;
    Approve(users, u);
    if !notificationFails {
      notifications.Save(Notice(ApprovedMessage, "DRIVER", Some(id), now));
    }
    return Success(());
  }

  /** `rejectDriver`: the driver's row is deleted and the administrators are told. */
  method RejectDriver(users: UserRepository, notifications: NotificationRepository, id: int, now: int)
    returns (r: Result<(), string>)
    requires users.Valid()
    modifies users, notifications
    ensures users.Valid()
    ensures old(DriverLookup(users.users, id)).Failure? ==>
              r == Failure(old(DriverLookup(users.users, id)).error)
              && users.users == old(users.users) && notifications.items == old(notifications.items)
    ensures old(DriverLookup(users.users, id)).Success? ==>
              && r == Success(())
              && (exists k :: 0 <= k < |old(users.users)| && old(users.users)[k].id == Some(id)
                              && users.users == old(users.users)[..k] + old(users.users)[k + 1..])
              && (forall i :: 0 <= i < |users.users| ==> users.users[i].id != Some(id))
              && notifications.items == old(notifications.items) + [Notice(RejectedMessage, "ADMIN", None, now)]
  {
    var found := GetDriver(users, id);
    if found.Failure? {
      return Failure(found.error);
    }
    var u := found.value;
    users.Delete(u);
    notifications.Save(Notice(RejectedMessage, "ADMIN", None, now));
    return Success(());
  }

  /** `suspendDriver`: only the enabled flag changes. */
  method SuspendDriver(users: UserRepository, notifications: NotificationRepository, id: int, now: int)
    returns (r: Result<(), string>)
    requires users.Valid()
    modifies users.users, notifications
    ensures users.Valid()
    ensures old(DriverLookup(users.users, id)).Failure? ==>
              r == Failure(old(DriverLookup(users.users, id)).error)
              && unchanged(users.users) && notifications.items == old(notifications.items)
    ensures old(DriverLookup(users.users, id)).Success? ==>
              var u := old(DriverLookup(users.users, id)).value;
              && r == Success(())
              && Snapshot(u) == old(Snapshot(u)).(enabled := false) && u.id == old(u.id)
              && (forall v :: v in users.users && v != u ==> unchanged(v))
              && notifications.items == old(notifications.items) + [Notice(SuspendedMessage, "DRIVER", None, now)]
  {
    var found := GetDriver(users, id);
    if found.Failure? {
      return Failure(found.error);
    }
    var u := found.value;
    SetEnabledOf(users, u, false);
    notifications.Save(Notice(SuspendedMessage, "DRIVER", None, now));
    return Success(());
  }

  /** `reactivateDriver`: only the enabled flag changes. */
  method ReactivateDriver(users: UserRepository, notifications: NotificationRepository, id: int, now: int)
    returns (r: Result<(), string>)
    requires users.Valid()
    modifies users.users, notifications
    ensures users.Valid()
    ensures old(DriverLookup(users.users, id)).Failure? ==>
              r == Failure(old(DriverLookup(users.users, id)).error)
              && unchanged(users.users) && notifications.items == old(notifications.items)
    ensures old(DriverLookup(users.users, id)).Success? ==>
              var u := old(DriverLookup(users.users, id)).value;
              && r == Success(())
              && Snapshot(u) == old(Snapshot(u)).(enabled := true) && u.id == old(u.id)
              && (forall v :: v in users.users && v != u ==> unchanged(v))
              && notifications.items
                 == old(notifications.items) + [Notice(ReactivatedMessage, "DRIVER", None, now)]
  {
    var found := GetDriver(users, id);
    if found.Failure? {
      return Failure(found.error);
    }
    var u := found.value;
    SetEnabledOf(users, u, true);
    notifications.Save(Notice(ReactivatedMessage, "DRIVER", None, now));
    return Success(());
  }

  // ---------------------------------------------------------------------------
  // What the administrator sees agrees with what login does
  // ---------------------------------------------------------------------------

  /** For a driver, the listed status names the login decision: "pending" is asked to wait,
      "active" gets a token, "suspended" is refused as a suspended driver. */
  lemma {:induction false} StatusAgreesWithLogin(approved: bool, enabled: bool)
    ensures DriverStatus(approved, enabled) == "pending"
            <==> AuthService.Decide(Some(DRIVER), approved, enabled) == AuthService.PendingApproval
    ensures DriverStatus(approved, enabled) == "active"
            <==> AuthService.Decide(Some(DRIVER), approved, enabled) == AuthService.Granted
    ensures DriverStatus(approved, enabled) == "suspended"
            <==> AuthService.Decide(Some(DRIVER), approved, enabled) == AuthService.Suspended("driver")
  {
  }

  /** An approved driver can log in, whatever the flags were before. */
  lemma ApprovalGrantsLogin(p: Profile)
    requires p.role == Some(DRIVER)
    ensures var q := Approved(p); AuthService.Decide(q.role, q.approved, q.enabled) == AuthService.Granted
  {
  }

  /** Suspending an approved driver shuts them out; suspending a driver still awaiting
      approval changes neither the listed status nor what login says. */
  lemma SuspensionEffect(p: Profile)
    requires p.role == Some(DRIVER)
    ensures var q := p.(enabled := false);
            && (p.approved ==> AuthService.Decide(q.role, q.approved, q.enabled) == AuthService.Suspended("driver"))
            && (!p.approved ==> AuthService.Decide(q.role, q.approved, q.enabled) == AuthService.PendingApproval
                                && DriverStatus(q.approved, q.enabled) == DriverStatus(p.approved, p.enabled))
  {
  }

  /** Suspending an active driver and then reactivating it gives every stored account back
      its state, while the driver has been told twice. */
  method SuspendThenReactivate(users: UserRepository, notifications: NotificationRepository, id: int,
                               now: int)
    returns (suspended: Result<(), string>, reactivated: Result<(), string>)
    requires users.Valid()
    requires DriverLookup(users.users, id).Success? && DriverLookup(users.users, id).value.enabled
    modifies users.users, notifications
    ensures users.Valid() && users.users == old(users.users)
    ensures suspended == Success(()) && reactivated == Success(())
    ensures forall v :: v in users.users ==> Snapshot(v) == old(Snapshot(v)) && v.id == old(v.id)
    ensures notifications.items
            == old(notifications.items)
               + [Notice(SuspendedMessage, "DRIVER", None, now), Notice(ReactivatedMessage, "DRIVER", None, now)]
  {
    ghost var u := DriverLookup(users.users, id).value;
    suspended := SuspendDriver(users, notifications, id, now);
    assert u in users.users && u.id == Some(id) && u.role == Some(DRIVER);
    assert DriverLookup(users.users, id) == Success(u);
    reactivated := ReactivateDriver(users, notifications, id, now);
  }
}
