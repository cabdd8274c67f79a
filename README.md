# ParkEase core in Dafny

ParkEase is a smart-parking system: drivers register (with a vehicle), parking-hub
providers register (with their hub and documents), and administrators approve or
suspend both. Drivers book a slot of a lot for an hour; ending or cancelling a booking
frees the slot; a payment credits the lot's provider and debits the driver. A mobile app
and a web frontend each have a registration screen; the app has a notification bell.

This project models that core and proves properties of it:

- `wrappers.dfy` (`Wrappers`): Option and Result.
- `strings.dfy` (`Strings`): the string operations the core relies on: Java's `toUpperCase` and `equalsIgnoreCase` for ASCII, JavaScript's `trim` and `parseInt`, and decimal numerals.
- `accounts.dfy` (`Accounts`): the `Role` enum and the `User` entity as a class whose setters change one field each.
- `repositories.dfy` (`Repositories`): the user, notification and verification-token tables as classes over sequences. The user table keeps e-mail, phone and id unique (`Valid`).
- `authservice.dfy` (`AuthService`): `register`, `login`, `sendResetOtp`, `resetPassword`.
- `admindrivers.dfy` (`AdminDrivers`): the administrator's driver list and the approve, reject, suspend and reactivate operations.
- `parking.dfy` (`Parking`, `BookingScenarios`): lots, slots and bookings; `startBooking`, `endBooking`, `cancelBooking`. `Consistent` is the slot-occupancy invariant. It says every ACTIVE booking's slot is occupied and no slot has two ACTIVE bookings.
- `payment.dfy` (`Payments`): `createPayment` and the wallet-transaction ledger.
- `mobile_register.dfy` (`MobileRegister`): the app's `handleRegister`.
- `web_register.dfy` (`WebRegister`): the web page's `handleRegister`.
- `notification_bell.dfy` (`NotificationBell`): unread count, mark-as-read, mark-all-read and the badge.

Services that change stored rows are methods over the repository classes. Their contracts
state the new state in full (what changed and that nothing else did). Pure logic is in
functions and lemmas.

## Model

| member | source | states |
|---|---|---|
| Strings.ToUpper | ParkEaseSmartParkingSpotFinderApication-main/smartParkingProjectFontendandBackend-main/backend/src/main/java/com/parkease/backend/repository/UserRepository.java:53 | upper-casing keeps the length and maps each ASCII lower-case letter to its capital, position by position |
| Strings.UpperMatchIsCaseInsensitive | ParkEaseSmartParkingSpotFinderApication-main/smartParkingProjectFontendandBackend-main/backend/src/main/java/com/parkease/backend/repository/UserRepository.java:53 | comparing the upper-cased text with an upper-case enum name is exactly a case-insensitive comparison |
| Strings.TrimIsNormal | ParkEaseSmartParkingSpotFinderApication-main/SmartParkingSpot_Frontend/SmartParkingSpot_Frontend-main/components/auth/UnifiedRegister.tsx:101-103 | `trim` leaves no white space at either end and is idempotent |
| Strings.TrimStart | ParkEaseSmartParkingSpotFinderApication-main/SmartParkingSpot_Frontend/SmartParkingSpot_Frontend-main/components/auth/UnifiedRegister.tsx:101-103 | only white space is dropped from the front, and what remains does not start with white space |
| Strings.TrimEnd | ParkEaseSmartParkingSpotFinderApication-main/SmartParkingSpot_Frontend/SmartParkingSpot_Frontend-main/components/auth/UnifiedRegister.tsx:101-103 | only white space is dropped from the back, and what remains does not end with white space |
| Strings.LeadingDigits | ParkEaseSmartParkingSpotFinderApication-main/SmartParkingSpot_Frontend/SmartParkingSpot_Frontend-main/components/auth/UnifiedRegister.tsx:112 | the digit run that `parseInt` reads is all digits and maximal |
| Strings.ParseIntOfDigits | ParkEaseSmartParkingSpotFinderApication-main/SmartParkingSpot_Frontend/SmartParkingSpot_Frontend-main/components/auth/UnifiedRegister.tsx:112 | `parseInt(text) || 0` of a non-empty digit string is the number the digits denote |
| Strings.TrimStartSkips | ParkEaseSmartParkingSpotFinderApication-main/SmartParkingSpot_Frontend/SmartParkingSpot_Frontend-main/components/auth/UnifiedRegister.tsx:112 | leading white space is dropped up to the first other character |
| Strings.LeadingDigitsOf | ParkEaseSmartParkingSpotFinderApication-main/SmartParkingSpot_Frontend/SmartParkingSpot_Frontend-main/components/auth/UnifiedRegister.tsx:112 | the digit run at the front of digits followed by a non-digit is exactly those digits |
| Strings.ParseIntReadsNumber | ParkEaseSmartParkingSpotFinderApication-main/SmartParkingSpot_Frontend/SmartParkingSpot_Frontend-main/components/auth/UnifiedRegister.tsx:112 | blanks, an optional sign, digits and any rest not starting with a digit parse to the signed value of the digits, and `|| 0` keeps it |
| Strings.ParseIntWithoutDigits | ParkEaseSmartParkingSpotFinderApication-main/SmartParkingSpot_Frontend/SmartParkingSpot_Frontend-main/components/auth/UnifiedRegister.tsx:112 | with no digit after the blanks and the optional sign, `parseInt` is NaN and `parseInt(..) || 0` is 0 |
| Strings.ParseIntOfNatToString | ParkEaseSmartParkingSpotFinderApication-main/smartParkingProjectFontendandBackend-main/backend/src/main/java/com/parkease/backend/service/AuthService.java:242-243 | the decimal text of a number parses back to that number |
| Strings.NatToStringLength | ParkEaseSmartParkingSpotFinderApication-main/smartParkingProjectFontendandBackend-main/backend/src/main/java/com/parkease/backend/service/AuthService.java:242-243 | a number in [10^k, 10^(k+1)) is written with k+1 digits |
| Strings.DecValueOfNatToString | ParkEaseSmartParkingSpotFinderApication-main/smartParkingProjectFontendandBackend-main/backend/src/main/java/com/parkease/backend/service/AuthService.java:242-243 | `String.valueOf` of a number is all digits and denotes that number |
| Accounts.RoleName | ParkEaseSmartParkingSpotFinderApication-main/smartParkingProjectFontendandBackend-main/backend/src/main/java/com/parkease/backend/repository/UserRepository.java:53 | every role name is upper case |
| Accounts.RoleValueOf | ParkEaseSmartParkingSpotFinderApication-main/smartParkingProjectFontendandBackend-main/backend/src/main/java/com/parkease/backend/repository/UserRepository.java:53 | `Role.valueOf` finds the role with exactly that name, and fails iff no role has it |
| Accounts.ParseRoleIgnoringCase | ParkEaseSmartParkingSpotFinderApication-main/smartParkingProjectFontendandBackend-main/backend/src/main/java/com/parkease/backend/repository/UserRepository.java:53 | `valueOf(s.toUpperCase())` yields a role iff `s` equals its name ignoring case |
| Accounts.User.constructor | ParkEaseSmartParkingSpotFinderApication-main/smartParkingProjectFontendandBackend-main/backend/src/main/java/com/parkease/backend/entity/User.java:154-155 | the no-argument constructor leaves the field initialisers: unapproved, enabled, PENDING, wallet 0.0, created now |
| Accounts.User.WithRole | ParkEaseSmartParkingSpotFinderApication-main/smartParkingProjectFontendandBackend-main/backend/src/main/java/com/parkease/backend/entity/User.java:160-180 | PROVIDER and DRIVER start unapproved and PENDING, any other role approved and APPROVED; no vehicle, hub or document column is set |
| Accounts.User.SetFullName | ParkEaseSmartParkingSpotFinderApication-main/smartParkingProjectFontendandBackend-main/backend/src/main/java/com/parkease/backend/entity/User.java:196-198 | sets the full name and nothing else |
| Accounts.User.SetEmail | ParkEaseSmartParkingSpotFinderApication-main/smartParkingProjectFontendandBackend-main/backend/src/main/java/com/parkease/backend/entity/User.java:204-206 | sets the e-mail and nothing else |
| Accounts.User.SetPhoneNumber | ParkEaseSmartParkingSpotFinderApication-main/smartParkingProjectFontendandBackend-main/backend/src/main/java/com/parkease/backend/entity/User.java:212-214 | sets the phone number and nothing else |
| Accounts.User.SetPassword | ParkEaseSmartParkingSpotFinderApication-main/smartParkingProjectFontendandBackend-main/backend/src/main/java/com/parkease/backend/entity/User.java:220-222 | sets the password and nothing else |
| Accounts.User.SetRole | ParkEaseSmartParkingSpotFinderApication-main/smartParkingProjectFontendandBackend-main/backend/src/main/java/com/parkease/backend/entity/User.java:228-230 | sets the role and nothing else |
| Accounts.User.SetApproved | ParkEaseSmartParkingSpotFinderApication-main/smartParkingProjectFontendandBackend-main/backend/src/main/java/com/parkease/backend/entity/User.java:236-238 | sets the approved flag and nothing else |
| Accounts.User.SetEnabled | ParkEaseSmartParkingSpotFinderApication-main/smartParkingProjectFontendandBackend-main/backend/src/main/java/com/parkease/backend/entity/User.java:244-246 | sets the enabled flag and nothing else |
| Accounts.User.SetVerificationStatus | ParkEaseSmartParkingSpotFinderApication-main/smartParkingProjectFontendandBackend-main/backend/src/main/java/com/parkease/backend/entity/User.java:252-254 | sets the verification status and nothing else |
| Accounts.User.SetParkingAreaName | ParkEaseSmartParkingSpotFinderApication-main/smartParkingProjectFontendandBackend-main/backend/src/main/java/com/parkease/backend/entity/User.java:260-262 | sets the hub name and nothing else |
| Accounts.User.SetLocation | ParkEaseSmartParkingSpotFinderApication-main/smartParkingProjectFontendandBackend-main/backend/src/main/java/com/parkease/backend/entity/User.java:268-270 | sets the location and nothing else |
| Accounts.User.SetTotalSlots | ParkEaseSmartParkingSpotFinderApication-main/smartParkingProjectFontendandBackend-main/backend/src/main/java/com/parkease/backend/entity/User.java:276-278 | sets the slot count and nothing else |
| Accounts.User.SetAadharNumber | ParkEaseSmartParkingSpotFinderApication-main/smartParkingProjectFontendandBackend-main/backend/src/main/java/com/parkease/backend/entity/User.java:300-302 | sets the Aadhaar number and nothing else |
| Accounts.User.SetPropertyPermitNumber | ParkEaseSmartParkingSpotFinderApication-main/smartParkingProjectFontendandBackend-main/backend/src/main/java/com/parkease/backend/entity/User.java:308-310 | sets the permit number and nothing else |
| Accounts.User.SetVehicleName | ParkEaseSmartParkingSpotFinderApication-main/smartParkingProjectFontendandBackend-main/backend/src/main/java/com/parkease/backend/entity/User.java:328-330 | sets the vehicle name and nothing else |
| Accounts.User.SetVehicleNumber | ParkEaseSmartParkingSpotFinderApication-main/smartParkingProjectFontendandBackend-main/backend/src/main/java/com/parkease/backend/entity/User.java:336-338 | sets the vehicle number and nothing else |
| Accounts.User.SetVehicleType | ParkEaseSmartParkingSpotFinderApication-main/smartParkingProjectFontendandBackend-main/backend/src/main/java/com/parkease/backend/entity/User.java:344-346 | sets the vehicle type and nothing else |
| Accounts.User.SetWalletBalance | ParkEaseSmartParkingSpotFinderApication-main/smartParkingProjectFontendandBackend-main/backend/src/main/java/com/parkease/backend/entity/User.java:352-354 | sets the balance and nothing else |
| Repositories.CountMatching | ParkEaseSmartParkingSpotFinderApication-main/smartParkingProjectFontendandBackend-main/backend/src/main/java/com/parkease/backend/repository/UserRepository.java:48 | the number of users with that role and enabled flag: at most the number of users, and 0 iff no user has both |
| Repositories.WithRole | ParkEaseSmartParkingSpotFinderApication-main/smartParkingProjectFontendandBackend-main/backend/src/main/java/com/parkease/backend/repository/UserRepository.java:26 | only users of that role, and each user of that role is included |
| Repositories.WithRoleCounts | ParkEaseSmartParkingSpotFinderApication-main/smartParkingProjectFontendandBackend-main/backend/src/main/java/com/parkease/backend/repository/UserRepository.java:26 | each user of the role appears as often as in the store, and no other user appears |
| Repositories.CountsSplitRole | ParkEaseSmartParkingSpotFinderApication-main/smartParkingProjectFontendandBackend-main/backend/src/main/java/com/parkease/backend/repository/UserRepository.java:48 | every user of a role is counted once, either among the enabled or among the disabled |
| Repositories.UserRepository.constructor | ParkEaseSmartParkingSpotFinderApication-main/smartParkingProjectFontendandBackend-main/backend/src/main/java/com/parkease/backend/repository/UserRepository.java:11 | an empty table satisfies the table invariant |
| Repositories.UserRepository.FindByEmail | ParkEaseSmartParkingSpotFinderApication-main/smartParkingProjectFontendandBackend-main/backend/src/main/java/com/parkease/backend/repository/UserRepository.java:14 | the user found has that e-mail; none is found only when no user has it |
| Repositories.UserRepository.ExistsByEmail | ParkEaseSmartParkingSpotFinderApication-main/smartParkingProjectFontendandBackend-main/backend/src/main/java/com/parkease/backend/repository/UserRepository.java:20 | true iff some stored user has the e-mail |
| Repositories.UserRepository.ExistsByPhoneNumber | ParkEaseSmartParkingSpotFinderApication-main/smartParkingProjectFontendandBackend-main/backend/src/main/java/com/parkease/backend/repository/UserRepository.java:23 | true iff some stored user has the phone number |
| Repositories.UserRepository.FindById | ParkEaseSmartParkingSpotFinderApication-main/smartParkingProjectFontendandBackend-main/backend/src/main/java/com/parkease/backend/repository/UserRepository.java:11 | the user found has that id; none is found only when no user has it |
| Repositories.UserRepository.Insert | ParkEaseSmartParkingSpotFinderApication-main/smartParkingProjectFontendandBackend-main/backend/src/main/java/com/parkease/backend/service/AuthService.java:104 | saving a new user appends it with the next generated id and keeps e-mails, phones and ids unique |
| Repositories.UserRepository.Delete | ParkEaseSmartParkingSpotFinderApication-main/smartParkingProjectFontendandBackend-main/backend/src/main/java/com/parkease/backend/service/AdminDriverService.java:64 | deleting a stored user removes exactly that row, keeps the others in order, and leaves no row with its id |
| Repositories.UserRepository.KeysUnchanged | ParkEaseSmartParkingSpotFinderApication-main/smartParkingProjectFontendandBackend-main/backend/src/main/java/com/parkease/backend/entity/User.java:27-31 | updating columns other than id, e-mail, phone and role keeps the uniqueness invariant |
| Repositories.UserRepository.FindByRole | ParkEaseSmartParkingSpotFinderApication-main/smartParkingProjectFontendandBackend-main/backend/src/main/java/com/parkease/backend/repository/UserRepository.java:26 | only stored users with that role, each as often as the store holds it, and every such user is included |
| Repositories.UserRepository.CountByRoleAndEnabled | ParkEaseSmartParkingSpotFinderApication-main/smartParkingProjectFontendandBackend-main/backend/src/main/java/com/parkease/backend/repository/UserRepository.java:48 | 0 iff no stored user has that role and flag; with the opposite flag's count it adds up to the users of that role |
| Repositories.UserRepository.CountByRoleAndStatus | ParkEaseSmartParkingSpotFinderApication-main/smartParkingProjectFontendandBackend-main/backend/src/main/java/com/parkease/backend/repository/UserRepository.java:51-59 | null or unknown role text counts 0; otherwise the count of that role (matched ignoring case) with enabled iff the status is "ACTIVE" ignoring case |
| Repositories.NotificationRepository.Save | ParkEaseSmartParkingSpotFinderApication-main/smartParkingProjectFontendandBackend-main/backend/src/main/java/com/parkease/backend/service/AuthService.java:129 | appends the notification |
| Repositories.TokensNotOf | ParkEaseSmartParkingSpotFinderApication-main/smartParkingProjectFontendandBackend-main/backend/src/main/java/com/parkease/backend/service/AuthService.java:245 | only tokens of other users, and every such token is kept |
| Repositories.TokensNotOfCounts | ParkEaseSmartParkingSpotFinderApication-main/smartParkingProjectFontendandBackend-main/backend/src/main/java/com/parkease/backend/service/AuthService.java:245 | each token of another user is kept as often as it occurs, and no token of the user remains |
| Repositories.TokensNamed | ParkEaseSmartParkingSpotFinderApication-main/smartParkingProjectFontendandBackend-main/backend/src/main/java/com/parkease/backend/service/AuthService.java:266 | exactly the tokens with that text |
| Repositories.SeveralNamed | ParkEaseSmartParkingSpotFinderApication-main/smartParkingProjectFontendandBackend-main/backend/src/main/java/com/parkease/backend/service/AuthService.java:266-267 | at least two tokens have the text iff two rows carry it |
| Repositories.NamedPair | ParkEaseSmartParkingSpotFinderApication-main/smartParkingProjectFontendandBackend-main/backend/src/main/java/com/parkease/backend/service/AuthService.java:266-267 | two or more tokens with the text come from two distinct rows |
| Repositories.TwoNamed | ParkEaseSmartParkingSpotFinderApication-main/smartParkingProjectFontendandBackend-main/backend/src/main/java/com/parkease/backend/service/AuthService.java:266-267 | two rows with the text give at least two tokens |
| Repositories.VerificationTokenRepository.FindByToken | ParkEaseSmartParkingSpotFinderApication-main/smartParkingProjectFontendandBackend-main/backend/src/main/java/com/parkease/backend/service/AuthService.java:266-267 | no token iff no row has the text; a token found is a stored row with the text |
| Repositories.VerificationTokenRepository.LookupCases | ParkEaseSmartParkingSpotFinderApication-main/smartParkingProjectFontendandBackend-main/backend/src/main/java/com/parkease/backend/service/AuthService.java:266-267 | one token iff exactly one row has the text (NamedOnce); the several-rows error iff two rows have it (NamedTwice) |
| Repositories.NamedOnceUnique | ParkEaseSmartParkingSpotFinderApication-main/smartParkingProjectFontendandBackend-main/backend/src/main/java/com/parkease/backend/service/AuthService.java:266-267 | "exactly one row" is the same as a row with the text and no other row with it |
| Repositories.VerificationTokenRepository.DeleteByUser | ParkEaseSmartParkingSpotFinderApication-main/smartParkingProjectFontendandBackend-main/backend/src/main/java/com/parkease/backend/service/AuthService.java:245 | removes exactly the user's tokens |
| Repositories.VerificationTokenRepository.Save | ParkEaseSmartParkingSpotFinderApication-main/smartParkingProjectFontendandBackend-main/backend/src/main/java/com/parkease/backend/service/AuthService.java:252 | appends the token |
| AuthService.Holder | ParkEaseSmartParkingSpotFinderApication-main/smartParkingProjectFontendandBackend-main/backend/src/main/java/com/parkease/backend/service/AuthService.java:164 | the stored user with that e-mail |
| AuthService.RegisteredProfile | ParkEaseSmartParkingSpotFinderApication-main/smartParkingProjectFontendandBackend-main/backend/src/main/java/com/parkease/backend/service/AuthService.java:66-102 | the stored row: enabled; approved and APPROVED iff the role is ADMIN; hub fields iff PROVIDER, a missing one becoming "Pending Setup", "Not Specified" or 0; owner name replaces the name when given; vehicle name, number and type iff DRIVER; wallet 0.0 |
| AuthService.RegistrationNotice | ParkEaseSmartParkingSpotFinderApication-main/smartParkingProjectFontendandBackend-main/backend/src/main/java/com/parkease/backend/service/AuthService.java:107-130 | one ADMIN-targeted unread notification referencing the new id iff the role is PROVIDER or DRIVER, of type PROVIDER_REGISTRATION for a provider and DRIVER_REGISTRATION for a driver |
| AuthService.NewUser | ParkEaseSmartParkingSpotFinderApication-main/smartParkingProjectFontendandBackend-main/backend/src/main/java/com/parkease/backend/service/AuthService.java:66-102 | the filled-in User is fresh, without id, with exactly the RegisteredProfile columns |
| AuthService.SetUpBase | ParkEaseSmartParkingSpotFinderApication-main/smartParkingProjectFontendandBackend-main/backend/src/main/java/com/parkease/backend/service/AuthService.java:67-71 | the five common columns come from the request; nothing else changes |
| AuthService.SetUpAdmin | ParkEaseSmartParkingSpotFinderApication-main/smartParkingProjectFontendandBackend-main/backend/src/main/java/com/parkease/backend/service/AuthService.java:97-102 | an admin is approved, enabled and APPROVED; nothing else changes |
| AuthService.SetUpPending | ParkEaseSmartParkingSpotFinderApication-main/smartParkingProjectFontendandBackend-main/backend/src/main/java/com/parkease/backend/service/AuthService.java:75-77 | a provider or driver is unapproved, enabled and PENDING; nothing else changes |
| AuthService.SetUpProvider | ParkEaseSmartParkingSpotFinderApication-main/smartParkingProjectFontendandBackend-main/backend/src/main/java/com/parkease/backend/service/AuthService.java:74-87 | the provider columns, placeholders and owner-name rule; nothing else changes |
| AuthService.SetUpHub | ParkEaseSmartParkingSpotFinderApication-main/smartParkingProjectFontendandBackend-main/backend/src/main/java/com/parkease/backend/service/AuthService.java:79-82 | hub name, location and slots with their placeholders |
| AuthService.SetUpDriver | ParkEaseSmartParkingSpotFinderApication-main/smartParkingProjectFontendandBackend-main/backend/src/main/java/com/parkease/backend/service/AuthService.java:88-96 | the driver columns; nothing else changes |
| AuthService.AddAccount | ParkEaseSmartParkingSpotFinderApication-main/smartParkingProjectFontendandBackend-main/backend/src/main/java/com/parkease/backend/service/AuthService.java:104-130 | the new user is appended with the next id and the registration notice is saved |
| AuthService.Register | ParkEaseSmartParkingSpotFinderApication-main/smartParkingProjectFontendandBackend-main/backend/src/main/java/com/parkease/backend/service/AuthService.java:48-155 | fails iff the e-mail or phone is taken or the confirmation differs; failures in order (taken e-mail, taken phone, mismatch) change nothing; success stores one fresh user with the RegisteredProfile, adds the notice, answers providers and drivers without a token and an admin with a token and its info |
| AuthService.Decide | ParkEaseSmartParkingSpotFinderApication-main/smartParkingProjectFontendandBackend-main/backend/src/main/java/com/parkease/backend/service/AuthService.java:176-209 | wait iff unapproved provider/driver; suspended iff approved but disabled provider/driver (naming the kind); disabled iff a disabled admin; granted iff enabled and approved or admin |
| AuthService.LoginReply | ParkEaseSmartParkingSpotFinderApication-main/smartParkingProjectFontendandBackend-main/backend/src/main/java/com/parkease/backend/service/AuthService.java:176-229 | success iff waiting or granted, and the reply carries the role; waiting: no token, the awaiting-approval message and the user info marked unapproved; granted: the token, no message and the user info with the stored approval; suspended: the refusal naming the account type; disabled: the account-disabled refusal |
| AuthService.Login | ParkEaseSmartParkingSpotFinderApication-main/smartParkingProjectFontendandBackend-main/backend/src/main/java/com/parkease/backend/service/AuthService.java:162-230 | an unknown e-mail and a wrong password get the same refusal; otherwise the reply of Decide for the stored user |
| AuthService.RegisteredAccountLogin | ParkEaseSmartParkingSpotFinderApication-main/smartParkingProjectFontendandBackend-main/backend/src/main/java/com/parkease/backend/service/AuthService.java:48-209 | a freshly registered provider or driver is told to wait at login, a fresh admin is granted |
| AuthService.OtpIsSixDigits | ParkEaseSmartParkingSpotFinderApication-main/smartParkingProjectFontendandBackend-main/backend/src/main/java/com/parkease/backend/service/AuthService.java:242-243 | every OTP is six decimal digits with value 100000 + draw |
| AuthService.SendResetOtp | ParkEaseSmartParkingSpotFinderApication-main/smartParkingProjectFontendandBackend-main/backend/src/main/java/com/parkease/backend/service/AuthService.java:237-254 | unknown e-mail fails with nothing changed; otherwise the user's old tokens are gone, one new ten-minute token is added, and its text is mailed |
| AuthService.ReplacePassword | ParkEaseSmartParkingSpotFinderApication-main/smartParkingProjectFontendandBackend-main/backend/src/main/java/com/parkease/backend/service/AuthService.java:277-280 | only the user's password changes and exactly the user's tokens are removed |
| AuthService.ResetPassword | ParkEaseSmartParkingSpotFinderApication-main/smartParkingProjectFontendandBackend-main/backend/src/main/java/com/parkease/backend/service/AuthService.java:261-281 | user not found, no token, several tokens, another user's token, expired token each fail with nothing changed; otherwise the encoded new password is stored and the user's tokens are removed |
| AuthService.ResetFor | ParkEaseSmartParkingSpotFinderApication-main/smartParkingProjectFontendandBackend-main/backend/src/main/java/com/parkease/backend/service/AuthService.java:266-280 | the OTP checks in order, and their effect, for a found user |
| AdminDrivers.DriverStatus | ParkEaseSmartParkingSpotFinderApication-main/smartParkingProjectFontendandBackend-main/backend/src/main/java/com/parkease/backend/service/AdminDriverService.java:129 | "pending" iff unapproved, "active" iff approved and enabled, "suspended" iff approved and disabled |
| AdminDrivers.Map | ParkEaseSmartParkingSpotFinderApication-main/smartParkingProjectFontendandBackend-main/backend/src/main/java/com/parkease/backend/service/AdminDriverService.java:122-138 | the row carries the driver's id, name, e-mail, phone, join date, approval, derived status and vehicle |
| AdminDrivers.KeptDrivers | ParkEaseSmartParkingSpotFinderApication-main/smartParkingProjectFontendandBackend-main/backend/src/main/java/com/parkease/backend/service/AdminDriverService.java:32-38 | only drivers the status filter keeps, and every such driver is kept |
| AdminDrivers.KeptDriversCounts | ParkEaseSmartParkingSpotFinderApication-main/smartParkingProjectFontendandBackend-main/backend/src/main/java/com/parkease/backend/service/AdminDriverService.java:32-38 | each driver the filter keeps appears as often as in the input, and no other |
| AdminDrivers.ListedDriversCounts | ParkEaseSmartParkingSpotFinderApication-main/smartParkingProjectFontendandBackend-main/backend/src/main/java/com/parkease/backend/service/AdminDriverService.java:29-41 | the listed drivers are the stored drivers the filter admits, each as often as the store holds it, and nobody else |
| AdminDrivers.GetDrivers | ParkEaseSmartParkingSpotFinderApication-main/smartParkingProjectFontendandBackend-main/backend/src/main/java/com/parkease/backend/service/AdminDriverService.java:29-41 | one mapped row per stored driver kept by the filter, and every kept driver is listed (multiplicity in ListedDriversCounts) |
| AdminDrivers.FilterMatchesStatus | ParkEaseSmartParkingSpotFinderApication-main/smartParkingProjectFontendandBackend-main/backend/src/main/java/com/parkease/backend/service/AdminDriverService.java:33-36 | the PENDING filter lists only "pending" rows, the APPROVED filter none |
| AdminDrivers.DriverLookup | ParkEaseSmartParkingSpotFinderApication-main/smartParkingProjectFontendandBackend-main/backend/src/main/java/com/parkease/backend/service/AdminDriverService.java:97-104 | a successful lookup is a stored DRIVER with that id |
| AdminDrivers.DriverLookupCases | ParkEaseSmartParkingSpotFinderApication-main/smartParkingProjectFontendandBackend-main/backend/src/main/java/com/parkease/backend/service/AdminDriverService.java:97-104 | with unique ids: success iff a driver has the id; "Driver not found" iff no user has it; otherwise "User is not a driver" |
| AdminDrivers.GetDriver | ParkEaseSmartParkingSpotFinderApication-main/smartParkingProjectFontendandBackend-main/backend/src/main/java/com/parkease/backend/service/AdminDriverService.java:97-104 | returns what DriverLookup specifies |
| AdminDrivers.Approved | ParkEaseSmartParkingSpotFinderApication-main/smartParkingProjectFontendandBackend-main/backend/src/main/java/com/parkease/backend/service/AdminDriverService.java:46-48 | approval sets approved, enabled and APPROVED and nothing else |
| AdminDrivers.Approve | ParkEaseSmartParkingSpotFinderApication-main/smartParkingProjectFontendandBackend-main/backend/src/main/java/com/parkease/backend/service/AdminDriverService.java:45-49 | the stored driver becomes Approved; the table invariant holds |
| AdminDrivers.SetEnabledOf | ParkEaseSmartParkingSpotFinderApication-main/smartParkingProjectFontendandBackend-main/backend/src/main/java/com/parkease/backend/service/AdminDriverService.java:75-76 | only the enabled flag changes; the table invariant holds |
| AdminDrivers.ApproveDriver | ParkEaseSmartParkingSpotFinderApication-main/smartParkingProjectFontendandBackend-main/backend/src/main/java/com/parkease/backend/service/AdminDriverService.java:44-59 | a failed lookup changes nothing; otherwise only that driver is approved, and a failing notification is swallowed |
| AdminDrivers.RejectDriver | ParkEaseSmartParkingSpotFinderApication-main/smartParkingProjectFontendandBackend-main/backend/src/main/java/com/parkease/backend/service/AdminDriverService.java:62-70 | a failed lookup changes nothing; otherwise exactly the driver's row is deleted and an ADMIN notice added |
| AdminDrivers.SuspendDriver | ParkEaseSmartParkingSpotFinderApication-main/smartParkingProjectFontendandBackend-main/backend/src/main/java/com/parkease/backend/service/AdminDriverService.java:73-82 | a failed lookup changes nothing; otherwise only the driver's enabled flag is cleared and the driver is told |
| AdminDrivers.ReactivateDriver | ParkEaseSmartParkingSpotFinderApication-main/smartParkingProjectFontendandBackend-main/backend/src/main/java/com/parkease/backend/service/AdminDriverService.java:85-94 | a failed lookup changes nothing; otherwise only the driver's enabled flag is set and the driver is told |
| AdminDrivers.StatusAgreesWithLogin | ParkEaseSmartParkingSpotFinderApication-main/smartParkingProjectFontendandBackend-main/backend/src/main/java/com/parkease/backend/service/AdminDriverService.java:129 | the listed status names the login decision for a driver (pending/wait, active/granted, suspended/suspended) |
| AdminDrivers.ApprovalGrantsLogin | ParkEaseSmartParkingSpotFinderApication-main/smartParkingProjectFontendandBackend-main/backend/src/main/java/com/parkease/backend/service/AdminDriverService.java:44-49 | an approved driver is granted at login |
| AdminDrivers.SuspensionEffect | ParkEaseSmartParkingSpotFinderApication-main/smartParkingProjectFontendandBackend-main/backend/src/main/java/com/parkease/backend/service/AdminDriverService.java:73-76 | suspending an approved driver makes login refuse it; an unapproved one still waits |
| AdminDrivers.SuspendThenReactivate | ParkEaseSmartParkingSpotFinderApication-main/smartParkingProjectFontendandBackend-main/backend/src/main/java/com/parkease/backend/service/AdminDriverService.java:73-94 | suspending an active driver and then reactivating it gives every stored account its former state, and the driver gets both notices |
| Parking.ParkingSlot.SetOccupied | ParkEaseSmartParkingSpotFinderApication-main/smartParkingProjectFontendandBackend-main/backend/src/main/java/com/parkease/backend/service/BookingService.java:36 | sets the occupied flag only |
| Parking.Booking.constructor | ParkEaseSmartParkingSpotFinderApication-main/smartParkingProjectFontendandBackend-main/backend/src/main/java/com/parkease/backend/service/BookingService.java:40-47 | the new booking with the given driver, lot, slot, vehicle, times and status |
| Parking.BookingRepository.Insert | ParkEaseSmartParkingSpotFinderApication-main/smartParkingProjectFontendandBackend-main/backend/src/main/java/com/parkease/backend/service/BookingService.java:50 | appends the booking with the next id |
| Parking.StartBooking | ParkEaseSmartParkingSpotFinderApication-main/smartParkingProjectFontendandBackend-main/backend/src/main/java/com/parkease/backend/service/BookingService.java:30-51 | an occupied slot is refused with nothing changed; otherwise the slot is occupied, a fresh ACTIVE one-hour booking takes the next id and is stored, and the id counter advances; store consistency is preserved |
| Parking.EndBooking | ParkEaseSmartParkingSpotFinderApication-main/smartParkingProjectFontendandBackend-main/backend/src/main/java/com/parkease/backend/service/BookingService.java:54-64 | COMPLETED at now and the slot freed; a missing slot fails after the two assignments; ending an ACTIVE stored booking keeps consistency |
| Parking.CancelBooking | ParkEaseSmartParkingSpotFinderApication-main/smartParkingProjectFontendandBackend-main/backend/src/main/java/com/parkease/backend/service/BookingService.java:67-75 | CANCELLED and the slot, if any, freed; end time kept; cancelling an ACTIVE stored booking keeps consistency |
| BookingScenarios.RebookAfterCancel | ParkEaseSmartParkingSpotFinderApication-main/smartParkingProjectFontendandBackend-main/backend/src/main/java/com/parkease/backend/service/BookingService.java:30-75 | after a cancel the same slot can be booked again |
| BookingScenarios.RebookAfterEnd | ParkEaseSmartParkingSpotFinderApication-main/smartParkingProjectFontendandBackend-main/backend/src/main/java/com/parkease/backend/service/BookingService.java:30-64 | after an end the same slot can be booked again |
| BookingScenarios.CancelAfterEndDoubleBooks | ParkEaseSmartParkingSpotFinderApication-main/smartParkingProjectFontendandBackend-main/backend/src/main/java/com/parkease/backend/service/BookingService.java:54-75 | cancelling a COMPLETED booking (which the cancel endpoint allows) after its slot was booked again frees the slot, so two ACTIVE bookings end up on one slot |
| Payments.PaymentRepository.Save | ParkEaseSmartParkingSpotFinderApication-main/smartParkingProjectFontendandBackend-main/backend/src/main/java/com/parkease/backend/service/PaymentService.java:38 | appends the payment |
| Payments.WalletTransactionRepository.Save | ParkEaseSmartParkingSpotFinderApication-main/smartParkingProjectFontendandBackend-main/backend/src/main/java/com/parkease/backend/service/PaymentService.java:50 | appends the transaction |
| Payments.NetAppend | ParkEaseSmartParkingSpotFinderApication-main/smartParkingProjectFontendandBackend-main/backend/src/main/java/com/parkease/backend/service/PaymentService.java:44-62 | a wallet's net movement over a log is additive over appended entries |
| Payments.NetOfSettlement | ParkEaseSmartParkingSpotFinderApication-main/smartParkingProjectFontendandBackend-main/backend/src/main/java/com/parkease/backend/service/PaymentService.java:44-62 | a settlement moves the earning into the provider's wallet and the total out of the driver's |
| Payments.NewPayment | ParkEaseSmartParkingSpotFinderApication-main/smartParkingProjectFontendandBackend-main/backend/src/main/java/com/parkease/backend/service/PaymentService.java:29-36 | fee plus earning equals the total; PAID, for the booking and method |
| Payments.Settlement | ParkEaseSmartParkingSpotFinderApication-main/smartParkingProjectFontendandBackend-main/backend/src/main/java/com/parkease/backend/service/PaymentService.java:48-62 | two entries: the provider's CREDIT of the earning, then the driver's DEBIT of the total |
| Payments.CreatePayment | ParkEaseSmartParkingSpotFinderApication-main/smartParkingProjectFontendandBackend-main/backend/src/main/java/com/parkease/backend/service/PaymentService.java:24-65 | the payment is saved; a missing slot fails with no wallet touched; otherwise the two balances move by earning and total (a null balance counting 0), the two entries are logged, each balance still equals its log net plus its old offset, and the pair loses exactly the fee |
| MobileRegister.Check | ParkEaseSmartParkingSpotFinderApication-main/SmartParkingSpot_Frontend/SmartParkingSpot_Frontend-main/components/auth/UnifiedRegister.tsx:76-94 | the first failing check in order: common fields, driver vehicle, provider hub and documents, then the mismatch; no alert iff all pass |
| MobileRegister.Only | ParkEaseSmartParkingSpotFinderApication-main/SmartParkingSpot_Frontend/SmartParkingSpot_Frontend-main/components/auth/UnifiedRegister.tsx:107-115 | a field is sent iff the role is the one it belongs to |
| MobileRegister.BuildPayload | ParkEaseSmartParkingSpotFinderApication-main/SmartParkingSpot_Frontend/SmartParkingSpot_Frontend-main/components/auth/UnifiedRegister.tsx:100-116 | name, e-mail and phone trimmed; role upper-cased; vehicle fields iff driver; hub and document fields iff provider; slots as `parseInt || 0` |
| MobileRegister.Or | ParkEaseSmartParkingSpotFinderApication-main/SmartParkingSpot_Frontend/SmartParkingSpot_Frontend-main/components/auth/UnifiedRegister.tsx:137 | `a || b` on strings: `a` when it is non-empty, otherwise `b` |
| MobileRegister.SuccessMessage | ParkEaseSmartParkingSpotFinderApication-main/SmartParkingSpot_Frontend/SmartParkingSpot_Frontend-main/components/auth/UnifiedRegister.tsx:121-123 | an admin is told to proceed to login; a provider or driver is told, by the role's name, that the account awaits approval |
| MobileRegister.ErrorMessage | ParkEaseSmartParkingSpotFinderApication-main/SmartParkingSpot_Frontend/SmartParkingSpot_Frontend-main/components/auth/UnifiedRegister.tsx:132-144 | never empty; a timeout names the server address; a server reply shows its message, else "Server error: " and the status; no reply at all names the server address; otherwise the error's own message, else the default text |
| MobileRegister.Outcome | ParkEaseSmartParkingSpotFinderApication-main/SmartParkingSpot_Frontend/SmartParkingSpot_Frontend-main/components/auth/UnifiedRegister.tsx:119-144 | "Success" iff the call succeeded, with SuccessMessage for the role; otherwise "Error" with ErrorMessage; the text is never empty |
| MobileRegister.HandleRegister | ParkEaseSmartParkingSpotFinderApication-main/SmartParkingSpot_Frontend/SmartParkingSpot_Frontend-main/components/auth/UnifiedRegister.tsx:75-146 | nothing is sent iff a check fails (its alert, loading untouched); otherwise the payload is sent, the reply decides the alert, loading ends false |
| MobileRegister.UpperRoleText | ParkEaseSmartParkingSpotFinderApication-main/SmartParkingSpot_Frontend/SmartParkingSpot_Frontend-main/components/auth/UnifiedRegister.tsx:106 | upper-casing the screen role gives the backend role name |
| MobileRegister.PayloadRoleIsBackendRole | ParkEaseSmartParkingSpotFinderApication-main/SmartParkingSpot_Frontend/SmartParkingSpot_Frontend-main/components/auth/UnifiedRegister.tsx:106 | the backend reads the sent role back as the screen's role |
| MobileRegister.PayloadIsTrimmed | ParkEaseSmartParkingSpotFinderApication-main/SmartParkingSpot_Frontend/SmartParkingSpot_Frontend-main/components/auth/UnifiedRegister.tsx:101-103 | sent name, e-mail and phone have no white space at either end |
| MobileRegister.DigitSlotsAreSent | ParkEaseSmartParkingSpotFinderApication-main/SmartParkingSpot_Frontend/SmartParkingSpot_Frontend-main/components/auth/UnifiedRegister.tsx:112 | a digit-string slot count is sent as its value |
| MobileRegister.BlankNameIsSentEmpty | ParkEaseSmartParkingSpotFinderApication-main/SmartParkingSpot_Frontend/SmartParkingSpot_Frontend-main/components/auth/UnifiedRegister.tsx:76-102 | a non-empty name made only of white space is checked like any non-empty name and is sent as "" |
| MobileRegister.ToRequest | ParkEaseSmartParkingSpotFinderApication-main/SmartParkingSpot_Frontend/SmartParkingSpot_Frontend-main/components/auth/UnifiedRegister.tsx:100-116 | the backend request: omitted fields become null; an unknown role fails |
| MobileRegister.ProviderKeepsHubDetails | ParkEaseSmartParkingSpotFinderApication-main/SmartParkingSpot_Frontend/SmartParkingSpot_Frontend-main/components/auth/UnifiedRegister.tsx:86-115 | a provider registered from the app keeps the typed hub, owner name and Aadhaar number and starts unapproved |
| WebRegister.Check | ParkEaseSmartParkingSpotFinderApication-main/smartParkingProjectFontendandBackend-main/frontend/components/auth/UnifiedRegister.tsx:73-97 | the first failing check in order: common fields, mismatch, provider location, driver vehicle; no error iff all pass |
| WebRegister.BuildPayload | ParkEaseSmartParkingSpotFinderApication-main/smartParkingProjectFontendandBackend-main/frontend/components/auth/UnifiedRegister.tsx:99-112 | nothing trimmed; the role's name; hub name and location for every role; slots iff PROVIDER; vehicle iff DRIVER |
| WebRegister.Settle | ParkEaseSmartParkingSpotFinderApication-main/smartParkingProjectFontendandBackend-main/frontend/components/auth/UnifiedRegister.tsx:114-143 | loading ends false; exactly one of the two messages set; an OK response shows the success text; a non-OK response shows the server message, else "Registration failed"; a thrown fetch shows the network-failure text |
| WebRegister.HandleRegister | ParkEaseSmartParkingSpotFinderApication-main/smartParkingProjectFontendandBackend-main/frontend/components/auth/UnifiedRegister.tsx:69-144 | nothing is sent iff a check fails (its message only, loading untouched); otherwise the reply settles the page; exactly one message is set |
| WebRegister.MessagesCleared | ParkEaseSmartParkingSpotFinderApication-main/smartParkingProjectFontendandBackend-main/frontend/components/auth/UnifiedRegister.tsx:70-71 | an attempt's outcome does not depend on the messages shown before |
| WebRegister.ToRequest | ParkEaseSmartParkingSpotFinderApication-main/smartParkingProjectFontendandBackend-main/frontend/components/auth/UnifiedRegister.tsx:99-112 | the backend request: hub name and location always present, no owner name |
| WebRegister.ProviderHubAsTyped | ParkEaseSmartParkingSpotFinderApication-main/smartParkingProjectFontendandBackend-main/frontend/components/auth/UnifiedRegister.tsx:99-107 | an empty hub name arrives as "", so the "Pending Setup" placeholder never applies; no documents are stored |
| WebRegister.DriverHubFieldsDropped | ParkEaseSmartParkingSpotFinderApication-main/smartParkingProjectFontendandBackend-main/frontend/components/auth/UnifiedRegister.tsx:105-111 | the hub fields a driver sends are dropped; the vehicle is stored |
| WebRegister.ScreensCheckInDifferentOrders | ParkEaseSmartParkingSpotFinderApication-main/smartParkingProjectFontendandBackend-main/frontend/components/auth/UnifiedRegister.tsx:84-97 | a driver form with no vehicle and a mismatch gets the vehicle alert on mobile and the mismatch message on the web |
| NotificationBell.UnreadCount | ParkEaseSmartParkingSpotFinderApication-main/SmartParkingSpot_Frontend/SmartParkingSpot_Frontend-main/components/NotificationBell.tsx:75 | at most the list length; 0 iff every entry is read |
| NotificationBell.MarkAsRead | ParkEaseSmartParkingSpotFinderApication-main/SmartParkingSpot_Frontend/SmartParkingSpot_Frontend-main/components/NotificationBell.tsx:63 | entries with the id become read, all others unchanged, same length and order |
| NotificationBell.MarkAllRead | ParkEaseSmartParkingSpotFinderApication-main/SmartParkingSpot_Frontend/SmartParkingSpot_Frontend-main/components/NotificationBell.tsx:72 | every entry becomes read, otherwise unchanged, same length and order |
| NotificationBell.Badge | ParkEaseSmartParkingSpotFinderApication-main/SmartParkingSpot_Frontend/SmartParkingSpot_Frontend-main/components/NotificationBell.tsx:87-89 | shown iff requested and something is unread; "9+" iff more than 9; otherwise the single-digit count |
| NotificationBell.MarkAllReadClearsCount | ParkEaseSmartParkingSpotFinderApication-main/SmartParkingSpot_Frontend/SmartParkingSpot_Frontend-main/components/NotificationBell.tsx:72-75 | after marking all read nothing is unread |
| NotificationBell.MarkAllReadIdempotent | ParkEaseSmartParkingSpotFinderApication-main/SmartParkingSpot_Frontend/SmartParkingSpot_Frontend-main/components/NotificationBell.tsx:72 | marking all read twice equals once |
| NotificationBell.MarkAsReadIdempotent | ParkEaseSmartParkingSpotFinderApication-main/SmartParkingSpot_Frontend/SmartParkingSpot_Frontend-main/components/NotificationBell.tsx:63 | marking one id read twice equals once |
| NotificationBell.MarkAsReadCount | ParkEaseSmartParkingSpotFinderApication-main/SmartParkingSpot_Frontend/SmartParkingSpot_Frontend-main/components/NotificationBell.tsx:63-75 | the unread count falls by exactly the unread entries with the id |
| NotificationBell.UnreadWithIdBound | ParkEaseSmartParkingSpotFinderApication-main/SmartParkingSpot_Frontend/SmartParkingSpot_Frontend-main/components/NotificationBell.tsx:63-75 | unread entries with one id never exceed the unread count |
| NotificationBell.MarkOneUnread | ParkEaseSmartParkingSpotFinderApication-main/SmartParkingSpot_Frontend/SmartParkingSpot_Frontend-main/components/NotificationBell.tsx:63-75 | with unique ids, marking an unread entry read lowers the count by one |

## Left out

- Persistence is sequences in memory. Transactions, rollback and concurrency are not modelled. In particular, `endBooking` on a booking without a slot is modelled as the exception it raises after setting status and end time; the rollback that would undo those writes is not.
- `save` of an entity that is already stored (the slot in `startBooking`/`endBooking`/`cancelBooking`, the user after an update, the two users in `createPayment`) is a no-op: the object is already changed in place.
- The password encoder, the JWT issuer, the e-mail sender, the clock and `Random.nextInt(900000)` are parameters (`encode`, `matches`, `issueToken`, the returned `OtpEmail`, `now` in minutes, `draw`).
- Booking.java, Payment.java, WalletTransaction.java, VerificationToken.java, VerificationTokenRepository.java, the enum files, JwtService and AdminDriverResponse are not part of this model. Their shape is taken from how the services use them. `isExpired` is taken to be "now is after the expiry time".
- A `findByToken` that matches several rows raises an exception. It is modelled as the error `IncorrectResultSizeDataAccessException`.
- A null `role` in the registration request, and null strings in general (modelled as empty strings or Option), are not modelled.
- Case mapping and case-insensitive comparison are ASCII only. Java's locale- and Unicode-aware upper-casing is not modelled.
- `parseInt` is modelled for decimal text with optional white space and sign. Hexadecimal prefixes, `Infinity` and huge values are left out.
- Money is exact real arithmetic. IEEE double rounding in wallet balances is not modelled.
- Payments.CreatePayment: when provider and driver are the same user, only the net change (minus the fee) is stated, not the two intermediate writes.
- MobileRegister.HandleRegister: the app's `API` base address is a parameter. Navigation after the alert and console logging are left out.
- WebRegister.HandleRegister: the 1.5-second redirect after success is left out. A JSON body whose `message` is not a string is left out.
- The fetching of notifications, the polling interval and the server call of `markAsRead` are left out. `MarkAsRead` models only the local update, which runs whatever HTTP status the call returns; a thrown network error skips it and leaves the list unchanged.
- The User columns ownershipDocumentUrl, govtIdUrl, profileImage, bankName, accountNumber and ifscCode, the parkingLots relation and their accessors are left out: none of the modelled operations reads or writes them.
