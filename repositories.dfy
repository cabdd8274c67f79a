/** The persistent stores the account services use, held in memory: the users table
    (with the derived queries the services call and the default method
    `countByRoleAndStatus`), the notifications table and the password-reset tokens. */
module Repositories {
  import opened Wrappers
  import opened Strings
  import opened Accounts

  // ---------------------------------------------------------------------------
  // Users
  // ---------------------------------------------------------------------------

  /** Number of users in `us` with the given role and enabled flag. */
  function CountMatching(us: seq<User>, role: Role, enabled: bool): (n: nat)
    reads us
    ensures n <= |us|
    ensures n == 0 <==> forall i :: 0 <= i < |us| ==> !(us[i].role == Some(role) && us[i].enabled == enabled)
  {
    if us == [] then 0
    else CountMatching(us[..|us| - 1], role, enabled)
         + (if us[|us| - 1].role == Some(role) && us[|us| - 1].enabled == enabled then 1 else 0)
  }

  /** The users with the given role, in store order. */
  function WithRole(us: seq<User>, role: Role): (r: seq<User>)
    reads us
    ensures |r| <= |us|
    ensures forall i :: 0 <= i < |r| ==> r[i] in us && r[i].role == Some(role)
    ensures forall i :: 0 <= i < |us| && us[i].role == Some(role) ==> us[i] in r
  {
    if us == [] then []
    else WithRole(us[..|us| - 1], role)
         + (if us[|us| - 1].role == Some(role) then [us[|us| - 1]] else [])
  }

  /** `WithRole` keeps every user of the role as often as the store holds it, and nobody else. */
  lemma {:induction false} WithRoleCounts(us: seq<User>, role: Role)
    ensures forall x: User :: multiset(WithRole(us, role))[x] == (if x.role == Some(role) then multiset(us)[x] else 0)
  {
    if us != [] {
      var init, last := us[..|us| - 1], us[|us| - 1];
      WithRoleCounts(init, role);
      assert us == init + [last];
    }
  }

  /** Every user of a role is counted once: among the enabled ones or among the disabled ones. */
  lemma {:induction false} CountsSplitRole(us: seq<User>, role: Role)
    ensures CountMatching(us, role, true) + CountMatching(us, role, false) == |WithRole(us, role)|
  {
    if us != [] {
      CountsSplitRole(us[..|us| - 1], role);
    }
  }

  class UserRepository {
    var users: seq<User>
    var nextId: int

    /** What the table's constraints guarantee of stored rows: a generated id, a role
        (NOT NULL), and unique ids, e-mail addresses and phone numbers. */
    ghost predicate Valid()
      reads this, users
    {
      && (forall i :: 0 <= i < |users| ==>
            users[i].id.Some? && users[i].id.value < nextId && users[i].role.Some?)
      && (forall i, j :: 0 <= i < j < |users| ==>
            users[i].id != users[j].id
            && users[i].email != users[j].email
            && users[i].phoneNumber != users[j].phoneNumber)
    }

    constructor ()
      ensures Valid() && users == [] && nextId == 0
    {
      users, nextId := [], 0;
    }

    /** `findByEmail`. */
    method FindByEmail(email: string) returns (r: Option<User>)
      ensures r.Some? ==> r.value in users && r.value.email == email
      ensures r.None? ==> forall i :: 0 <= i < |users| ==> users[i].email != email
    {
      var i := 0;
      while i < |users|
        invariant 0 <= i <= |users|
        invariant forall j :: 0 <= j < i ==> users[j].email != email
      {
        if users[i].email == email {
          return Some(users[i]);
        }
        i := i + 1;
      }
      return None;
    }

    /** `existsByEmail`. */
    method ExistsByEmail(email: string) returns (b: bool)
      ensures b <==> exists i :: 0 <= i < |users| && users[i].email == email
    {
      var r := FindByEmail(email);
      b := r.Some?;
    }

    /** `existsByPhoneNumber`. */
    method ExistsByPhoneNumber(phoneNumber: string) returns (b: bool)
      ensures b <==> exists i :: 0 <= i < |users| && users[i].phoneNumber == phoneNumber
    {
      var i := 0;
      while i < |users|
        invariant 0 <= i <= |users|
        invariant forall j :: 0 <= j < i ==> users[j].phoneNumber != phoneNumber
      {
        if users[i].phoneNumber == phoneNumber {
          return true;
        }
        i := i + 1;
      }
      return false;
    }

    /** `findById`. */
    method FindById(id: int) returns (r: Option<User>)
      ensures r.Some? ==> r.value in users && r.value.id == Some(id)
      ensures r.None? ==> forall i :: 0 <= i < |users| ==> users[i].id != Some(id)
    {
      var i := 0;
      while i < |users|
        invariant 0 <= i <= |users|
        invariant forall j :: 0 <= j < i ==> users[j].id != Some(id)
      {
        if users[i].id == Some(id) {
          return Some(users[i]);
        }
        i := i + 1;
      }
      return None;
    }

    /** `save` of a new user: the identity column assigns the next id. The unique and
        NOT NULL constraints are the caller's to meet (registration checks them first). */
    method Insert(u: User)
      requires Valid()
      requires u.role.Some?
      requires forall i :: 0 <= i < |users| ==>
                 users[i].email != u.email && users[i].phoneNumber != u.phoneNumber
      modifies this, u`id
      ensures Valid()
      ensures users == old(users) + [u]
      ensures u.id == Some(old(nextId)) && nextId == old(nextId) + 1
    {
      u.id := Some(nextId);
      users := users + [u];
      nextId := nextId + 1;
    }

    /** `delete`: removes the user if stored and keeps the others in order. */
    method Delete(u: User)
      requires Valid()
      modifies this
      ensures Valid()
      ensures nextId == old(nextId)
      ensures u !in old(users) ==> users == old(users)
      ensures u in old(users) ==>
                exists k :: 0 <= k < |old(users)| && old(users)[k] == u
                            && users == old(users)[..k] + old(users)[k + 1..]
      ensures u in old(users) ==> forall i :: 0 <= i < |users| ==> users[i].id != u.id
    {
      var k := 0;
      while k < |users|
        invariant 0 <= k <= |users|
        invariant forall j :: 0 <= j < k ==> users[j] != u
      {
        if users[k] == u {
          var before := users;
          users := users[..k] + users[k + 1..];
          assert forall i :: 0 <= i < |users| ==>
                   users[i] == before[if i < k then i else i + 1];
          assert forall i :: 0 <= i < |users| ==> users[i].id != u.id by {
            forall i | 0 <= i < |users|
              ensures users[i].id != u.id
            {
              assert users[i] == before[if i < k then i else i + 1];
            }
          }
          return;
        }
        k := k + 1;
      }
    }

    /** Changing columns of stored users other than id, e-mail, phone number and role
        keeps the store valid. */
    twostate lemma KeysUnchanged()
      requires old(Valid())
      requires users == old(users) && nextId == old(nextId)
      requires forall i :: 0 <= i < |users| ==>
                 && users[i].id == old(users[i].id) && users[i].email == old(users[i].email)
                 && users[i].phoneNumber == old(users[i].phoneNumber) && users[i].role == old(users[i].role)
      ensures Valid()
    {
    }

    /** `findByRole`. */
    function FindByRole(role: Role): (r: seq<User>)
      reads this, users
      ensures forall i :: 0 <= i < |r| ==> r[i] in users && r[i].role == Some(role)
      ensures forall i :: 0 <= i < |users| && users[i].role == Some(role) ==> users[i] in r
      ensures multiset(r) <= multiset(users)
      ensures forall x :: x in users ==>
                multiset(r)[x] == (if x.role == Some(role) then multiset(users)[x] else 0)
    {
      WithRoleCounts(users, role);
      WithRole(users, role)
    }

    /** `countByRoleAndEnabled`. */
    function CountByRoleAndEnabled(role: Role, enabled: bool): (n: nat)
      reads this, users
      ensures n <= |users|
      ensures n == 0 <==>
                forall i :: 0 <= i < |users| ==> !(users[i].role == Some(role) && users[i].enabled == enabled)
      ensures n + CountMatching(users, role, !enabled) == |FindByRole(role)|
    {
      CountsSplitRole(users, role);
      CountMatching(users, role, enabled)
    }

    /** `countByRoleAndStatus`: the role string matched ignoring case against the Role
        names, the status "ACTIVE" (any case) selecting enabled users and anything else,
        null included, disabled ones; a null or unknown role counts 0 instead of throwing. */
    function CountByRoleAndStatus(roleStr: Option<string>, statusStr: Option<string>): (n: nat)
      reads this, users
      ensures roleStr.None? ==> n == 0
      ensures roleStr.Some? && (forall role :: !EqualsIgnoreCase(roleStr.value, RoleName(role))) ==> n == 0
      ensures forall role :: roleStr.Some? && EqualsIgnoreCase(roleStr.value, RoleName(role)) ==>
                n == CountByRoleAndEnabled(role, LiteralEqualsIgnoreCase("ACTIVE", statusStr))
    {
      if roleStr.None? then 0
      else
        ParseRoleIgnoringCase(roleStr.value);
        match RoleValueOf(ToUpper(roleStr.value))
        case None => 0
        case Some(role) =>
          CountByRoleAndEnabled(role, LiteralEqualsIgnoreCase("ACTIVE", statusStr))
    }
  }

  // ---------------------------------------------------------------------------
  // Notifications
  // ---------------------------------------------------------------------------

  /** A notifications row; `targetRole` is the audience ("ADMIN", "DRIVER", ...), `refId`
      the id of the record it is about. */
  datatype Notification = Notification(
    message: string, targetRole: string, notificationType: string,
    refId: Option<int>, read: bool, createdAt: int)

  class NotificationRepository {
    var items: seq<Notification>

    constructor ()
      ensures items == []
    {
      items := [];
    }

    /** `save` of a new notification. */
    method Save(n: Notification)
      modifies this
      ensures items == old(items) + [n]
    {
      items := items + [n];
    }
  }

  // ---------------------------------------------------------------------------
  // Password-reset tokens
  // ---------------------------------------------------------------------------

  /** A one-time password issued to `user`, valid until `expiryDate` (minutes). */
  datatype VerificationToken = VerificationToken(token: string, expiryDate: int, user: User)

  /** A token is expired once the clock has passed its expiry time. */
  predicate IsExpired(t: VerificationToken, now: int) {
    now > t.expiryDate
  }

  /** The tokens not issued to `u`, in order. */
  function TokensNotOf(ts: seq<VerificationToken>, u: User): (r: seq<VerificationToken>)
    ensures |r| <= |ts|
    ensures forall i :: 0 <= i < |r| ==> r[i] in ts && r[i].user != u
    ensures forall i :: 0 <= i < |ts| && ts[i].user != u ==> ts[i] in r
  {
    if ts == [] then []
    else TokensNotOf(ts[..|ts| - 1], u)
         + (if ts[|ts| - 1].user != u then [ts[|ts| - 1]] else [])
  }

  /** `TokensNotOf` keeps every token of another user as often as it occurs, and no token of `u`. */
  lemma {:induction false} TokensNotOfCounts(ts: seq<VerificationToken>, u: User)
    ensures forall t :: multiset(TokensNotOf(ts, u))[t] == (if t.user != u then multiset(ts)[t] else 0)
  {
    if ts != [] {
      var init, last := ts[..|ts| - 1], ts[|ts| - 1];
      TokensNotOfCounts(init, u);
      assert ts == init + [last];
    }
  }

  /** The tokens whose text is `otp`, in order. */
  function TokensNamed(ts: seq<VerificationToken>, otp: string): (r: seq<VerificationToken>)
    ensures |r| <= |ts|
    ensures forall i :: 0 <= i < |r| ==> r[i] in ts && r[i].token == otp
    ensures forall i :: 0 <= i < |ts| && ts[i].token == otp ==> ts[i] in r
  {
    if ts == [] then []
    else TokensNamed(ts[..|ts| - 1], otp)
         + (if ts[|ts| - 1].token == otp then [ts[|ts| - 1]] else [])
  }

  /** Exactly one position carries `otp`: some position does, and no two do. */
  predicate NamedOnce(ts: seq<VerificationToken>, otp: string) {
    (exists i :: 0 <= i < |ts| && ts[i].token == otp) && !NamedTwice(ts, otp)
  }

  /** Two distinct positions carry `otp`. */
  predicate NamedTwice(ts: seq<VerificationToken>, otp: string) {
    exists i, j :: 0 <= i < j < |ts| && ts[i].token == otp && ts[j].token == otp
  }

  /** NamedOnce is "some position carries `otp` and every other position does not". */
  lemma {:induction false} NamedOnceUnique(ts: seq<VerificationToken>, otp: string)
    ensures NamedOnce(ts, otp)
            <==> exists i :: 0 <= i < |ts| && ts[i].token == otp
                             && forall j :: 0 <= j < |ts| && j != i ==> ts[j].token != otp
  {
    if NamedOnce(ts, otp) {
      var i :| 0 <= i < |ts| && ts[i].token == otp;
      forall j | 0 <= j < |ts| && j != i
        ensures ts[j].token != otp
      {
        var lo, hi := if i < j then i else j, if i < j then j else i;
        assert !(ts[lo].token == otp && ts[hi].token == otp);
      }
    }
    if exists i :: 0 <= i < |ts| && ts[i].token == otp
                   && forall j :: 0 <= j < |ts| && j != i ==> ts[j].token != otp {
      var i :| 0 <= i < |ts| && ts[i].token == otp
               && forall j :: 0 <= j < |ts| && j != i ==> ts[j].token != otp;
      forall a, b | 0 <= a < b < |ts|
        ensures !(ts[a].token == otp && ts[b].token == otp)
      {
        if a != i {
          assert ts[a].token != otp;
        } else {
          assert ts[b].token != otp;
        }
      }
    }
  }

  /** Two or more tokens are named `otp` only when two positions carry it. */
  lemma {:induction false} NamedPair(ts: seq<VerificationToken>, otp: string)
    requires |TokensNamed(ts, otp)| >= 2
    ensures exists i, j :: 0 <= i < j < |ts| && ts[i].token == otp && ts[j].token == otp
  {
    var init := ts[..|ts| - 1];
    var r := TokensNamed(init, otp);
    if ts[|ts| - 1].token == otp {
      assert r[0] in init;
      var i :| 0 <= i < |init| && init[i] == r[0];
      assert ts[i].token == otp;
    } else {
      NamedPair(init, otp);
      var i, j :| 0 <= i < j < |init| && init[i].token == otp && init[j].token == otp;
      assert ts[i] == init[i] && ts[j] == init[j];
    }
  }

  /** Two positions carrying `otp` give at least two tokens named `otp`. */
  lemma {:induction false} TwoNamed(ts: seq<VerificationToken>, otp: string, i: nat, j: nat)
    requires i < j < |ts| && ts[i].token == otp && ts[j].token == otp
    ensures |TokensNamed(ts, otp)| >= 2
  {
    var init := ts[..|ts| - 1];
    if j < |ts| - 1 {
      assert init[i].token == otp && init[j].token == otp;
      TwoNamed(init, otp, i, j);
    } else {
      assert init[i].token == otp;
      assert init[i] in TokensNamed(init, otp);
    }
  }

  /** At least two tokens are named `otp` exactly when two positions carry it. */
  lemma SeveralNamed(ts: seq<VerificationToken>, otp: string)
    ensures |TokensNamed(ts, otp)| >= 2 <==> NamedTwice(ts, otp)
  {
    if |TokensNamed(ts, otp)| >= 2 {
      NamedPair(ts, otp);
    }
    if exists i, j :: 0 <= i < j < |ts| && ts[i].token == otp && ts[j].token == otp {
      var i, j :| 0 <= i < j < |ts| && ts[i].token == otp && ts[j].token == otp;
      TwoNamed(ts, otp, i, j);
    }
  }

  /** What `findByToken` yields: no row, one row, or (an exception) several rows. */
  datatype TokenLookup = NoToken | OneToken(found: VerificationToken) | SeveralTokens

  class VerificationTokenRepository {
    var tokens: seq<VerificationToken>

    constructor ()
      ensures tokens == []
    {
      tokens := [];
    }

    /** `findByToken`. */
    function FindByToken(otp: string): (r: TokenLookup)
      reads this
      ensures r == NoToken <==> forall i :: 0 <= i < |tokens| ==> tokens[i].token != otp
      ensures r.OneToken? ==> r.found in tokens && r.found.token == otp
    {
      var matches := TokensNamed(tokens, otp);
      if |matches| == 0 then NoToken
      else if |matches| == 1 then (assert matches[0] in matches; OneToken(matches[0]))
      else (assert matches[0] in matches; SeveralTokens)
    }

    /** `findByToken` yields one token exactly when one row carries the text, and fails with
        several rows exactly when two rows carry it. */
    lemma LookupCases(otp: string)
      ensures FindByToken(otp).OneToken? <==> NamedOnce(tokens, otp)
      ensures FindByToken(otp) == SeveralTokens <==> NamedTwice(tokens, otp)
    {
      SeveralNamed(tokens, otp);
    }

    /** `deleteByUser`. */
    method DeleteByUser(u: User)
      modifies this
      ensures tokens == TokensNotOf(old(tokens), u)
    {
      tokens := TokensNotOf(tokens, u);
    }

    /** `save` of a new token. */
    method Save(t: VerificationToken)
      modifies this
      ensures tokens == old(tokens) + [t]
    {
      tokens := tokens + [t];
    }
  }
}
