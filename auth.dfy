/**
  The authorization rules of the auth package: the role hierarchy and agent-access table
  of `User`, password strength, and the field rules and refusals of the profile and
  user-administration routes over a user directory (the database, hashing and audit log
  abstracted).
*/
module Auth {
  import opened Wrappers
  import opened Text

  // ---------------- roles (models.py) ----------------

  datatype Role = User | CA | SeniorCA | Admin | SuperAdmin

  /** `UserRole(text)`: None where the enum constructor raises ValueError. */
  function ParseRole(text: string): (r: Option<Role>)
    ensures r.Some? ==> RoleText(r.value) == text
  {
    if text == "user" then Some(User)
    else if text == "ca" then Some(CA)
    else if text == "senior_ca" then Some(SeniorCA)
    else if text == "admin" then Some(Admin)
    else if text == "superadmin" then Some(SuperAdmin)
    else None
  }

  /** The stored value of each role. */
  function RoleText(r: Role): string {
    match r
    case User => "user"
    case CA => "ca"
    case SeniorCA => "senior_ca"
    case Admin => "admin"
    case SuperAdmin => "superadmin"
  }

  /** Parsing reads back every stored role value. */
  lemma ParseRoleText(r: Role)
    ensures ParseRole(RoleText(r)) == Some(r)
  {
  }

  /** The level table of `has_role`. */
  function Level(r: Role): (n: nat)
    ensures n <= 4
  {
    match r
    case User => 0
    case CA => 1
    case SeniorCA => 2
    case Admin => 3
    case SuperAdmin => 4
  }

  /** `User.has_role`: a stored role that is no `UserRole` value raises (Err). */
  function HasRole(stored: string, required: Role): (r: Result<bool, string>)
    ensures r.Err? <==> ParseRole(stored).None?
    ensures r.Ok? ==> (r.value <==> Level(ParseRole(stored).value) >= Level(required))
  {
    match ParseRole(stored)
    case None => Err("ValueError")
    case Some(role) => Ok(Level(role) >= Level(required))
  }

  /** Levels are distinct, so "at least" is a total order on roles. */
  lemma LevelInjective(a: Role, b: Role)
    ensures Level(a) == Level(b) ==> a == b
  {
  }

  /** Every role has itself, SUPERADMIN has every role, and having is transitive. */
  lemma HasRoleOrder(a: Role, b: Role, c: Role)
    ensures HasRole(RoleText(a), a) == Ok(true)
    ensures HasRole(RoleText(SuperAdmin), a) == Ok(true)
    ensures HasRole(RoleText(a), b) == Ok(true) && HasRole(RoleText(b), c) == Ok(true) ==> HasRole(RoleText(a), c) == Ok(true)
  {
    ParseRoleText(a);
    ParseRoleText(b);
    ParseRoleText(SuperAdmin);
  }

  /** An unknown stored role raises rather than counting as the lowest level. */
  lemma UnknownRoleRaises(required: Role)
    ensures HasRole("guest", required).Err?
    ensures CanAccessAgent("guest", "TaxBot").Err?
  {
  }

  /** The agent-access table. */
  function AllowedAgents(r: Role): seq<string> {
    match r
    case User => ["DocAuditAgent", "BookBotAgent", "InsightBotAgent", "TaxBot", "GSTAgent"]
    case CA => ["DocAuditAgent", "BookBotAgent", "InsightBotAgent", "TaxBot", "GSTAgent",
                "ClientCommAgent", "ComplianceCheckAgent", "FinModelAgent", "LedgerReconAgent"]
    case SeniorCA => ["DocAuditAgent", "BookBotAgent", "InsightBotAgent", "TaxBot", "GSTAgent",
                      "ClientCommAgent", "ComplianceCheckAgent", "FinModelAgent", "LedgerReconAgent",
                      "FraudDetectAgent", "RegulatoryAgent", "AuditTrailAgent"]
    case Admin => ["*"]
    case SuperAdmin => ["*"]
  }

  /** `User.can_access_agent`: the wildcard grants every agent. */
  function CanAccessAgent(stored: string, agent: string): (r: Result<bool, string>)
    ensures r.Err? <==> ParseRole(stored).None?
    ensures r.Ok? ==> (r.value <==> "*" in AllowedAgents(ParseRole(stored).value) || agent in AllowedAgents(ParseRole(stored).value))
  {
    match ParseRole(stored)
    case None => Err("ValueError")
    case Some(role) => Ok("*" in AllowedAgents(role) || agent in AllowedAgents(role))
  }

  /** ADMIN and SUPERADMIN reach every agent. */
  lemma AdminsReachAll(agent: string)
    ensures CanAccessAgent("admin", agent) == Ok(true)
    ensures CanAccessAgent("superadmin", agent) == Ok(true)
  {
  }

  /** A USER reaches exactly the five basic agents. */
  lemma UserAgents(agent: string)
    ensures CanAccessAgent("user", agent) == Ok(agent in {"DocAuditAgent", "BookBotAgent", "InsightBotAgent", "TaxBot", "GSTAgent"})
  {
  }

  /** The lists are nested: USER within CA within SENIOR_CA. */
  lemma AccessNested()
    ensures forall a :: a in AllowedAgents(User) ==> a in AllowedAgents(CA)
    ensures forall a :: a in AllowedAgents(CA) ==> a in AllowedAgents(SeniorCA)
  {
  }

  /** A higher role reaches every agent a lower one reaches. */
  lemma AccessMonotone(a: Role, b: Role, agent: string)
    requires Level(a) >= Level(b)
    requires CanAccessAgent(RoleText(b), agent) == Ok(true)
    ensures CanAccessAgent(RoleText(a), agent) == Ok(true)
  {
    ParseRoleText(a);
    ParseRoleText(b);
    AccessNested();
  }

  // ---------------- password strength (routes.py) ----------------

  predicate IsSpecial(c: char) {
    c in "!@#$%^&*(),.?\":{}|<>"
  }

  predicate HasUpper(p: string) { exists i :: 0 <= i < |p| && IsUpper(p[i]) }
  predicate HasLower(p: string) { exists i :: 0 <= i < |p| && IsLower(p[i]) }
  predicate HasDigit(p: string) { exists i :: 0 <= i < |p| && IsDigit(p[i]) }
  predicate HasSpecial(p: string) { exists i :: 0 <= i < |p| && IsSpecial(p[i]) }

  /** `validate_password`: the length test first, then one search per character class. */
  function ValidatePassword(p: string): (ok: bool)
    ensures |p| < 8 ==> !ok
    ensures ok <==> |p| >= 8 && HasUpper(p) && HasLower(p) && HasDigit(p) && HasSpecial(p)
  {
    if |p| < 8 then false
    else if !HasUpper(p) then false
    else if !HasLower(p) then false
    else if !HasDigit(p) then false
    else if !HasSpecial(p) then false
    else true
  }

  /** Appending characters to a strong password keeps it strong. */
  lemma ValidateExtends(p: string, q: string)
    requires ValidatePassword(p)
    ensures ValidatePassword(p + q)
  {
    var pq := p + q;
    var u :| 0 <= u < |p| && IsUpper(p[u]);
    assert pq[u] == p[u];
    var l :| 0 <= l < |p| && IsLower(p[l]);
    assert pq[l] == p[l];
    var d :| 0 <= d < |p| && IsDigit(p[d]);
    assert pq[d] == p[d];
    var s :| 0 <= s < |p| && IsSpecial(p[s]);
    assert pq[s] == p[s];
  }

  /** A password with all four classes and eight characters passes. */
  lemma ValidateExample()
    ensures ValidatePassword("Passw0rd!")
  {
    var p := "Passw0rd!";
    assert IsUpper(p[0]) && IsLower(p[1]) && IsDigit(p[5]) && IsSpecial(p[8]);
  }

  // ---------------- user routes (routes.py) ----------------

  /** A field value set on a user record. */
  datatype Value = Text(s: string) | Flag(b: bool)

  /** A user row: its fields by attribute name ("username", "email", "role", ...). */
  type Fields = map<string, Value>

  /** An update request body after `dict(exclude_unset=True)`. */
  type Update = map<string, Value>

  /** The route refusals, as HTTP status codes with their detail text. */
  datatype Refusal = Refusal(status: nat, detail: string)

  /** Another user than `self` already holds `value` in `field`. */
  predicate Taken(users: map<int, Fields>, field: string, value: Value, self: int) {
    exists id :: id in users && id != self && field in users[id] && users[id][field] == value
  }

  /** The uniqueness refusals shared by both update routes, username first. */
  function UniquenessRefusal(users: map<int, Fields>, update: Update, self: int): (r: Option<Refusal>)
    ensures r.Some? ==> r.value.status == 400
    ensures r.None? <==>
      !("username" in update && Taken(users, "username", update["username"], self))
      && !("email" in update && Taken(users, "email", update["email"], self))
  {
    if "username" in update && Taken(users, "username", update["username"], self) then
      Some(Refusal(400, "Username already taken"))
    else if "email" in update && Taken(users, "email", update["email"], self) then
      Some(Refusal(400, "Email already in use"))
    else None
  }

  /** `update_profile`'s filtering: "role" is dropped, every other field kept. */
  function ProfileUpdate(update: Update): (u: Update)
    ensures "role" !in u
    ensures forall k :: k != "role" ==> (k in u <==> k in update)
    ensures forall k :: k in u ==> u[k] == update[k]
  {
    update - {"role"}
  }

  /** `update_user`'s password rule: a plain "password" becomes "hashed_password" via `hash`. */
  function AdminUpdate(update: Update, hash: string -> string): (u: Update)
    ensures "password" !in u
    ensures "password" in update && update["password"].Text? ==>
      "hashed_password" in u && u["hashed_password"] == Text(hash(update["password"].s))
    ensures forall k :: k != "password" && k != "hashed_password" ==> (k in u <==> k in update) && (k in u ==> u[k] == update[k])
  {
    if "password" in update && update["password"].Text? then
      (update[("hashed_password") := Text(hash(update["password"].s))]) - {"password"}
    else update - {"password"}
  }

  /** The refusals of `update_user` in the order the route checks them: 404, 403 for a role
      change by a caller below SUPERADMIN (500 where the caller's stored role is invalid), 400. */
  function UpdateUserRefusal(users: map<int, Fields>, caller: int, userId: int, update: Update): (r: Option<Refusal>)
    requires caller in users
    ensures userId !in users ==> r == Some(Refusal(404, "User not found"))
    ensures r.None? ==> userId in users && ("role" in update ==> CallerIsSuperAdmin(users, caller))
  {
    if userId !in users then Some(Refusal(404, "User not found"))
    else if "role" in update && !CallerIsSuperAdmin(users, caller) then
      if CallerRole(users, caller).None? then Some(Refusal(500, "ValueError"))
      else Some(Refusal(403, "Only superadmin can change user roles"))
    else UniquenessRefusal(users, update, userId)
  }

  /** The caller's stored role, parsed. */
  function CallerRole(users: map<int, Fields>, caller: int): Option<Role>
    requires caller in users
  {
    if "role" in users[caller] && users[caller]["role"].Text? then ParseRole(users[caller]["role"].s) else None
  }

  predicate CallerIsSuperAdmin(users: map<int, Fields>, caller: int)
    requires caller in users
  {
    CallerRole(users, caller) == Some(SuperAdmin)
  }

  /** `has_role(SUPERADMIN)` holds exactly for a SUPERADMIN caller. */
  lemma SuperAdminCheck(users: map<int, Fields>, caller: int)
    requires caller in users && "role" in users[caller] && users[caller]["role"].Text?
    requires ParseRole(users[caller]["role"].s).Some?
    ensures HasRole(users[caller]["role"].s, SuperAdmin) == Ok(CallerIsSuperAdmin(users, caller))
  {
  }

  /** The user table, with the route handlers as methods. */
  class Directory {
    var users: map<int, Fields>

    constructor(initial: map<int, Fields>)
      ensures users == initial
    {
      users := initial;
    }

    /** The setattr loop: each field of the update is written onto user `id`. */
    method Apply(id: int, update: Update)
      requires id in users
      modifies this
      ensures users == old(users)[id := old(users)[id] + update]
    {
      var fields := users[id];
      var rest := update.Keys;
      while rest != {}
        invariant rest <= update.Keys
        invariant fields == users[id] + (map k | k in update.Keys - rest :: update[k])
        decreases rest
      {
        var k :| k in rest;
        fields := fields[k := update[k]];
        rest := rest - {k};
      }
      assert (map k | k in update.Keys - rest :: update[k]) == update;
      users := users[id := fields];
    }

    /** `update_profile` for the signed-in user `self`. */
    method UpdateProfile(self: int, update: Update) returns (r: Option<Refusal>)
      requires self in users
      modifies this
      ensures r == UniquenessRefusal(old(users), update, self)
      ensures r.Some? ==> users == old(users)
      ensures r.None? ==> users == old(users)[self := old(users)[self] + ProfileUpdate(update)]
    {
      r := UniquenessRefusal(users, update, self);
      if r.Some? {
        return;
      }
      Apply(self, ProfileUpdate(update));
    }

    /** `update_user` by the administrator `caller`. */
    method UpdateUser(caller: int, userId: int, update: Update, hash: string -> string) returns (r: Option<Refusal>)
      requires caller in users
      modifies this
      ensures r == UpdateUserRefusal(old(users), caller, userId, update)
      ensures r.Some? ==> users == old(users)
      ensures r.None? ==> users == old(users)[userId := old(users)[userId] + AdminUpdate(update, hash)]
    {
      r := UpdateUserRefusal(users, caller, userId, update);
      if r.Some? {
        return;
      }
      Apply(userId, AdminUpdate(update, hash));
    }

    /** `delete_user` by `caller`: refuses an unknown id and the caller's own account. */
    method DeleteUser(caller: int, userId: int) returns (r: Option<Refusal>)
      modifies this
      ensures userId !in old(users) ==> r == Some(Refusal(404, "User not found"))
      ensures userId in old(users) && userId == caller ==> r == Some(Refusal(400, "Cannot delete your own account"))
      ensures r.Some? ==> users == old(users)
      ensures r.None? ==> userId in old(users) && userId != caller && users == old(users) - {userId}
    {
      if userId !in users {
        return Some(Refusal(404, "User not found"));
      }
      if userId == caller {
        return Some(Refusal(400, "Cannot delete your own account"));
      }
      users := users - {userId};
      r := None;
    }
  }

  /** A profile update never changes the user's role, whatever the request carries. */
  lemma ProfileKeepsRole(fields: Fields, update: Update)
    ensures var after := fields + ProfileUpdate(update);
      ("role" in after <==> "role" in fields) && ("role" in fields ==> after["role"] == fields["role"])
  {
  }

  /** An administrator's update never stores a plain "password" field it did not already have,
      and a role changes only when the caller is SUPERADMIN. */
  lemma AdminUpdateGuards(users: map<int, Fields>, caller: int, userId: int, update: Update, hash: string -> string)
    requires caller in users
    requires UpdateUserRefusal(users, caller, userId, update).None?
    ensures var after := users[userId] + AdminUpdate(update, hash);
      && ("password" in after <==> "password" in users[userId])
      && ("password" in after ==> after["password"] == users[userId]["password"])
      && ("role" in update ==> CallerIsSuperAdmin(users, caller))
  {
  }

  /** A refused role change leaves everything unchanged. */
  lemma RoleChangeNeedsSuperAdmin(users: map<int, Fields>, caller: int, userId: int, update: Update)
    requires caller in users && userId in users
    requires "role" in update && CallerRole(users, caller) == Some(Admin)
    ensures UpdateUserRefusal(users, caller, userId, update) == Some(Refusal(403, "Only superadmin can change user roles"))
  {
  }
}
