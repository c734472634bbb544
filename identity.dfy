/** The three identity collections of backend/server.js: SuperAdmin
    ('super_admin'), Admin ('admin_details') and User ('users', the managers),
    with the user routes that create, update, migrate, delete, log in and
    reset passwords across them.

    Every collection has a unique index on a lower-cased, trimmed email, so
    emails are unique within a collection but the same email may sit in
    several collections. Ids come from one generator and are unique across
    all three. A write that would break the unique index fails as a server
    error (500) and changes nothing. */
module Identity {
  import opened Common
  import Reference

  datatype Collection = SuperAdminStore | AdminStore | UserStore

  /** The order in which login looks an email up. */
  const LOGIN_ORDER: seq<Collection> := [SuperAdminStore, AdminStore, UserStore]
  /** The order used by PUT and DELETE /api/users/:id and by forgot-password. */
  const LOOKUP_ORDER: seq<Collection> := [UserStore, AdminStore, SuperAdminStore]
  /** The `enum` of the User schema's role. */
  const USER_ROLES: seq<string> := ["super_admin", "admin", "manager"]

  /** A stored business unit or office: normally a string (a name, or the
      24-hex id of a reference document); older records may hold an object
      with a `name`. */
  datatype StoredRef = Text(text: string) | Named(name: string)

  datatype Identity = Identity(
    firstName: string,
    lastName: string,
    email: string,
    password: string,
    role: string,
    businessUnit: StoredRef,
    office: StoredRef)

  /** The email setters of all three schemas: trim, then lower-case. */
  function NormalizeEmail(s: string): (r: string)
    ensures |r| <= |s|
    ensures r == "" <==> AllSpace(s)
  {
    Lower(Trim(s))
  }

  lemma LowerKeepsSpace(c: char)
    ensures IsSpace(LowerChar(c)) <==> IsSpace(c)
  {
  }

  /** A normalised email is its own normal form, so a query with a stored
      email finds the record that holds it. */
  lemma {:induction false} NormalizeEmailIdempotent(s: string)
    ensures NormalizeEmail(NormalizeEmail(s)) == NormalizeEmail(s)
  {
    var t := Trim(s);
    var r := Lower(t);
    if r != "" {
      LowerKeepsSpace(t[0]);
      LowerKeepsSpace(t[|t| - 1]);
      assert Trim(r) == r;
    }
    assert Lower(r) == r;
  }

  // ---------------------------------------------------------------------------
  // Records as the schemas shape and validate them

  /** The `trim` setter on the name, role, unit and office fields: only the
      User schema declares it. */
  function Setter(c: Collection, s: string): string
  {
    if c == UserStore then Trim(s) else s
  }

  /** The record `new Model({...})` holds after its setters ran; an absent
      field is written as "". */
  function Build(c: Collection, firstName: string, lastName: string, email: string, password: string,
                 role: string, businessUnit: string, office: string): (r: Identity)
    ensures r.email == NormalizeEmail(email) && r.password == password
  {
    Identity(Setter(c, firstName), Setter(c, lastName), NormalizeEmail(email), password,
             Setter(c, role), Text(Setter(c, businessUnit)), Text(Setter(c, office)))
  }

  predicate RefGiven(v: StoredRef)
  {
    v.Text? && v.text != ""
  }

  /** What `save()` validates: the required fields are non-empty strings, and
      a User's role is one of its enum values. Admin and SuperAdmin have no
      role constraint. */
  predicate Admissible(c: Collection, r: Identity)
  {
    && r.firstName != "" && r.lastName != "" && r.email != "" && r.password != ""
    && RefGiven(r.businessUnit) && RefGiven(r.office)
    && (c == UserStore ==> r.role in USER_ROLES)
  }

  // ---------------------------------------------------------------------------
  // Lookups

  ghost predicate EmailsUnique(m: map<nat, Identity>)
  {
    forall i, j :: i in m && j in m && m[i].email == m[j].email ==> i == j
  }

  predicate HasEmail(m: map<nat, Identity>, e: string)
  {
    exists id :: id in m && m[id].email == e
  }

  /** Another record than `self` holds the email. */
  predicate EmailTakenByOther(m: map<nat, Identity>, self: nat, e: string)
  {
    exists id :: id in m && id != self && m[id].email == e
  }

  /** `Model.findOne({ email })` on a collection with unique emails. */
  function FindByEmail(m: map<nat, Identity>, e: string): (r: Option<nat>)
    requires EmailsUnique(m)
    ensures r.Some? <==> HasEmail(m, e)
    ensures r.Some? ==> r.value in m && m[r.value].email == e
  {
    if HasEmail(m, e) then
      var id :| id in m && m[id].email == e;
      Some(id)
    else None
  }

  function Select(c: Collection, sa: map<nat, Identity>, a: map<nat, Identity>, u: map<nat, Identity>): map<nat, Identity>
  {
    match c
    case SuperAdminStore => sa
    case AdminStore => a
    case UserStore => u
  }

  ghost predicate AllUnique(sa: map<nat, Identity>, a: map<nat, Identity>, u: map<nat, Identity>)
  {
    EmailsUnique(sa) && EmailsUnique(a) && EmailsUnique(u)
  }

  /** Adding a record whose email the map lacks keeps emails unique. */
  lemma InsertKeepsUnique(m: map<nat, Identity>, k: nat, rec: Identity)
    requires EmailsUnique(m) && k !in m && !HasEmail(m, rec.email)
    ensures EmailsUnique(m[k := rec])
  {
  }

  /** Replacing a record by one whose email no other record holds keeps
      emails unique. */
  lemma OverwriteKeepsUnique(m: map<nat, Identity>, k: nat, rec: Identity)
    requires EmailsUnique(m) && !EmailTakenByOther(m, k, rec.email)
    ensures EmailsUnique(m[k := rec])
  {
  }

  datatype Hit = Hit(c: Collection, id: nat)

  /** No collection among `order[..k]` holds the email. */
  ghost predicate NoneBefore(order: seq<Collection>, k: int, sa: map<nat, Identity>, a: map<nat, Identity>,
                             u: map<nat, Identity>, e: string)
    requires 0 <= k <= |order|
  {
    forall j :: 0 <= j < k ==> !HasEmail(Select(order[j], sa, a, u), e)
  }

  /** A probe chain `findOne({ email })` over the collections in `order`:
      the first collection holding the email, and the record there. */
  function Probe(order: seq<Collection>, sa: map<nat, Identity>, a: map<nat, Identity>, u: map<nat, Identity>,
                 e: string): (r: Option<Hit>)
    requires AllUnique(sa, a, u)
    ensures r.None? <==> NoneBefore(order, |order|, sa, a, u, e)
    ensures r.Some? ==> r.value.id in Select(r.value.c, sa, a, u) && Select(r.value.c, sa, a, u)[r.value.id].email == e
    ensures r.Some? ==> exists k :: 0 <= k < |order| && order[k] == r.value.c && NoneBefore(order, k, sa, a, u, e)
    decreases |order|
  {
    if order == [] then None
    else
      var here := FindByEmail(Select(order[0], sa, a, u), e);
      if here.Some? then
        assert NoneBefore(order, 0, sa, a, u, e);
        Some(Hit(order[0], here.value))
      else
        var r := Probe(order[1..], sa, a, u, e);
        assert r.Some? ==> exists k :: 0 <= k < |order| && order[k] == r.value.c && NoneBefore(order, k, sa, a, u, e) by {
          if r.Some? {
            var k :| 0 <= k < |order[1..]| && order[1..][k] == r.value.c && NoneBefore(order[1..], k, sa, a, u, e);
            assert NoneBefore(order, k + 1, sa, a, u, e) by {
              forall j | 0 <= j < k + 1 ensures !HasEmail(Select(order[j], sa, a, u), e) {
                if j > 0 { assert order[j] == order[1..][j - 1]; }
              }
            }
          }
        }
        assert r.None? <==> NoneBefore(order, |order|, sa, a, u, e) by {
          if NoneBefore(order[1..], |order| - 1, sa, a, u, e) {
            forall j | 0 <= j < |order| ensures !HasEmail(Select(order[j], sa, a, u), e) {
              if j > 0 { assert order[j] == order[1..][j - 1]; }
            }
          }
        }
        r
  }

  /** Login stops at a super admin holding the email: an admin or manager
      with the same email is never consulted, whatever their password. */
  lemma SuperAdminShadowsLogin(sa: map<nat, Identity>, a: map<nat, Identity>, u: map<nat, Identity>, e: string, id: nat)
    requires AllUnique(sa, a, u)
    requires id in sa && sa[id].email == e
    ensures Probe(LOGIN_ORDER, sa, a, u, e) == Some(Hit(SuperAdminStore, id))
  {
  }

  /** The password-reset chain stops at a manager holding the email. */
  lemma UserShadowsLookup(sa: map<nat, Identity>, a: map<nat, Identity>, u: map<nat, Identity>, e: string, id: nat)
    requires AllUnique(sa, a, u)
    requires id in u && u[id].email == e
    ensures Probe(LOOKUP_ORDER, sa, a, u, e) == Some(Hit(UserStore, id))
  {
  }

  /** When a super admin and a manager share an email, login and
      forgot-password pick different records. */
  lemma {:induction false} ProbeOrdersDisagree(sa: map<nat, Identity>, a: map<nat, Identity>, u: map<nat, Identity>,
                                               e: string, i: nat, j: nat)
    requires AllUnique(sa, a, u)
    requires i in sa && sa[i].email == e && j in u && u[j].email == e
    ensures Probe(LOGIN_ORDER, sa, a, u, e).value.c != Probe(LOOKUP_ORDER, sa, a, u, e).value.c
  {
    SuperAdminShadowsLogin(sa, a, u, e, i);
    UserShadowsLookup(sa, a, u, e, j);
  }

  /** `findById` probing User, then Admin, then SuperAdmin. */
  function Locate(sa: map<nat, Identity>, a: map<nat, Identity>, u: map<nat, Identity>, id: nat): (r: Option<Collection>)
    ensures r.Some? <==> id in u || id in a || id in sa
    ensures r.Some? ==> id in Select(r.value, sa, a, u)
    ensures r == Some(AdminStore) ==> id !in u
    ensures r == Some(SuperAdminStore) ==> id !in u && id !in a
  {
    if id in u then Some(UserStore)
    else if id in a then Some(AdminStore)
    else if id in sa then Some(SuperAdminStore)
    else None
  }

  // ---------------------------------------------------------------------------
  // Login result

  /** The login response body. */
  datatype Session = Session(id: nat, name: string, role: string, businessUnits: seq<StoredRef>, office: StoredRef)

  /** How login turns a stored unit or office into what it returns: an object
      with a non-empty name becomes that name; then a 24-hex text is replaced
      by the referenced document's name when the lookup finds one with a
      non-empty name, and is kept otherwise. */
  function ResolveRef(v: StoredRef, docs: map<nat, string>): (r: StoredRef)
    ensures v.Named? && v.name == "" ==> r == v
    ensures v.Text? && !Reference.IsObjectIdText(v.text) ==> r == v
    ensures v.Named? && v.name != "" && !Reference.IsObjectIdText(v.name) ==> r == Text(v.name)
    ensures var t := if v.Named? then v.name else v.text;
      (v.Text? || t != "") && Reference.IsObjectIdText(t) ==>
        var id := Reference.HexValue(t);
        r == if id in docs && docs[id] != "" then Text(docs[id]) else Text(t)
  {
    var w := if v.Named? && v.name != "" then Text(v.name) else v;
    if w.Text? && w.text != "" && Reference.IsObjectIdText(w.text) then
      match Reference.NameById(docs, w.text)
      case Some(name) => Text(name)
      case None => w
    else w
  }

  /** The session login returns for a matched record. */
  function SessionOf(id: nat, rec: Identity, units: map<nat, string>, offices: map<nat, string>): (s: Session)
    ensures s.id == id && s.role == rec.role && s.name == rec.firstName + " " + rec.lastName
    ensures |s.businessUnits| == 1 && s.businessUnits[0] == ResolveRef(rec.businessUnit, units)
    ensures s.office == ResolveRef(rec.office, offices)
  {
    Session(id, rec.firstName + " " + rec.lastName, rec.role, [ResolveRef(rec.businessUnit, units)],
            ResolveRef(rec.office, offices))
  }

  // ---------------------------------------------------------------------------
  // Request bodies

  /** POST /api/users; "" stands for an absent field. */
  datatype NewUser = NewUser(firstName: string, lastName: string, email: string, password: string,
                             role: string, businessUnit: string, office: string)

  predicate AnyMissing(b: NewUser)
  {
    b.firstName == "" || b.lastName == "" || b.email == "" || b.password == ""
    || b.businessUnit == "" || b.office == "" || b.role == ""
  }

  /** The collection a new user goes to (and whose emails are checked). */
  function CreateTarget(role: string): (c: Collection)
    ensures c == AdminStore <==> role == "admin"
    ensures c == SuperAdminStore <==> role == "super_admin"
  {
    if role == "admin" then AdminStore
    else if role == "super_admin" then SuperAdminStore
    else UserStore
  }

  function NewRecord(b: NewUser): Identity
  {
    Build(CreateTarget(b.role), b.firstName, b.lastName, b.email, b.password, b.role, b.businessUnit, b.office)
  }

  /** The fields of PUT /api/users/:id and PUT /api/super-admin/:id;
      `None` is an absent field. */
  datatype IdentityUpdate = IdentityUpdate(firstName: Option<string>, lastName: Option<string>,
                                           email: Option<string>, role: Option<string>,
                                           businessUnit: Option<string>, office: Option<string>)

  /** JavaScript truthiness of an optional text field. */
  predicate Given(v: Option<string>)
  {
    v.Some? && v.value != ""
  }

  /** The collection a role change migrates to; any other role is refused. */
  function MigrationTarget(role: string): (r: Option<Collection>)
    ensures r.Some? <==> role in USER_ROLES
    ensures r.Some? ==> r.value == CreateTarget(role)
  {
    if role == "admin" then Some(AdminStore)
    else if role == "super_admin" then Some(SuperAdminStore)
    else if role == "manager" then Some(UserStore)
    else None
  }

  /** The record a migration saves: the body's fields (absent ones empty)
      with the old password. */
  function Migrated(c: Collection, u: IdentityUpdate, password: string): (r: Identity)
    ensures r.password == password
  {
    Build(c, GetOr(u.firstName, ""), GetOr(u.lastName, ""), GetOr(u.email, ""), password,
          GetOr(u.role, ""), GetOr(u.businessUnit, ""), GetOr(u.office, ""))
  }

  /** `findByIdAndUpdate` without validators: the written fields go through
      the setters, the rest (and always the password) stay. */
  function ApplyIdentityUpdate(c: Collection, r: Identity, u: IdentityUpdate): (n: Identity)
    ensures n.password == r.password
    ensures u.role.None? ==> n.role == r.role
    ensures u.email.None? ==> n.email == r.email
    ensures u.email.Some? ==> n.email == NormalizeEmail(u.email.value)
    ensures u.businessUnit.None? ==> n.businessUnit == r.businessUnit
    ensures u.office.None? ==> n.office == r.office
  {
    Identity(
      if u.firstName.Some? then Setter(c, u.firstName.value) else r.firstName,
      if u.lastName.Some? then Setter(c, u.lastName.value) else r.lastName,
      if u.email.Some? then NormalizeEmail(u.email.value) else r.email,
      r.password,
      if u.role.Some? then Setter(c, u.role.value) else r.role,
      if u.businessUnit.Some? then Text(Setter(c, u.businessUnit.value)) else r.businessUnit,
      if u.office.Some? then Text(Setter(c, u.office.value)) else r.office)
  }

  /** The email check of the PUT routes: a given email that another record
      of `m` already uses. */
  predicate EmailClash(m: map<nat, Identity>, self: nat, email: Option<string>)
  {
    Given(email) && EmailTakenByOther(m, self, NormalizeEmail(email.value))
  }

  // ---------------------------------------------------------------------------
  // The store

  class IdentityStore {
    var superAdmins: map<nat, Identity>
    var admins: map<nat, Identity>
    var users: map<nat, Identity>
    var nextId: nat

    function Store(c: Collection): map<nat, Identity>
      reads this
    {
      Select(c, superAdmins, admins, users)
    }

    /** Emails are unique per collection, ids are fresh, and no id is in two
        collections. */
    ghost predicate Valid()
      reads this
    {
      && AllUnique(superAdmins, admins, users)
      && (forall id :: id in superAdmins ==> id < nextId && id !in admins && id !in users)
      && (forall id :: id in admins ==> id < nextId && id !in users)
      && (forall id :: id in users ==> id < nextId)
    }

    constructor ()
      ensures Valid()
      ensures forall c :: Store(c) == map[]
    {
      superAdmins, admins, users, nextId := map[], map[], map[], 0;
    }

    /** POST /api/login: the first record holding the email, in the order
        SuperAdmin, Admin, User, must carry exactly the given password;
        otherwise 401. The session holds one business unit. */
    method Login(email: string, password: string, units: map<nat, string>, offices: map<nat, string>)
      returns (status: int, session: Option<Session>)
      requires Valid()
      ensures var hit := Probe(LOGIN_ORDER, superAdmins, admins, users, NormalizeEmail(email));
        && (status == 200 <==> hit.Some? && Store(hit.value.c)[hit.value.id].password == password)
        && (status == 200 ==> session == Some(SessionOf(hit.value.id, Store(hit.value.c)[hit.value.id], units, offices)))
      ensures status != 200 ==> status == 401 && session.None?
    {
      var e := NormalizeEmail(email);
      var c := SuperAdminStore;
      var found := FindByEmail(superAdmins, e);
      if found.None? {
        c := AdminStore;
        found := FindByEmail(admins, e);
      }
      if found.None? {
        c := UserStore;
        found := FindByEmail(users, e);
      }
      if found.None? || Store(c)[found.value].password != password {
        return 401, None;
      }
      status := 200;
      session := Some(SessionOf(found.value, Store(c)[found.value], units, offices));
    }

    /** POST /api/users: 400 for an empty field, or for an email already in
        the role's own collection (no other collection is consulted); 500 when
        the shaped record fails validation; otherwise 201 and one new record
        in that collection alone. */
    method CreateUser(b: NewUser) returns (status: int)
      requires Valid()
      modifies this
      ensures Valid()
      ensures AnyMissing(b) ==> status == 400 && unchanged(this)
      ensures !AnyMissing(b) && HasEmail(old(Store(CreateTarget(b.role))), NormalizeEmail(b.email)) ==>
        status == 400 && unchanged(this)
      ensures status == 500 <==>
        !AnyMissing(b) && !HasEmail(old(Store(CreateTarget(b.role))), NormalizeEmail(b.email))
        && !Admissible(CreateTarget(b.role), NewRecord(b))
      ensures status == 500 ==> unchanged(this)
      ensures status == 201 <==>
        !AnyMissing(b) && !HasEmail(old(Store(CreateTarget(b.role))), NormalizeEmail(b.email))
        && Admissible(CreateTarget(b.role), NewRecord(b))
      ensures status == 201 ==>
        && old(nextId) !in old(Store(CreateTarget(b.role)))
        && Store(CreateTarget(b.role)) == old(Store(CreateTarget(b.role)))[old(nextId) := NewRecord(b)]
        && forall d :: d != CreateTarget(b.role) ==> Store(d) == old(Store(d))
    {
      if AnyMissing(b) {
        return 400;
      }
      var c := CreateTarget(b.role);
      var e := NormalizeEmail(b.email);
      if HasEmail(Store(c), e) {
        return 400;
      }
      var rec := NewRecord(b);
      if !Admissible(c, rec) {
        return 500;
      }
      Insert(c, rec);
      status := 201;
    }

    /** Adds a record under a fresh id to a collection that lacks its email. */
    method Insert(c: Collection, rec: Identity)
      requires Valid() && !HasEmail(Store(c), rec.email)
      modifies this
      ensures Valid() && nextId == old(nextId) + 1
      ensures old(nextId) !in old(Store(c)) && Store(c) == old(Store(c))[old(nextId) := rec]
      ensures forall d :: d != c ==> Store(d) == old(Store(d))
    {
      InsertKeepsUnique(Store(c), nextId, rec);
      match c {
        case SuperAdminStore => superAdmins := superAdmins[nextId := rec];
        case AdminStore => admins := admins[nextId := rec];
        case UserStore => users := users[nextId := rec];
      }
      nextId := nextId + 1;
    }

    /** Removes an id from every collection (it is in at most one). */
    method RemoveEverywhere(id: nat)
      requires Valid()
      modifies this
      ensures Valid() && nextId == old(nextId)
      ensures forall d :: Store(d) == old(Store(d)) - {id}
    {
      superAdmins, admins, users := superAdmins - {id}, admins - {id}, users - {id};
    }

    /** Overwrites one record, keeping the collection's emails unique. */
    method Overwrite(c: Collection, id: nat, rec: Identity)
      requires Valid() && id in Store(c) && !EmailTakenByOther(Store(c), id, rec.email)
      modifies this
      ensures Valid() && nextId == old(nextId)
      ensures Store(c) == old(Store(c))[id := rec]
      ensures forall d :: d != c ==> Store(d) == old(Store(d))
    {
      OverwriteKeepsUnique(Store(c), id, rec);
      match c {
        case SuperAdminStore => superAdmins := superAdmins[id := rec];
        case AdminStore => admins := admins[id := rec];
        case UserStore => users := users[id := rec];
      }
    }

    /** PUT /api/users/:id. In order: a given email used by another manager
        (only the User collection is checked) gives 400; an id in no
        collection gives 404. A given role different from the stored one
        migrates: the record is deleted first, then the new record (the body's
        fields, the old password, a fresh id) is saved in the role's
        collection; an unknown role gives 400, and a record that fails
        validation or clashes with an email there gives 500, both leaving the
        record deleted. Otherwise the written fields are updated in place;
        an email clash there gives 500 and no change. */
    method UpdateUser(id: nat, u: IdentityUpdate) returns (status: int, newId: Option<nat>)
      requires Valid()
      modifies this
      ensures Valid()
      ensures EmailClash(old(users), id, u.email) ==> status == 400 && unchanged(this)
      ensures !EmailClash(old(users), id, u.email) && old(Locate(superAdmins, admins, users, id)).None? ==>
        status == 404 && unchanged(this)
      ensures
        var loc := old(Locate(superAdmins, admins, users, id));
        !EmailClash(old(users), id, u.email) && loc.Some? ==>
        var rec := old(Store(loc.value))[id];
        if Given(u.role) && u.role.value != rec.role then
          // the migration
          match MigrationTarget(u.role.value)
          case None =>
            status == 400 && nextId == old(nextId) && forall d :: Store(d) == old(Store(d)) - {id}
          case Some(t) =>
            var n := Migrated(t, u, rec.password);
            if !Admissible(t, n) || HasEmail(old(Store(t)) - {id}, n.email) then
              status == 500 && nextId == old(nextId) && forall d :: Store(d) == old(Store(d)) - {id}
            else
              && status == 200 && newId == Some(old(nextId)) && old(nextId) !in old(Store(t))
              && Store(t) == (old(Store(t)) - {id})[old(nextId) := n]
              && forall d :: d != t ==> Store(d) == old(Store(d)) - {id}
        else
          var n := ApplyIdentityUpdate(loc.value, rec, u.(role := None));
          if EmailTakenByOther(old(Store(loc.value)), id, n.email) then
            status == 500 && unchanged(this)
          else
            && status == 200 && newId == Some(id) && nextId == old(nextId)
            && Store(loc.value) == old(Store(loc.value))[id := n]
            && forall d :: d != loc.value ==> Store(d) == old(Store(d))
    {
      newId := None;
      if EmailClash(users, id, u.email) {
        return 400, None;
      }
      var c := UserStore;
      var found := id in users;
      if !found {
        c := AdminStore;
        found := id in admins;
      }
      if !found {
        c := SuperAdminStore;
        found := id in superAdmins;
      }
      if !found {
        return 404, None;
      }
      var rec := Store(c)[id];
      if Given(u.role) && u.role.value != rec.role {
        RemoveEverywhere(id);
        var target := MigrationTarget(u.role.value);
        if target.None? {
          return 400, None;
        }
        var t := target.value;
        var n := Migrated(t, u, rec.password);
        if !Admissible(t, n) || HasEmail(Store(t), n.email) {
          return 500, None;
        }
        newId := Some(nextId);
        Insert(t, n);
        status := 200;
      } else {
        var n := ApplyIdentityUpdate(c, rec, u.(role := None));
        if EmailTakenByOther(Store(c), id, n.email) {
          return 500, None;
        }
        Overwrite(c, id, n);
        status, newId := 200, Some(id);
      }
    }

    /** PUT /api/super-admin/:id: a given email used by another super admin
        gives 400, an unknown id 404 (both without change); otherwise the
        written fields, role included, are updated in place, with 500 and no
        change on an email clash. */
    method UpdateSuperAdmin(id: nat, u: IdentityUpdate) returns (status: int)
      requires Valid()
      modifies this
      ensures Valid() && nextId == old(nextId)
      ensures EmailClash(old(superAdmins), id, u.email) ==> status == 400 && unchanged(this)
      ensures !EmailClash(old(superAdmins), id, u.email) && id !in old(superAdmins) ==> status == 404 && unchanged(this)
      ensures status == 500 ==> unchanged(this)
      ensures status == 200 <==>
        && !EmailClash(old(superAdmins), id, u.email) && id in old(superAdmins)
        && !EmailTakenByOther(old(superAdmins), id, ApplyIdentityUpdate(SuperAdminStore, old(superAdmins)[id], u).email)
      ensures status == 200 ==>
        && superAdmins == old(superAdmins)[id := ApplyIdentityUpdate(SuperAdminStore, old(superAdmins)[id], u)]
        && admins == old(admins) && users == old(users)
    {
      if EmailClash(superAdmins, id, u.email) {
        return 400;
      }
      if id !in superAdmins {
        return 404;
      }
      var n := ApplyIdentityUpdate(SuperAdminStore, superAdmins[id], u);
      if EmailTakenByOther(superAdmins, id, n.email) {
        return 500;
      }
      Overwrite(SuperAdminStore, id, n);
      assert Store(AdminStore) == old(admins) && Store(UserStore) == old(users);
      status := 200;
    }

    /** DELETE /api/users/:id: 404 and no change for an unknown id; otherwise
        the record is removed from the one collection holding it. */
    method DeleteUser(id: nat) returns (status: int)
      requires Valid()
      modifies this
      ensures Valid() && nextId == old(nextId)
      ensures old(Locate(superAdmins, admins, users, id)).None? ==> status == 404 && unchanged(this)
      ensures old(Locate(superAdmins, admins, users, id)).Some? ==>
        status == 200 && forall d :: id !in Store(d) && Store(d) == old(Store(d)) - {id}
    {
      var c := UserStore;
      var found := id in users;
      if !found {
        c := AdminStore;
        found := id in admins;
      }
      if !found {
        c := SuperAdminStore;
        found := id in superAdmins;
      }
      if !found {
        return 404;
      }
      RemoveEverywhere(id);
      status := 200;
    }

    /** POST /api/forgot-password: 400 for an empty email or password; the
        first record holding the email, in the order User, Admin, SuperAdmin,
        gets the new password, and only it; 404 when none does. Saving runs
        the schema's validation over the whole record: 500 and no change when
        it fails. */
    method ForgotPassword(email: string, newPassword: string) returns (status: int)
      requires Valid()
      modifies this
      ensures Valid() && nextId == old(nextId)
      ensures email == "" || newPassword == "" ==> status == 400 && unchanged(this)
      ensures
        var hit := old(Probe(LOOKUP_ORDER, superAdmins, admins, users, NormalizeEmail(email)));
        email != "" && newPassword != "" ==>
        if hit.None? then status == 404 && unchanged(this)
        else
          var rec := old(Store(hit.value.c))[hit.value.id].(password := newPassword);
          if !Admissible(hit.value.c, rec) then status == 500 && unchanged(this)
          else
            && status == 200
            && Store(hit.value.c) == old(Store(hit.value.c))[hit.value.id := rec]
            && forall d :: d != hit.value.c ==> Store(d) == old(Store(d))
    {
      if email == "" || newPassword == "" {
        return 400;
      }
      var e := NormalizeEmail(email);
      var c := UserStore;
      var found := FindByEmail(users, e);
      if found.None? {
        c := AdminStore;
        found := FindByEmail(admins, e);
      }
      if found.None? {
        c := SuperAdminStore;
        found := FindByEmail(superAdmins, e);
      }
      if found.None? {
        return 404;
      }
      var rec := Store(c)[found.value].(password := newPassword);
      if !Admissible(c, rec) {
        return 500;
      }
      assert !EmailTakenByOther(Store(c), found.value, rec.email);
      Overwrite(c, found.value, rec);
      status := 200;
    }
  }
}
