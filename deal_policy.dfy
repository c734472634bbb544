/** The deal access-control policy and the deal collection of backend/server.js
    (checkDealPermissions and GET/POST/PUT/DELETE /api/deals). The caller's
    role, business units and office arrive with the request; how they get
    there is outside this model. Only the role 'manager' is restricted: every
    other role string, including 'user', is served like an admin. */
module DealPolicy {
  import opened Common
  import opened DealModel

  const MANAGER: string := "manager"

  /** The caller context attached to a request (`req.user`). */
  datatype Caller = Caller(role: string, businessUnits: seq<string>, office: string)

  /** `req.dealPermissions` as set by checkDealPermissions. */
  datatype DealScope = DealScope(canViewAll: bool, businessUnits: seq<string>, office: string)

  /** checkDealPermissions: super_admin and admin pass with no scope; a manager
      gets a scope holding their units and office that no handler reads; any
      other role passes with no scope as well. */
  function DealPermissions(c: Caller): (p: Option<DealScope>)
    ensures p.Some? <==> c.role == MANAGER
    ensures p.Some? ==> p.value == DealScope(false, c.businessUnits, c.office)
  {
    if c.role == "super_admin" || c.role == "admin" then None
    else if c.role == MANAGER then Some(DealScope(false, c.businessUnits, c.office))
    else None
  }

  /** What checkDealPermissions lets through to a deal handler: the scope it
      attached, or the 500 answer of its `catch`. */
  datatype Gate = Next(scope: Option<DealScope>) | Fail(status: nat, error: string)

  const PERMISSION_ERROR: string := "Error checking permissions"

  /** `req.user` as the server leaves it: no middleware or handler sets it. */
  const REQUEST_USER: Option<Caller> := None

  /** checkDealPermissions as written: reading `req.user.role` throws when
      there is no caller, and the `catch` answers 500; with a caller it is
      DealPermissions. */
  function CheckDealPermissions(user: Option<Caller>): (g: Gate)
    ensures g.Fail? <==> user.None?
    ensures g.Fail? ==> g.status == 500 && g.error == PERMISSION_ERROR
    ensures g.Next? ==> (g.scope.Some? <==> user.value.role == MANAGER)
  {
    match user
    case None => Fail(500, PERMISSION_ERROR)
    case Some(c) => Next(DealPermissions(c))
  }

  /** As the server is written, every request to a deal route is answered 500
      before its handler runs. */
  lemma EveryDealRequestFails()
    ensures CheckDealPermissions(REQUEST_USER) == Fail(500, PERMISSION_ERROR)
  {
  }

  // ---------------------------------------------------------------------------
  // Reading: GET /api/deals

  /** The query-string parameters; "" stands for an absent parameter. */
  datatype ListParams = ListParams(businessUnit: string, businessUnits: string, office: string)

  /** The store query the handler builds. */
  datatype UnitFilter = AnyUnit | UnitIn(units: seq<string>) | UnitIs(unit: string)
  datatype DealQuery = DealQuery(unit: UnitFilter, office: Option<string>)

  /** Whether a stored deal satisfies a query. */
  predicate Matches(q: DealQuery, d: Deal)
  {
    && (match q.unit
        case AnyUnit => true
        case UnitIn(us) => d.businessUnit in us
        case UnitIs(u) => d.businessUnit == u)
    && (q.office.Some? ==> d.office == q.office.value)
  }

  /** The query casts each value through the field's `trim` setter. */
  function TrimAll(xs: seq<string>): (r: seq<string>)
    ensures |r| == |xs| && forall i :: 0 <= i < |xs| ==> r[i] == Trim(xs[i])
  {
    seq(|xs|, i requires 0 <= i < |xs| => Trim(xs[i]))
  }

  /** Which units a caller's listing may show: a manager is held to their own
      units whatever the parameters say; for others the comma-separated
      `businessUnits` wins over `businessUnit`, and with neither every unit. */
  ghost predicate UnitVisible(c: Caller, p: ListParams, d: Deal)
  {
    if c.role == MANAGER then exists i :: 0 <= i < |c.businessUnits| && d.businessUnit == Trim(c.businessUnits[i])
    else if p.businessUnits != "" then
      var parts := Split(p.businessUnits, ',');
      exists i :: 0 <= i < |parts| && d.businessUnit == Trim(parts[i])
    else if p.businessUnit != "" then d.businessUnit == Trim(p.businessUnit)
    else true
  }

  /** A deal appears in a listing when its unit is visible and, if an office
      parameter is given, it sits in that (trimmed) office. */
  ghost predicate Visible(c: Caller, p: ListParams, d: Deal)
  {
    UnitVisible(c, p, d) && (p.office != "" ==> d.office == Trim(p.office))
  }

  /** Builds the query field by field, as the handler does. */
  method BuildQuery(c: Caller, p: ListParams) returns (q: DealQuery)
    ensures forall d :: Matches(q, d) <==> Visible(c, p, d)
  {
    q := DealQuery(AnyUnit, None);
    if c.role == MANAGER {
      q := q.(unit := UnitIn(TrimAll(c.businessUnits)));
    } else if p.businessUnits != "" {
      q := q.(unit := UnitIn(TrimAll(Split(p.businessUnits, ','))));
    } else if p.businessUnit != "" {
      q := q.(unit := UnitIs(Trim(p.businessUnit)));
    }
    if p.office != "" {
      q := q.(office := Some(Trim(p.office)));
    }
  }

  /** A manager never sees a deal outside their units, whatever is asked;
      for units without surrounding blanks this is plain membership. */
  lemma ManagerListingNarrowed(c: Caller, p: ListParams, d: Deal)
    requires c.role == MANAGER
    requires forall i :: 0 <= i < |c.businessUnits| ==> Trim(c.businessUnits[i]) == c.businessUnits[i]
    ensures Visible(c, p, d) ==> d.businessUnit in c.businessUnits
    ensures Visible(c, p, d) <==>
      d.businessUnit in c.businessUnits && (p.office != "" ==> d.office == Trim(p.office))
  {
    if d.businessUnit in c.businessUnits {
      var i :| 0 <= i < |c.businessUnits| && c.businessUnits[i] == d.businessUnit;
      assert d.businessUnit == Trim(c.businessUnits[i]);
    }
  }

  /** With no parameters, a caller other than a manager sees every deal. */
  lemma UnrestrictedListing(c: Caller, d: Deal)
    requires c.role != MANAGER
    ensures Visible(c, ListParams("", "", ""), d)
  {
  }

  /** An office parameter narrows the listing for every role. */
  lemma OfficeNarrows(c: Caller, p: ListParams, d: Deal)
    requires p.office != ""
    ensures Visible(c, p, d) ==> d.office == Trim(p.office)
    ensures Visible(c, p, d) <==> Visible(c, p.(office := ""), d) && d.office == Trim(p.office)
  {
  }

  /** The plural parameter wins over the singular one for non-managers. */
  lemma PluralWins(c: Caller, p: ListParams, d: Deal)
    requires c.role != MANAGER && p.businessUnits != ""
    ensures Visible(c, p, d) == Visible(c, p.(businessUnit := ""), d)
  {
  }

  // ---------------------------------------------------------------------------
  // Decisions for POST, PUT and DELETE

  datatype Verdict = Allow | Deny(status: int, message: string)

  const MISSING_FIELDS: string := "Missing required fields"
  const CREATE_UNIT_DENIED: string := "You can only create deals for your business unit"
  const CREATE_OFFICE_DENIED: string := "You can only create deals for your office location"
  const UPDATE_OFFICE_DENIED: string := "You can only update deals from your office location"
  const UNIT_CHANGE_DENIED: string := "You cannot change the business unit of a deal"
  const OFFICE_CHANGE_DENIED: string := "You cannot change the office of a deal"
  const DELETE_OFFICE_DENIED: string := "You can only delete deals from your office location"

  /** The five fields POST /api/deals reads; "" stands for an absent field. */
  datatype DealBody = DealBody(name: string, stage: string, owner: string, businessUnit: string, office: string)

  predicate MissingField(b: DealBody)
  {
    b.name == "" || b.stage == "" || b.owner == "" || b.businessUnit == "" || b.office == ""
  }

  /** The checks of POST /api/deals before the deal is built: missing fields
      first (400, for every role), then for a manager the unit (403) and
      then the office (403). */
  function CreateCheck(c: Caller, b: DealBody): (v: Verdict)
    ensures v.Deny? ==> v.status == 400 || v.status == 403
    ensures v == Deny(400, MISSING_FIELDS) <==> MissingField(b)
    ensures v.Allow? <==>
      !MissingField(b) && (c.role == MANAGER ==> b.businessUnit in c.businessUnits && b.office == c.office)
    ensures v == Deny(403, CREATE_UNIT_DENIED) <==>
      !MissingField(b) && c.role == MANAGER && b.businessUnit !in c.businessUnits
    ensures v == Deny(403, CREATE_OFFICE_DENIED) <==>
      !MissingField(b) && c.role == MANAGER && b.businessUnit in c.businessUnits && b.office != c.office
  {
    if MissingField(b) then Deny(400, MISSING_FIELDS)
    else if c.role == MANAGER && b.businessUnit !in c.businessUnits then Deny(403, CREATE_UNIT_DENIED)
    else if c.role == MANAGER && b.office != c.office then Deny(403, CREATE_OFFICE_DENIED)
    else Allow
  }

  /** A JavaScript truthiness test on an optional text field. */
  predicate Given(v: Option<string>)
  {
    v.Some? && v.value != ""
  }

  /** The role checks of PUT /api/deals/:id against the stored deal: a manager
      may only touch deals of their own office, and may not give a non-empty
      businessUnit or office that differs from the stored one. */
  function UpdateCheck(c: Caller, stored: Deal, u: DealUpdate): (v: Verdict)
    ensures c.role != MANAGER ==> v.Allow?
    ensures v.Allow? <==> (c.role != MANAGER || (
      && stored.office == c.office
      && (Given(u.businessUnit) ==> u.businessUnit.value == stored.businessUnit)
      && (Given(u.office) ==> u.office.value == stored.office)))
    ensures v.Deny? ==> v.status == 403
    ensures c.role == MANAGER && stored.office != c.office ==> v == Deny(403, UPDATE_OFFICE_DENIED)
  {
    if c.role == MANAGER then
      if stored.office != c.office then Deny(403, UPDATE_OFFICE_DENIED)
      else if Given(u.businessUnit) && u.businessUnit.value != stored.businessUnit then Deny(403, UNIT_CHANGE_DENIED)
      else if Given(u.office) && u.office.value != stored.office then Deny(403, OFFICE_CHANGE_DENIED)
      else Allow
    else Allow
  }

  /** The role check of DELETE /api/deals/:id. */
  function DeleteCheck(c: Caller, stored: Deal): (v: Verdict)
    ensures v.Allow? <==> c.role != MANAGER || stored.office == c.office
    ensures v.Deny? ==> v == Deny(403, DELETE_OFFICE_DENIED)
  {
    if c.role == MANAGER && stored.office != c.office then Deny(403, DELETE_OFFICE_DENIED) else Allow
  }

  /** The update document PUT builds: the five fields of the body, nothing more. */
  function ServerUpdate(body: DealUpdate): (u: DealUpdate)
    ensures u.businessName.None?
  {
    body.(businessName := None)
  }

  /** The deal POST builds from the body. */
  function BuiltDeal(b: DealBody): Deal
  {
    NewDeal(b.name, b.stage, b.owner, b.businessUnit, b.office)
  }

  /** Through the API a Business Brokers deal can never be created: POST builds
      the deal without a business name, so the save hook rejects it. */
  lemma BusinessBrokersNeverCreated(b: DealBody)
    requires Trim(b.businessUnit) == BUSINESS_BROKERS
    ensures SaveHook(BuiltDeal(b)).Reject?
  {
  }

  /** Likewise any PUT whose body names the Business Brokers unit fails the
      update hook, whatever business name the body carries. */
  lemma BusinessBrokersNeverUpdated(body: DealUpdate, byId: bool)
    requires body.businessUnit == Some(BUSINESS_BROKERS)
    ensures UpdateHook(ServerUpdate(body), byId).Reject?
  {
  }

  /** A manager's allowed update keeps the deal in its unit and office, except
      that an empty value (falsy, so unchecked) blanks the field. */
  lemma ManagerUpdateKeepsPlace(c: Caller, stored: Deal, body: DealUpdate)
    requires Trimmed(stored)
    requires c.role == MANAGER && UpdateCheck(c, stored, ServerUpdate(body)).Allow?
    ensures var r := ApplyUpdate(stored, ServerUpdate(body));
      && (r.businessUnit == stored.businessUnit || r.businessUnit == "")
      && (r.office == c.office || r.office == "")
  {
    var u := ServerUpdate(body);
    if u.businessUnit.Some? && u.businessUnit.value == "" {
      assert Trim("") == "";
    }
    if u.office.Some? && u.office.value == "" {
      assert Trim("") == "";
    }
  }

  // ---------------------------------------------------------------------------
  // The deal collection

  class DealStore {
    var deals: map<nat, Deal>
    var nextId: nat

    /** Ids are fresh and every stored string has been trimmed. */
    ghost predicate Valid()
      reads this
    {
      forall id :: id in deals ==> id < nextId && Trimmed(deals[id])
    }

    constructor ()
      ensures Valid() && deals == map[]
    {
      deals, nextId := map[], 0;
    }

    /** GET /api/deals: exactly the stored deals the caller may see. */
    method List(c: Caller, p: ListParams) returns (result: map<nat, Deal>)
      ensures forall id :: id in result <==> id in deals && Visible(c, p, deals[id])
      ensures forall id :: id in result ==> result[id] == deals[id]
    {
      var q := BuildQuery(c, p);
      result := map id | id in deals && Matches(q, deals[id]) :: deals[id];
    }

    /** POST /api/deals: a denial (400 or 403) stores nothing; a deal that fails
        the schema's required fields or the save hook gives 500 and stores
        nothing; otherwise exactly one new deal is stored under a fresh id. */
    method Create(c: Caller, b: DealBody) returns (status: int, id: Option<nat>)
      requires Valid()
      modifies this
      ensures Valid()
      ensures CreateCheck(c, b).Deny? ==> status == CreateCheck(c, b).status && id == None && unchanged(this)
      ensures CreateCheck(c, b).Allow? && (!HasRequiredFields(BuiltDeal(b)) || SaveHook(BuiltDeal(b)).Reject?) ==>
        status == 500 && id == None && unchanged(this)
      ensures status == 201 <==>
        CreateCheck(c, b).Allow? && HasRequiredFields(BuiltDeal(b)) && SaveHook(BuiltDeal(b)).Pass?
      ensures status == 201 ==>
        id == Some(old(nextId)) && old(nextId) !in old(deals) && deals == old(deals)[old(nextId) := BuiltDeal(b)]
    {
      var v := CreateCheck(c, b);
      if v.Deny? {
        return v.status, None;
      }
      var d := BuiltDeal(b);
      if !HasRequiredFields(d) || SaveHook(d).Reject? {
        return 500, None;
      }
      id := Some(nextId);
      deals := deals[nextId := d];
      nextId := nextId + 1;
      status := 201;
    }

    /** PUT /api/deals/:id: 404 for a missing deal, 403 for a denied manager,
        500 when the update hook rejects; in each case nothing changes.
        Otherwise the written fields of the five-field update are stored. */
    method Update(c: Caller, id: nat, body: DealUpdate) returns (status: int)
      requires Valid()
      modifies this
      ensures Valid() && nextId == old(nextId)
      ensures id !in old(deals) ==> status == 404 && unchanged(this)
      ensures id in old(deals) && UpdateCheck(c, old(deals[id]), ServerUpdate(body)).Deny? ==>
        status == 403 && unchanged(this)
      ensures status == 200 <==>
        id in old(deals) && UpdateCheck(c, old(deals[id]), ServerUpdate(body)).Allow?
        && UpdateHook(ServerUpdate(body), true).Pass?
      ensures status == 200 ==> deals == old(deals)[id := ApplyUpdate(old(deals[id]), ServerUpdate(body))]
      ensures status != 200 ==> deals == old(deals)
    {
      if id !in deals {
        return 404;
      }
      var u := ServerUpdate(body);
      var v := UpdateCheck(c, deals[id], u);
      if v.Deny? {
        return v.status;
      }
      if UpdateHook(u, true).Reject? {
        return 500;
      }
      deals := deals[id := ApplyUpdate(deals[id], u)];
      status := 200;
    }

    /** DELETE /api/deals/:id: 404 for a missing deal, 403 for a manager of
        another office, both without change; otherwise the deal goes. */
    method Delete(c: Caller, id: nat) returns (status: int)
      requires Valid()
      modifies this
      ensures Valid() && nextId == old(nextId)
      ensures id !in old(deals) ==> status == 404 && unchanged(this)
      ensures id in old(deals) && DeleteCheck(c, old(deals[id])).Deny? ==> status == 403 && unchanged(this)
      ensures status == 200 <==> id in old(deals) && DeleteCheck(c, old(deals[id])).Allow?
      ensures status == 200 ==> deals == old(deals) - {id}
    {
      if id !in deals {
        return 404;
      }
      var v := DeleteCheck(c, deals[id]);
      if v.Deny? {
        return v.status;
      }
      deals := deals - {id};
      status := 200;
    }
  }
}
