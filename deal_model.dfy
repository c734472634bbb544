/** The deal record of backend/models/Deals.js: the fields the access rules and
    the kanban board use, the schema defaults, the `trim` setters, and the two
    Business Brokers hooks (pre-save and pre-findOneAndUpdate). */
module DealModel {
  import opened Common

  const BUSINESS_BROKERS: string := "Business Brokers"
  const BUSINESS_NAME_REQUIRED: string := "Business name is required for Business Brokers deals"

  /** The `member` enumeration of the Global Properties unit. */
  datatype Member = No | Yes | Refunded

  datatype Deal = Deal(
    name: string,
    stage: string,
    owner: string,
    businessUnit: string,
    office: string,
    businessName: Option<string>,
    member: Member,
    probability: int)

  /** An update document: a field is `None` when the update does not write it. */
  datatype DealUpdate = DealUpdate(
    name: Option<string>,
    stage: Option<string>,
    owner: Option<string>,
    businessUnit: Option<string>,
    office: Option<string>,
    businessName: Option<string>)

  datatype HookResult = Pass | Reject(message: string)

  /** Every string field of a stored deal has been through the `trim` setter. */
  predicate Trimmed(d: Deal)
  {
    && Trim(d.name) == d.name && Trim(d.stage) == d.stage && Trim(d.owner) == d.owner
    && Trim(d.businessUnit) == d.businessUnit && Trim(d.office) == d.office
    && (d.businessName.Some? ==> Trim(d.businessName.value) == d.businessName.value)
  }

  /** `new Deal({ name, stage, owner, businessUnit, office })`: the five values
      go through the `trim` setter, `member` takes its default 'No',
      `probability` its default 0, and `businessName` is absent. */
  function NewDeal(name: string, stage: string, owner: string, businessUnit: string, office: string): (d: Deal)
    ensures d.member == No && d.probability == 0 && d.businessName == None
    ensures Trimmed(d)
  {
    TrimIdempotent(name);
    TrimIdempotent(stage);
    TrimIdempotent(owner);
    TrimIdempotent(businessUnit);
    TrimIdempotent(office);
    Deal(Trim(name), Trim(stage), Trim(owner), Trim(businessUnit), Trim(office), None, No, 0)
  }

  /** The schema's `required: true` on name, stage, owner, businessUnit and
      office, checked by `save()` on the trimmed values. */
  predicate HasRequiredFields(d: Deal)
  {
    d.name != "" && d.stage != "" && d.owner != "" && d.businessUnit != "" && d.office != ""
  }

  /** `dealSchema.pre('save')`: a Business Brokers deal needs a business name
      that is not blank. */
  function SaveHook(d: Deal): (r: HookResult)
    ensures r.Reject? <==>
      d.businessUnit == BUSINESS_BROKERS && (d.businessName.None? || AllSpace(d.businessName.value))
    ensures r.Reject? ==> r.message == BUSINESS_NAME_REQUIRED
  {
    if d.businessUnit == BUSINESS_BROKERS then
      if d.businessName.None? || d.businessName.value == "" || Trim(d.businessName.value) == "" then
        Reject(BUSINESS_NAME_REQUIRED)
      else Pass
    else Pass
  }

  /** A deal outside the Business Brokers unit always passes the save hook. */
  lemma OtherUnitsAlwaysSave(d: Deal)
    requires d.businessUnit != BUSINESS_BROKERS
    ensures SaveHook(d) == Pass
  {
  }

  /** `dealSchema.pre('findOneAndUpdate')` on the raw update document.
      `byId` says whether the query's conditions carry an `_id`. */
  function UpdateHook(u: DealUpdate, byId: bool): (r: HookResult)
    // the second disjunct of the source's test implies the first, so only
    // the update's own businessUnit decides whether the check runs
    ensures r.Reject? <==>
      u.businessUnit == Some(BUSINESS_BROKERS) && (u.businessName.None? || AllSpace(u.businessName.value))
    ensures r.Reject? ==> r.message == BUSINESS_NAME_REQUIRED
  {
    if u.businessUnit == Some(BUSINESS_BROKERS) || (byId && u.businessUnit == Some(BUSINESS_BROKERS)) then
      if u.businessName.None? || u.businessName.value == "" || Trim(u.businessName.value) == "" then
        Reject(BUSINESS_NAME_REQUIRED)
      else Pass
    else Pass
  }

  /** Whether the query selects by `_id` never changes the update hook's verdict. */
  lemma UpdateHookIgnoresConditions(u: DealUpdate)
    ensures UpdateHook(u, true) == UpdateHook(u, false)
  {
  }

  /** An update that writes the stage and nothing else, as a kanban move does. */
  function StageOnly(stage: string): DealUpdate
  {
    DealUpdate(None, Some(stage), None, None, None, None)
  }

  /** `findByIdAndUpdate` with the update document: written fields go through
      the `trim` setter; no validator runs on an update. */
  function ApplyUpdate(d: Deal, u: DealUpdate): (r: Deal)
    ensures Trimmed(d) ==> Trimmed(r)
    ensures r.member == d.member && r.probability == d.probability
    ensures u.name.None? ==> r.name == d.name
    ensures u.stage.None? ==> r.stage == d.stage
    ensures u.owner.None? ==> r.owner == d.owner
    ensures u.businessUnit.None? ==> r.businessUnit == d.businessUnit
    ensures u.office.None? ==> r.office == d.office
    ensures u.businessName.None? ==> r.businessName == d.businessName
  {
    Deal(
      Written(u.name, d.name),
      Written(u.stage, d.stage),
      Written(u.owner, d.owner),
      Written(u.businessUnit, d.businessUnit),
      Written(u.office, d.office),
      if u.businessName.Some? then Some(Written(u.businessName, "")) else d.businessName,
      d.member,
      d.probability)
  }

  /** The value a field holds after an update that may write `v`. */
  function Written(v: Option<string>, current: string): (r: string)
    ensures Trim(current) == current ==> Trim(r) == r
  {
    if v.Some? then TrimIdempotent(v.value); Trim(v.value) else current
  }

  /** A stage-only update is never checked by the update hook and changes the
      stage alone. */
  lemma StageOnlyUpdate(d: Deal, stage: string, byId: bool)
    ensures UpdateHook(StageOnly(stage), byId) == Pass
    ensures ApplyUpdate(d, StageOnly(stage)) == d.(stage := Trim(stage))
  {
  }
}
