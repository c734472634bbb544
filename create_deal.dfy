/** The new-deal form of frontend/src/components/CreateDeal.js: its own copy
    of the pipeline table, the initial form, the stage reset when the unit
    changes, the defaults filled in once units and offices are fetched, and
    the submit validation and payload. The fetches and the POST are left
    out; what they return enters as parameters. */
module CreateDeal {
  import opened Common
  import opened AuthContext
  import Kanban
  import DealModel
  import DealPolicy

  /** The form's copy of the stage table. */
  const PIPELINES: map<string, seq<string>> := map[
    "Global Properties" := [
      "Enquiry", "Email Sent", "Text Sent", "Nurture", "Initial Consultation",
      "Membership - Paid", "Strategy Session", "Property Presentation",
      "Expression of Interest", "Closed Won", "Membership - Refund Request",
      "DNQ", "Membership - Refunded", "Closed Lost"],
    "Advocacy" := [
      "Enquiry", "Qualification", "Initial Consultation", "Strategy Session", "Research & Analysis",
      "Property Presentation", "Unconditional", "Settled & invoice paid", "Closed Won", "Nurture",
      "Closed Lost", "DNQ", "FLUP", "CLOSED. Do Not Contact"],
    "Finance" := [
      "Enquiry", "Qualification", "Awaiting Documents", "Assessing servicability",
      "Serviceability provided to client", "Loan application processing", "Pre-Approval",
      "Contract signed", "Unconditional loan", "Settled", "Nurture", "DNQ", "Closed Lost", "FLUP",
      "CLOSED. Do Not Contact"],
    "Business Broker" := [
      "Enquiry", "Initial Consultation", "Proposal sent", "Backlog for FLUP", "Engagement Signed",
      "Ad launch", "Under offer", "Settled, Invoice paid", "Nurture", "DNQ", "Closed Lost",
      "CLOSED. Do Not Contact"]
  ]

  /** The form and the board use the same table, so its pipelines are well
      formed too and it has no 'Business Brokers' key. */
  lemma {:induction false} SameTableAsBoard()
    ensures PIPELINES == Kanban.PIPELINES
    ensures forall u :: u in PIPELINES ==> Kanban.WellFormedPipeline(PIPELINES[u])
    ensures DealModel.BUSINESS_BROKERS !in PIPELINES
  {
    Kanban.PipelinesWellFormed();
  }

  /** The form state: field name to text; a field the form lacks reads as "". */
  type Form = map<string, string>

  function Get(form: Form, field: string): string
  {
    if field in form then form[field] else ""
  }

  /** The form state on mount; the unit comes from the `businessUnit` query
      parameter, an absent one reading as "". The numeric 0 of
      `probability` is kept as the text "0". */
  function InitialForm(queryUnit: string): (f: Form)
    ensures Get(f, "businessUnit") == queryUnit
    ensures Get(f, "stage") == "" && Get(f, "name") == "" && Get(f, "office") == ""
    ensures Get(f, "probability") == "0"
  {
    map[
      "leadStatus" := "Not contacted", "name" := "", "accountName" := "", "email" := "", "phone" := "",
      "type" := "Type 1", "nextStep" := "", "leadSource" := "Source 1", "contactName" := "",
      "whereBased" := "", "whereToBuy" := "", "listingAgent" := "Agent A", "sellingAgent" := "Agent A",
      "agreement" := "Agreement 1", "businessName" := "", "typeOfBusiness" := "",
      "sellingConsideration" := "", "agreementTerms" := "", "listingPrice" := "", "salesCommission" := "",
      "closingDate" := "", "businessUnit" := queryUnit, "stage" := "", "probability" := "0",
      "expectedRevenue" := "", "campaignSource" := "", "whenToBuy" := "", "comments" := "",
      "lengthOfOperation" := "", "location" := "", "office" := ""
    ]
  }

  /** `PIPELINES[unit]?.[0] || ''`: 'Enquiry' for a unit with a pipeline, ""
      for any other unit and for none. */
  function FirstStage(unit: Option<string>): (s: string)
    ensures s == "Enquiry" <==> unit.Some? && unit.value in PIPELINES
    ensures s != "Enquiry" ==> s == ""
  {
    SameTableAsBoard();
    if unit.Some? && unit.value in PIPELINES && |PIPELINES[unit.value]| > 0 then PIPELINES[unit.value][0]
    else ""
  }

  /** The unit whose pipeline a unit change consults: a manager's first unit
      whatever was chosen, otherwise the chosen one. */
  function StageUnit(user: Option<SessionUser>, chosen: string): (u: Option<string>)
    ensures user.Some? && user.value.role == MANAGER ==>
      (u.Some? <==> |user.value.businessUnits| > 0) && (u.Some? ==> u.value == user.value.businessUnits[0])
    ensures !(user.Some? && user.value.role == MANAGER) ==> u == Some(chosen)
  {
    if user.Some? && user.value.role == MANAGER then
      (if |user.value.businessUnits| > 0 then Some(user.value.businessUnits[0]) else None)
    else Some(chosen)
  }

  /** `handleChange`: the field takes the value; a change of unit also resets
      the stage to the first stage of the pipeline `StageUnit` picks, or ""
      when there is none; no other field changes. */
  function HandleChange(form: Form, user: Option<SessionUser>, field: string, value: string): (r: Form)
    ensures r.Keys == form.Keys + {field} + (if field == "businessUnit" then {"stage"} else {})
    ensures r[field] == value
    ensures forall k :: k in form && k != field && k != "stage" ==> r[k] == form[k]
    ensures field != "businessUnit" && "stage" in form && field != "stage" ==> r["stage"] == form["stage"]
    ensures field == "businessUnit" ==>
      r["stage"] == (if StageUnit(user, value).Some? && StageUnit(user, value).value in PIPELINES then "Enquiry" else "")
  {
    var r := form[field := value];
    if field == "businessUnit" then r["stage" := FirstStage(StageUnit(user, value))] else r
  }

  /** A manager's stage follows their first unit: choosing any unit gives the
      same stage. */
  lemma ManagerStageIgnoresChoice(form: Form, user: Option<SessionUser>, a: string, b: string)
    requires user.Some? && user.value.role == MANAGER
    ensures HandleChange(form, user, "businessUnit", a)["stage"] == HandleChange(form, user, "businessUnit", b)["stage"]
  {
  }

  /** Anyone but a manager who picks 'Business Brokers' gets no stage, since
      the table's broker key is 'Business Broker'. */
  lemma BusinessBrokersChoiceHasNoStage(form: Form, user: Option<SessionUser>)
    requires !(user.Some? && user.value.role == MANAGER)
    ensures HandleChange(form, user, "businessUnit", DealModel.BUSINESS_BROKERS)["stage"] == ""
  {
    SameTableAsBoard();
  }

  /** The default unit once units are fetched. The test reads the form of the
      first render (`initial`), so it fires whenever the page opened without
      a unit, and then overwrites the current unit and stage. */
  function OnUnitsFetched(initial: Form, current: Form, unitNames: seq<string>): (r: Form)
    ensures |unitNames| == 0 || Get(initial, "businessUnit") != "" ==> r == current
    ensures |unitNames| > 0 && Get(initial, "businessUnit") == "" ==>
      && r.Keys == current.Keys + {"businessUnit", "stage"}
      && r["businessUnit"] == unitNames[0]
      && (r["stage"] == "Enquiry" <==> unitNames[0] in PIPELINES)
      && (r["stage"] != "Enquiry" ==> r["stage"] == "")
      && forall k :: k in current && k != "businessUnit" && k != "stage" ==> r[k] == current[k]
  {
    if |unitNames| > 0 && Get(initial, "businessUnit") == "" then
      current["businessUnit" := unitNames[0]]["stage" := FirstStage(Some(unitNames[0]))]
    else current
  }

  /** A unit chosen before the units arrive is overwritten by the default. */
  lemma {:induction false} DefaultUnitOverridesChoice(user: Option<SessionUser>, chosen: string, unitNames: seq<string>)
    requires |unitNames| > 0 && chosen != unitNames[0]
    ensures var changed := HandleChange(InitialForm(""), user, "businessUnit", chosen);
      OnUnitsFetched(InitialForm(""), changed, unitNames)["businessUnit"] == unitNames[0] != chosen
  {
    var changed := HandleChange(InitialForm(""), user, "businessUnit", chosen);
    assert Get(InitialForm(""), "businessUnit") == "";
    assert OnUnitsFetched(InitialForm(""), changed, unitNames)["businessUnit"] == unitNames[0];
  }

  /** The default office once offices are fetched, read against the form of
      the first render like the unit. */
  function OnOfficesFetched(initial: Form, current: Form, officeNames: seq<string>): (r: Form)
    ensures |officeNames| == 0 || Get(initial, "office") != "" ==> r == current
    ensures |officeNames| > 0 && Get(initial, "office") == "" ==>
      r.Keys == current.Keys + {"office"} && r["office"] == officeNames[0] &&
      forall k :: k in current && k != "office" ==> r[k] == current[k]
  {
    if |officeNames| > 0 && Get(initial, "office") == "" then current["office" := officeNames[0]] else current
  }

  // ---------------------------------------------------------------------------
  // Number(form.probability) || 0, on unsigned decimal integers

  predicate IsDigit(c: char)
  {
    '0' <= c <= '9'
  }

  predicate AllDigits(s: string)
  {
    forall i :: 0 <= i < |s| ==> IsDigit(s[i])
  }

  /** The value of a digit string, most significant digit first. */
  function DigitsValue(s: string): nat
    requires AllDigits(s)
  {
    if s == [] then 0 else DigitsValue(s[..|s| - 1]) * 10 + (s[|s| - 1] as int - '0' as int)
  }

  /** The decimal text of a number. */
  function Decimal(n: nat): (s: string)
    ensures |s| > 0 && AllDigits(s)
  {
    var d := ['0' + (n % 10) as char];
    if n < 10 then d else Decimal(n / 10) + d
  }

  /** Reading back a number's decimal text gives the number. */
  lemma {:induction false} DecimalRoundTrip(n: nat)
    ensures DigitsValue(Decimal(n)) == n
  {
    var s := Decimal(n);
    if n >= 10 {
      DecimalRoundTrip(n / 10);
      assert s[..|s| - 1] == Decimal(n / 10);
    }
  }

  /** `Number(text) || 0` for text that is a decimal integer up to
      surrounding whitespace; anything else reads as 0. */
  function NumberOrZero(text: string): (n: nat)
    ensures AllSpace(text) ==> n == 0
  {
    var t := Trim(text);
    if t != "" && AllDigits(t) then DigitsValue(t) else 0
  }

  /** A probability typed as a number's decimal text is submitted as that
      number. */
  lemma {:induction false} NumberOrZeroOfDecimal(n: nat)
    ensures NumberOrZero(Decimal(n)) == n
  {
    var s := Decimal(n);
    assert !IsSpace(s[0]) && !IsSpace(s[|s| - 1]);
    assert Trim(s) == s;
    DecimalRoundTrip(n);
  }

  // ---------------------------------------------------------------------------
  // handleSubmit

  const NAME_REQUIRED: string := "Deal name is required"
  const NOT_AUTHENTICATED: string := "User not authenticated"

  /** The body sent to POST /api/deals: the form's fields with name, unit,
      stage and office overridden, the owner (absent when the session has no
      name) and the probability as a number. */
  datatype Payload = Payload(fields: Form, owner: Option<string>, probability: nat)

  datatype Submission = Rejected(message: string) | Sent(payload: Payload)

  /** The first fetched name, or "". */
  function FirstOr(names: seq<string>): string
  {
    if |names| > 0 then names[0] else ""
  }

  /** The validation and payload of `handleSubmit`: a blank name is refused
      first, then a missing user; otherwise the payload carries the trimmed
      name, the session's name as owner, the numeric probability, and the
      form's unit and office or else the first fetched ones. */
  function HandleSubmit(form: Form, user: Option<SessionUser>, unitNames: seq<string>, officeNames: seq<string>): (r: Submission)
    ensures Trim(Get(form, "name")) == "" ==> r == Rejected(NAME_REQUIRED)
    ensures Trim(Get(form, "name")) != "" && user.None? ==> r == Rejected(NOT_AUTHENTICATED)
    ensures r.Sent? <==> Trim(Get(form, "name")) != "" && user.Some?
    ensures r.Sent? ==>
      var f := r.payload.fields;
      && f.Keys == form.Keys - {"probability", "owner"} + {"name", "businessUnit", "stage", "office"}
      && f["name"] == Trim(Get(form, "name")) && f["name"] != ""
      && f["stage"] == Get(form, "stage")
      && f["businessUnit"] == (if Get(form, "businessUnit") != "" then Get(form, "businessUnit") else FirstOr(unitNames))
      && f["office"] == (if Get(form, "office") != "" then Get(form, "office") else FirstOr(officeNames))
      && (forall k :: k in f && k !in {"name", "businessUnit", "stage", "office"} ==> f[k] == form[k])
      && r.payload.owner == user.value.name
      && r.payload.probability == NumberOrZero(Get(form, "probability"))
  {
    var name := Trim(Get(form, "name"));
    if name == "" then Rejected(NAME_REQUIRED)
    else if user.None? then Rejected(NOT_AUTHENTICATED)
    else
      var unit := if Get(form, "businessUnit") != "" then Get(form, "businessUnit") else FirstOr(unitNames);
      var office := if Get(form, "office") != "" then Get(form, "office") else FirstOr(officeNames);
      var fields := (form - {"probability", "owner"})["name" := name]["businessUnit" := unit]
        ["stage" := Get(form, "stage")]["office" := office];
      Sent(Payload(fields, user.value.name, NumberOrZero(Get(form, "probability"))))
  }

  /** The five fields the server reads from the payload; an absent owner is
      dropped from the JSON and reads as "". */
  function ServerBody(p: Payload): (b: DealPolicy.DealBody)
    requires {"name", "businessUnit", "stage", "office"} <= p.fields.Keys
    ensures b.owner == "" <==> p.owner.None? || p.owner == Some("")
  {
    DealPolicy.DealBody(p.fields["name"], p.fields["stage"], GetOr(p.owner, ""), p.fields["businessUnit"], p.fields["office"])
  }

  /** Anyone but a manager who picks 'Business Brokers' and submits sends a
      deal without a stage, which the server turns away with 400 whoever
      sends it. */
  lemma {:induction false} BusinessBrokersDealRejected(
    form: Form, user: Option<SessionUser>, unitNames: seq<string>, officeNames: seq<string>, caller: DealPolicy.Caller)
    requires !(user.Some? && user.value.role == MANAGER)
    requires HandleSubmit(HandleChange(form, user, "businessUnit", DealModel.BUSINESS_BROKERS), user, unitNames, officeNames).Sent?
    ensures var p := HandleSubmit(HandleChange(form, user, "businessUnit", DealModel.BUSINESS_BROKERS), user, unitNames, officeNames).payload;
      DealPolicy.CreateCheck(caller, ServerBody(p)) == DealPolicy.Deny(400, DealPolicy.MISSING_FIELDS)
  {
    var changed := HandleChange(form, user, "businessUnit", DealModel.BUSINESS_BROKERS);
    BusinessBrokersChoiceHasNoStage(form, user);
    assert Get(changed, "stage") == "";
    var p := HandleSubmit(changed, user, unitNames, officeNames).payload;
    assert ServerBody(p).stage == "";
  }

  const AUTH_FAILED: string := "Authentication failed. Please log in again."

  /** The error the form shows for a refused POST: 401 has its own text;
      otherwise the server's message, or the status when there is none. */
  function ResponseError(status: nat, message: Option<string>): (e: string)
    ensures status == 401 ==> e == AUTH_FAILED
    ensures status != 401 && message.Some? && message.value != "" ==> e == message.value
    ensures status != 401 && (message.None? || message == Some("")) ==> e == "Server error: " + Decimal(status)
  {
    if status == 401 then AUTH_FAILED
    else if message.Some? && message.value != "" then message.value
    else "Server error: " + Decimal(status)
  }

  /** The deal routes put their refusal text under `error`, which the form
      does not read, so every refusal of the server's create checks shows
      as the bare status. */
  lemma {:induction false} ServerRefusalShownAsStatus(caller: DealPolicy.Caller, b: DealPolicy.DealBody)
    requires DealPolicy.CreateCheck(caller, b).Deny?
    ensures var e := ResponseError(DealPolicy.CreateCheck(caller, b).status, None);
      e == "Server error: 400" || e == "Server error: 403"
  {
    assert Decimal(4) == "4" && Decimal(40) == "40" && Decimal(400) == "400";
    assert Decimal(403) == Decimal(40) + "3";
  }
}
