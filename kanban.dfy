/** The deals board of frontend/src/components/Deals.js: the pipeline table,
    the client-side filtering of fetched deals, the grouping into stage
    columns, and the drag-and-drop move with its guard. Fetching and
    rendering are left out; the server's answer to the stage update is the
    parameter `serverOk`. */
module Kanban {
  import opened Common
  import opened AuthContext
  import DealModel

  /** The stage table, per business unit. The broker unit's key is
      'Business Broker'. */
  const PIPELINES: map<string, seq<string>> := map[
    "Global Properties" := GLOBAL_PROPERTIES_STAGES,
    "Advocacy" := ADVOCACY_STAGES,
    "Finance" := FINANCE_STAGES,
    "Business Broker" := BUSINESS_BROKER_STAGES
  ]

  const GLOBAL_PROPERTIES_STAGES: seq<string> := [
    "Enquiry", "Email Sent", "Text Sent", "Nurture", "Initial Consultation",
    "Membership - Paid", "Strategy Session", "Property Presentation",
    "Expression of Interest", "Closed Won", "Membership - Refund Request",
    "DNQ", "Membership - Refunded", "Closed Lost"]

  const ADVOCACY_STAGES: seq<string> := [
    "Enquiry", "Qualification", "Initial Consultation", "Strategy Session", "Research & Analysis",
    "Property Presentation", "Unconditional", "Settled & invoice paid", "Closed Won", "Nurture",
    "Closed Lost", "DNQ", "FLUP", "CLOSED. Do Not Contact"]

  const FINANCE_STAGES: seq<string> := [
    "Enquiry", "Qualification", "Awaiting Documents", "Assessing servicability",
    "Serviceability provided to client", "Loan application processing", "Pre-Approval",
    "Contract signed", "Unconditional loan", "Settled", "Nurture", "DNQ", "Closed Lost", "FLUP",
    "CLOSED. Do Not Contact"]

  const BUSINESS_BROKER_STAGES: seq<string> := [
    "Enquiry", "Initial Consultation", "Proposal sent", "Backlog for FLUP", "Engagement Signed",
    "Ad launch", "Under offer", "Settled, Invoice paid", "Nurture", "DNQ", "Closed Lost",
    "CLOSED. Do Not Contact"]

  predicate NoDuplicates(s: seq<string>)
  {
    forall i, j :: 0 <= i < j < |s| ==> s[i] != s[j]
  }

  predicate NotLater(x: string, rest: seq<string>)
  {
    forall j :: 0 <= j < |rest| ==> rest[j] != x
  }

  /** A stage list starts with 'Enquiry' and lists each stage once. */
  predicate WellFormedPipeline(stages: seq<string>)
  {
    |stages| > 0 && stages[0] == "Enquiry" && NoDuplicates(stages)
  }

  lemma GlobalPropertiesWellFormed()
    ensures WellFormedPipeline(GLOBAL_PROPERTIES_STAGES)
  {
    var g := GLOBAL_PROPERTIES_STAGES;
    assert forall i :: 0 <= i < |g| ==> NotLater(g[i], g[i + 1..]);
  }

  lemma AdvocacyWellFormed()
    ensures WellFormedPipeline(ADVOCACY_STAGES)
  {
    var a := ADVOCACY_STAGES;
    assert forall i :: 0 <= i < |a| ==> NotLater(a[i], a[i + 1..]);
  }

  lemma FinanceWellFormed()
    ensures WellFormedPipeline(FINANCE_STAGES)
  {
    var f := FINANCE_STAGES;
    assert forall i :: 0 <= i < |f| ==> NotLater(f[i], f[i + 1..]);
  }

  lemma BusinessBrokerWellFormed()
    ensures WellFormedPipeline(BUSINESS_BROKER_STAGES)
  {
    var b := BUSINESS_BROKER_STAGES;
    assert forall i :: 0 <= i < |b| ==> NotLater(b[i], b[i + 1..]);
  }

  /** Every pipeline of the table is well formed. */
  lemma PipelinesWellFormed()
    ensures forall u :: u in PIPELINES ==> WellFormedPipeline(PIPELINES[u])
  {
    GlobalPropertiesWellFormed();
    AdvocacyWellFormed();
    FinanceWellFormed();
    BusinessBrokerWellFormed();
    assert PIPELINES.Keys == {"Global Properties", "Advocacy", "Finance", "Business Broker"};
  }

  /** The table has no 'Business Brokers' key, the name the server's hook and
      the prospects guard use. */
  lemma NoBusinessBrokersPipeline()
    ensures DealModel.BUSINESS_BROKERS !in PIPELINES
    ensures "Business Broker" in PIPELINES
  {
  }

  /** A deal as the board holds it. */
  datatype Card = Card(id: string, name: string, stage: string, owner: string, businessUnit: string, office: string)

  // ---------------------------------------------------------------------------
  // fetchDeals: filtering on the client

  function UnitIn(units: seq<string>): Card -> bool
  {
    (c: Card) => c.businessUnit in units
  }

  function UnitIs(unit: string): Card -> bool
  {
    (c: Card) => c.businessUnit == unit
  }

  /** What the board keeps of the fetched deals: a manager keeps the deals of
      their units; anyone else keeps the selected unit's deals, or all of
      them when no unit is selected. */
  function ClientFilter(user: SessionUser, selectedUnit: string, fetched: seq<Card>): (r: seq<Card>)
    ensures |r| <= |fetched|
    ensures user.role == MANAGER ==> forall c :: c in r <==> c in fetched && c.businessUnit in user.businessUnits
    ensures user.role != MANAGER && selectedUnit != "" ==>
      forall c :: c in r <==> c in fetched && c.businessUnit == selectedUnit
    ensures user.role != MANAGER && selectedUnit == "" ==> r == fetched
  {
    if user.role == MANAGER then Filter(fetched, UnitIn(user.businessUnits))
    else if selectedUnit != "" then Filter(fetched, UnitIs(selectedUnit))
    else fetched
  }

  /** Deals fetched in two batches are filtered batch by batch: the kept
      deals stay in their original order. */
  lemma ClientFilterKeepsOrder(user: SessionUser, selectedUnit: string, a: seq<Card>, b: seq<Card>)
    ensures ClientFilter(user, selectedUnit, a + b) == ClientFilter(user, selectedUnit, a) + ClientFilter(user, selectedUnit, b)
  {
    if user.role == MANAGER {
      FilterConcat(a, b, UnitIn(user.businessUnits));
    } else if selectedUnit != "" {
      FilterConcat(a, b, UnitIs(selectedUnit));
    }
  }

  // ---------------------------------------------------------------------------
  // dealsByStage

  function StageIs(stage: string): Card -> bool
  {
    (c: Card) => c.stage == stage
  }

  /** The deals of one column, in list order. */
  function Column(deals: seq<Card>, stage: string): (r: seq<Card>)
    ensures |r| <= |deals|
    ensures forall c :: c in r <==> c in deals && c.stage == stage
  {
    Filter(deals, StageIs(stage))
  }

  /** The pipeline the board shows: a manager's first unit, otherwise the
      selected unit; `None` when that unit has no pipeline. */
  function ChosenPipeline(user: SessionUser, selectedUnit: string): (p: Option<seq<string>>)
    ensures user.role == MANAGER ==>
      (p.Some? <==> |user.businessUnits| > 0 && user.businessUnits[0] in PIPELINES)
    ensures user.role != MANAGER ==> (p.Some? <==> selectedUnit in PIPELINES)
    ensures p.Some? ==> exists u :: u in PIPELINES && PIPELINES[u] == p.value
  {
    var unit := if user.role == MANAGER then (if |user.businessUnits| > 0 then Some(user.businessUnits[0]) else None)
                else Some(selectedUnit);
    if unit.Some? && unit.value in PIPELINES then Some(PIPELINES[unit.value]) else None
  }

  /** The `reduce` that fills one bucket per stage. */
  method DealsByStage(stages: seq<string>, deals: seq<Card>) returns (acc: map<string, seq<Card>>)
    ensures acc.Keys == set s | s in stages
    ensures forall s :: s in acc ==> acc[s] == Column(deals, s)
  {
    acc := map[];
    var i := 0;
    while i < |stages|
      invariant 0 <= i <= |stages|
      invariant acc.Keys == set s | s in stages[..i]
      invariant forall s :: s in acc ==> acc[s] == Column(deals, s)
    {
      assert stages[..i + 1] == stages[..i] + [stages[i]];
      acc := acc[stages[i] := Column(deals, stages[i])];
      i := i + 1;
    }
    assert stages[..i] == stages;
  }

  /** The board: one column per stage of the chosen pipeline, each holding
      exactly the deals of that stage in list order; a deal whose stage is
      not in the pipeline is on no column; no pipeline gives no columns. */
  method Board(user: SessionUser, selectedUnit: string, deals: seq<Card>) returns (board: map<string, seq<Card>>)
    ensures ChosenPipeline(user, selectedUnit).None? ==> board == map[]
    ensures ChosenPipeline(user, selectedUnit).Some? ==>
      board.Keys == set s | s in ChosenPipeline(user, selectedUnit).value
    ensures forall s :: s in board ==> board[s] == Column(deals, s)
    ensures forall s, c :: s in board && c in board[s] ==> c.stage == s && c in deals
  {
    var pipeline := ChosenPipeline(user, selectedUnit);
    if pipeline.None? {
      return map[];
    }
    board := DealsByStage(pipeline.value, deals);
  }

  // ---------------------------------------------------------------------------
  // onDragEnd

  datatype Location = Location(droppableId: string, index: int)
  datatype DropResult = DropResult(draggableId: string, source: Location, destination: Option<Location>)

  const OFFICE_MESSAGE: string := "You can only move deals from your office location"
  const UPDATE_FAILED: string := "Failed to update deal stage"

  /** `deals.find(d => d._id === id)`, as the index of the first match. */
  function FindCard(deals: seq<Card>, id: string): (r: Option<nat>)
    ensures r.Some? ==> r.value < |deals| && deals[r.value].id == id
    ensures r.Some? ==> forall j :: 0 <= j < r.value ==> deals[j].id != id
    ensures r.None? ==> forall j :: 0 <= j < |deals| ==> deals[j].id != id
  {
    if deals == [] then None
    else if deals[0].id == id then Some(0)
    else match FindCard(deals[1..], id)
      case None => None
      case Some(k) => Some(k + 1)
  }

  /** `isDragDisabled` on the board's cards: a manager cannot drag a deal of
      another office. */
  predicate DragDisabled(user: SessionUser, c: Card)
  {
    user.role == MANAGER && user.office != Some(c.office)
  }

  datatype DropVerdict = Ignore | Refuse(message: string) | Send

  /** The checks before the update is sent, in order: a destination, the
      dragged deal, and for a manager the deal's office. */
  function DropGuard(user: SessionUser, deals: seq<Card>, r: DropResult): (v: DropVerdict)
    ensures v == Ignore <==> r.destination.None? || FindCard(deals, r.draggableId).None?
    ensures v.Refuse? <==>
      v != Ignore && user.role == MANAGER && user.office != Some(deals[FindCard(deals, r.draggableId).value].office)
    ensures v.Refuse? ==> v.message == OFFICE_MESSAGE
  {
    if r.destination.None? then Ignore
    else match FindCard(deals, r.draggableId)
      case None => Ignore
      case Some(i) =>
        if user.role == MANAGER then
          if user.office != Some(deals[i].office) then Refuse(OFFICE_MESSAGE) else Send
        else Send
  }

  /** A card the board shows as non-draggable is exactly one whose drop the
      guard refuses, and a draggable card's drop is sent. */
  lemma {:induction false} DisabledExactlyWhenRefused(user: SessionUser, deals: seq<Card>, r: DropResult)
    requires r.destination.Some? && FindCard(deals, r.draggableId).Some?
    ensures DropGuard(user, deals, r).Refuse? <==> DragDisabled(user, deals[FindCard(deals, r.draggableId).value])
    ensures DropGuard(user, deals, r) == Send <==> !DragDisabled(user, deals[FindCard(deals, r.draggableId).value])
  {
  }

  /** `splice`'s reading of a start index against a length. */
  function SpliceStart(i: int, n: nat): (k: nat)
    ensures k <= n
    ensures 0 <= i <= n ==> k == i
  {
    if i < 0 then (if n + i < 0 then 0 else n + i) else if i > n then n else i
  }

  /** `s.splice(i, 1)` on an index inside `s`. */
  function RemoveAt(s: seq<Card>, i: nat): (r: seq<Card>)
    requires i < |s|
    ensures |r| == |s| - 1
  {
    s[..i] + s[i + 1..]
  }

  /** `s.splice(i, 0, x)`. */
  function InsertAt(s: seq<Card>, i: int, x: Card): (r: seq<Card>)
    ensures |r| == |s| + 1
    ensures r[SpliceStart(i, |s|)] == x
  {
    var k := SpliceStart(i, |s|);
    s[..k] + [x] + s[k..]
  }

  /** The local update after a successful drop: the element at the source
      index is taken out and put back, with its new stage, at the destination
      index. */
  function Moved(deals: seq<Card>, src: nat, dst: int, stage: string): seq<Card>
    requires src < |deals|
  {
    InsertAt(RemoveAt(deals, src), dst, deals[src].(stage := stage))
  }

  /** The move keeps the length, puts the restaged element at the destination,
      and leaves every other element in its relative order. */
  lemma {:induction false} MovedProperties(deals: seq<Card>, src: nat, dst: int, stage: string)
    requires src < |deals|
    ensures var m := Moved(deals, src, dst, stage);
      var k := SpliceStart(dst, |deals| - 1);
      && |m| == |deals|
      && m[k] == deals[src].(stage := stage)
      && RemoveAt(m, k) == RemoveAt(deals, src)
  {
    var r := RemoveAt(deals, src);
    var k := SpliceStart(dst, |r|);
    var m := Moved(deals, src, dst, stage);
    assert m == r[..k] + [deals[src].(stage := stage)] + r[k..];
    assert m[..k] == r[..k];
    assert m[k + 1..] == r[k..];
  }

  /** `Moved` element by element, the form the in-place move is proved in. */
  lemma {:induction false} MovedAt(deals: seq<Card>, src: nat, dst: int, stage: string, t: nat)
    requires src < |deals| && t < |deals|
    ensures var k := SpliceStart(dst, |deals| - 1);
      Moved(deals, src, dst, stage)[t] ==
        if t == k then deals[src].(stage := stage)
        else if t < k && t < src then deals[t]
        else if t < k then deals[t + 1]
        else if t <= src then deals[t - 1]
        else deals[t]
  {
    var r := RemoveAt(deals, src);
    var k := SpliceStart(dst, |r|);
    var m := Moved(deals, src, dst, stage);
    assert m == r[..k] + [deals[src].(stage := stage)] + r[k..];
    assert forall j :: 0 <= j < |r| ==> r[j] == if j < src then deals[j] else deals[j + 1];
  }

  /** The splice pair on a copy of the list, done in place: the elements
      between the two positions shift by one and the moved element lands at
      the destination. */
  method MoveInPlace(a: array<Card>, src: nat, dst: int, stage: string)
    requires src < a.Length
    modifies a
    ensures a[..] == Moved(old(a[..]), src, dst, stage)
  {
    ghost var s := a[..];
    var moved := a[src].(stage := stage);
    var k := SpliceStart(dst, a.Length - 1);
    if src < k {
      var j := src;
      while j < k
        invariant src <= j <= k
        invariant forall t :: 0 <= t < src ==> a[t] == s[t]
        invariant forall t :: src <= t < j ==> a[t] == s[t + 1]
        invariant forall t :: j <= t < a.Length ==> a[t] == s[t]
      {
        a[j] := a[j + 1];
        j := j + 1;
      }
    } else {
      var j := src;
      while j > k
        invariant k <= j <= src
        invariant forall t :: 0 <= t <= j ==> a[t] == s[t]
        invariant forall t :: j < t <= src ==> a[t] == s[t - 1]
        invariant forall t :: src < t < a.Length ==> a[t] == s[t]
      {
        a[j] := a[j - 1];
        j := j - 1;
      }
    }
    a[k] := moved;
    forall t | 0 <= t < a.Length
      ensures a[t] == Moved(s, src, dst, stage)[t]
    {
      MovedAt(s, src, dst, stage, t);
    }
    MovedProperties(s, src, dst, stage);
  }

  /** The update request: the deal id and a body whose only field the server
      writes is the stage. */
  datatype StageRequest = StageRequest(id: string, update: DealModel.DealUpdate)

  /** `onDragEnd`. A drop without destination, of an unknown deal, or (for a
      manager) of another office's deal changes nothing and sends nothing;
      the office case reports an error. Otherwise the stage update is sent,
      and only when the server accepts it is the local list moved. The source
      index comes from the drag library and is an index into the source
      column, which is no longer than the whole list. */
  method OnDragEnd(user: SessionUser, deals: seq<Card>, r: DropResult, serverOk: bool)
    returns (updated: seq<Card>, request: Option<StageRequest>, error: Option<string>)
    requires 0 <= r.source.index < |Column(deals, r.source.droppableId)|
    ensures DropGuard(user, deals, r) != Send ==> updated == deals && request.None?
    ensures DropGuard(user, deals, r) == Ignore ==> error.None?
    ensures DropGuard(user, deals, r).Refuse? ==> error == Some(OFFICE_MESSAGE)
    ensures DropGuard(user, deals, r) == Send ==>
      request == Some(StageRequest(r.draggableId, DealModel.StageOnly(r.destination.value.droppableId)))
    ensures DropGuard(user, deals, r) == Send && !serverOk ==> updated == deals && error == Some(UPDATE_FAILED)
    ensures DropGuard(user, deals, r) == Send && serverOk ==>
      error.None? && updated == Moved(deals, r.source.index, r.destination.value.index, r.destination.value.droppableId)
  {
    updated, request, error := deals, None, None;
    var verdict := DropGuard(user, deals, r);
    if verdict == Ignore {
      return;
    }
    if verdict.Refuse? {
      error := Some(verdict.message);
      return;
    }
    var destination := r.destination.value;
    request := Some(StageRequest(r.draggableId, DealModel.StageOnly(destination.droppableId)));
    if !serverOk {
      error := Some(UPDATE_FAILED);
      return;
    }
    var a := new Card[|deals|](i requires 0 <= i < |deals| => deals[i]);
    assert a[..] == deals;
    MoveInPlace(a, r.source.index, destination.index, destination.droppableId);
    updated := a[..];
  }

  /** The source index counts within one column but is applied to the whole
      list: dragging the first card of the second column moves the first card
      of the list, which sits in another column. */
  lemma ColumnIndexMovesAnotherCard()
    ensures var x := Card("x", "X", "Enquiry", "o", "Finance", "HQ");
      var y := Card("y", "Y", "Settled", "o", "Finance", "HQ");
      var deals := [x, y];
      && Column(deals, "Settled") == [y]
      && Moved(deals, 0, 0, "DNQ")[0] == x.(stage := "DNQ")
      && Moved(deals, 0, 0, "DNQ")[0].id != y.id
  {
    var x := Card("x", "X", "Enquiry", "o", "Finance", "HQ");
    var y := Card("y", "Y", "Settled", "o", "Finance", "HQ");
    assert [x, y][1..] == [y];
    assert "Enquiry" != "Settled";
    assert Column([y], "Settled") == [y] by {
      assert [y][1..] == [];
    }
  }
}
