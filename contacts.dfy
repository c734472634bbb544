/** The prospects list of frontend/src/components/Contacts.js: the global
    search, the filter panel's per-field filters and their handlers, and the
    effect that combines both. Contacts are loaded, edited, imported and
    exported through the server; those requests are left out and the list
    enters as a parameter. */
module Contacts {
  import opened Common

  /** A contact as the list holds it: field name to text. A field the
      contact lacks reads as "". */
  type Contact = map<string, string>

  function FieldText(c: Contact, field: string): string
  {
    if field in c then c[field] else ""
  }

  const SEARCHABLE_FIELDS: seq<string> := [
    "firstName", "lastName", "phone", "email", "industry",
    "businessType", "priceRange", "location", "city", "contactOwner"]

  // ---------------------------------------------------------------------------
  // The global search

  /** One field matches a lower-cased search text: it is present and
      non-empty, and its lower-cased text contains the search. */
  predicate FieldMatches(c: Contact, field: string, lower: string)
  {
    FieldText(c, field) != "" && Contains(Lower(FieldText(c, field)), lower)
  }

  /** `fields.some(...)`. */
  function SomeFieldMatches(fields: seq<string>, c: Contact, lower: string): (b: bool)
    ensures b <==> exists i :: 0 <= i < |fields| && FieldMatches(c, fields[i], lower)
  {
    if fields == [] then false
    else if FieldMatches(c, fields[0], lower) then true
    else
      var rest := SomeFieldMatches(fields[1..], c, lower);
      assert forall i :: 1 <= i < |fields| ==> fields[i] == fields[1..][i - 1];
      rest
  }

  /** A contact passes a search exactly when one of the searchable fields,
      lower-cased, contains the lower-cased search. */
  predicate MatchesSearch(c: Contact, search: string)
  {
    SomeFieldMatches(SEARCHABLE_FIELDS, c, Lower(search))
  }

  /** A contact without any searchable field matches no search, not even an
      empty one. */
  lemma NoSearchableFieldNoMatch(c: Contact, search: string)
    requires forall i :: 0 <= i < |SEARCHABLE_FIELDS| ==> FieldText(c, SEARCHABLE_FIELDS[i]) == ""
    ensures !MatchesSearch(c, search)
  {
  }

  function SearchPredicate(search: string): Contact -> bool
  {
    (c: Contact) => MatchesSearch(c, search)
  }

  /** The search effect: an empty search keeps every contact; any other keeps
      exactly the contacts matching it, in list order. */
  function SearchEffect(contacts: seq<Contact>, search: string): (r: seq<Contact>)
    ensures |r| <= |contacts|
    ensures search == "" ==> r == contacts
    ensures search != "" ==> forall c :: c in r <==> c in contacts && MatchesSearch(c, search)
  {
    if search == "" then contacts else Filter(contacts, SearchPredicate(search))
  }

  // ---------------------------------------------------------------------------
  // The filter panel

  /** A field's filter; `false` and "" stand for an absent part. */
  datatype FilterEntry = FilterEntry(enabled: bool, operator: string, value: string)

  const NO_FILTER: FilterEntry := FilterEntry(false, "", "")

  /** The filters object with its keys in insertion order, the order
      `Object.entries` lists them in. */
  type Filters = seq<(string, FilterEntry)>

  predicate DistinctFields(fs: Filters)
  {
    forall i, j :: 0 <= i < j < |fs| ==> fs[i].0 != fs[j].0
  }

  function FieldsOf(fs: Filters): (s: set<string>)
    ensures forall k :: k in s <==> exists i :: 0 <= i < |fs| && fs[i].0 == k
  {
    set i | 0 <= i < |fs| :: fs[i].0
  }

  /** The position of a field's filter: the first entry with that key. */
  function FindField(fs: Filters, field: string): (r: Option<nat>)
    ensures r.Some? ==> r.value < |fs| && fs[r.value].0 == field
    ensures r.Some? ==> forall j :: 0 <= j < r.value ==> fs[j].0 != field
    ensures r.None? <==> field !in FieldsOf(fs)
  {
    if fs == [] then None
    else if fs[0].0 == field then Some(0)
    else
      var rest := FindField(fs[1..], field);
      assert forall i :: 1 <= i < |fs| ==> fs[i] == fs[1..][i - 1];
      match rest
      case None => None
      case Some(k) => Some(k + 1)
  }

  /** `filters[field]`, absent as `NO_FILTER`. */
  function Lookup(fs: Filters, field: string): (e: FilterEntry)
    ensures field !in FieldsOf(fs) ==> e == NO_FILTER
    ensures DistinctFields(fs) ==> forall i :: 0 <= i < |fs| && fs[i].0 == field ==> e == fs[i].1
  {
    match FindField(fs, field)
    case None => NO_FILTER
    case Some(k) => fs[k].1
  }

  /** Two lists with the same keys at the same positions find every field at
      the same position. */
  lemma SameKeysSamePositions(fs: Filters, gs: Filters, field: string)
    requires |fs| <= |gs| && forall i :: 0 <= i < |fs| ==> fs[i].0 == gs[i].0
    requires field in FieldsOf(fs) || (|fs| == |gs|)
    ensures FindField(gs, field) == FindField(fs, field)
  {
  }

  /** `{...prev, [field]: e}`: an existing key keeps its place and an absent
      one is appended; no other field's filter changes. */
  function Upsert(fs: Filters, field: string, e: FilterEntry): (r: Filters)
    ensures Lookup(r, field) == e
    ensures forall k :: k != field ==> Lookup(r, k) == Lookup(fs, k)
    ensures field in FieldsOf(fs) ==> |r| == |fs|
    ensures field !in FieldsOf(fs) ==> |r| == |fs| + 1 && r[|fs|] == (field, e)
    ensures forall i :: 0 <= i < |fs| ==> r[i].0 == fs[i].0
    ensures DistinctFields(fs) ==> DistinctFields(r)
  {
    match FindField(fs, field)
    case Some(k) =>
      var r := fs[k := (field, e)];
      assert FindField(r, field) == Some(k) by { SameKeysSamePositions(fs, r, field); }
      assert forall f :: FindField(r, f) == FindField(fs, f) by {
        forall f ensures FindField(r, f) == FindField(fs, f) { SameKeysSamePositions(fs, r, f); }
      }
      r
    case None =>
      var r := fs + [(field, e)];
      assert FindField(r, field) == Some(|fs|) by {
        assert r[|fs|].0 == field;
      }
      assert forall f :: f != field ==> FindField(r, f) == FindField(fs, f) by {
        forall f | f != field ensures FindField(r, f) == FindField(fs, f) {
          if f in FieldsOf(fs) {
            SameKeysSamePositions(fs, r, f);
          }
        }
      }
      r
  }

  /** `handleFilterFieldToggle`: flips `enabled` and fills in the operator
      'contains' and the value "" where they are absent. */
  function Toggle(fs: Filters, field: string): (r: Filters)
    ensures Lookup(r, field).enabled == !Lookup(fs, field).enabled
    ensures Lookup(r, field).operator == if Lookup(fs, field).operator != "" then Lookup(fs, field).operator else "contains"
    ensures Lookup(r, field).value == Lookup(fs, field).value
    ensures forall k :: k != field ==> Lookup(r, k) == Lookup(fs, k)
  {
    var prev := Lookup(fs, field);
    Upsert(fs, field, FilterEntry(!prev.enabled, if prev.operator != "" then prev.operator else "contains", prev.value))
  }

  /** Toggling a field twice restores its filter, with 'contains' filled in
      where it had no operator. */
  lemma ToggleTwice(fs: Filters, field: string)
    ensures var e := Lookup(fs, field);
      Lookup(Toggle(Toggle(fs, field), field), field) == e.(operator := if e.operator != "" then e.operator else "contains")
  {
  }

  /** `handleFilterOperatorChange`. */
  function SetOperator(fs: Filters, field: string, operator: string): (r: Filters)
    ensures Lookup(r, field) == Lookup(fs, field).(operator := operator)
    ensures forall k :: k != field ==> Lookup(r, k) == Lookup(fs, k)
  {
    Upsert(fs, field, Lookup(fs, field).(operator := operator))
  }

  /** `handleFilterValueChange`: the same shape as `handleFilterOperatorChange`,
      writing `value` where that one writes `operator`. */
  function SetValue(fs: Filters, field: string, value: string): (r: Filters)
    ensures Lookup(r, field) == Lookup(fs, field).(value := value)
    ensures forall k :: k != field ==> Lookup(r, k) == Lookup(fs, k)
  {
    Upsert(fs, field, Lookup(fs, field).(value := value))
  }

  /** The operator switch on lower-cased texts: 'equals', 'startsWith' and
      'endsWith' by name, anything else (including none) as 'contains'. */
  function OperatorHolds(operator: string, val: string, filterVal: string): (b: bool)
    ensures operator == "equals" ==> (b <==> val == filterVal)
    ensures operator == "startsWith" ==> (b <==> IsPrefix(filterVal, val))
    ensures operator == "endsWith" ==> (b <==> IsSuffix(filterVal, val))
    ensures operator !in ["equals", "startsWith", "endsWith"] ==> (b <==> Contains(val, filterVal))
  {
    if operator == "equals" then val == filterVal
    else if operator == "startsWith" then IsPrefix(filterVal, val)
    else if operator == "endsWith" then IsSuffix(filterVal, val)
    else Contains(val, filterVal)
  }

  /** On the same field and value, 'equals' keeps the fewest contacts and
      'contains' the most. */
  lemma OperatorsNested(val: string, filterVal: string)
    ensures OperatorHolds("equals", val, filterVal) ==> OperatorHolds("startsWith", val, filterVal)
    ensures OperatorHolds("equals", val, filterVal) ==> OperatorHolds("endsWith", val, filterVal)
    ensures OperatorHolds("startsWith", val, filterVal) ==> OperatorHolds("contains", val, filterVal)
    ensures OperatorHolds("endsWith", val, filterVal) ==> OperatorHolds("contains", val, filterVal)
  {
    OperatorStrength(val, filterVal);
  }

  /** A filter takes part only when enabled and with a non-empty value. */
  predicate Active(e: FilterEntry)
  {
    e.enabled && e.value != ""
  }

  /** One filter of the panel on a contact; an inactive one lets everything
      through. */
  predicate Passes(f: (string, FilterEntry), c: Contact)
  {
    Active(f.1) ==> OperatorHolds(f.1.operator, Lower(FieldText(c, f.0)), Lower(f.1.value))
  }

  predicate PassesAll(fs: Filters, c: Contact)
  {
    forall i :: 0 <= i < |fs| ==> Passes(fs[i], c)
  }

  /** What the list shows: the contacts passing every filter and, for a
      non-empty search, matching the search. */
  predicate Shown(fs: Filters, search: string, c: Contact)
  {
    PassesAll(fs, c) && (search == "" || MatchesSearch(c, search))
  }

  function ShownPredicate(fs: Filters, search: string): Contact -> bool
  {
    (c: Contact) => Shown(fs, search, c)
  }

  function PassesAllPredicate(fs: Filters): Contact -> bool
  {
    (c: Contact) => PassesAll(fs, c)
  }

  function EntryPredicate(f: (string, FilterEntry)): Contact -> bool
  {
    (c: Contact) => Passes(f, c)
  }

  /** One more filter of the panel narrows the list by that filter, or not
      at all when it is inactive. */
  lemma {:induction false} FilterStep(contacts: seq<Contact>, fs: Filters, i: nat)
    requires i < |fs|
    ensures Filter(contacts, PassesAllPredicate(fs[..i + 1])) ==
      if Active(fs[i].1) then Filter(Filter(contacts, PassesAllPredicate(fs[..i])), EntryPredicate(fs[i]))
      else Filter(contacts, PassesAllPredicate(fs[..i]))
  {
    var pre, next := fs[..i], fs[..i + 1];
    assert next == pre + [fs[i]];
    assert forall c :: PassesAll(next, c) == (PassesAll(pre, c) && Passes(fs[i], c)) by {
      forall c ensures PassesAll(next, c) == (PassesAll(pre, c) && Passes(fs[i], c)) {
        if PassesAll(pre, c) && Passes(fs[i], c) {
          forall j | 0 <= j < |next| ensures Passes(next[j], c) {
            if j < i { assert next[j] == pre[j]; }
          }
        }
        if PassesAll(next, c) {
          forall j | 0 <= j < |pre| ensures Passes(pre[j], c) {
            assert next[j] == pre[j];
          }
          assert Passes(next[i], c);
        }
      }
    }
    if Active(fs[i].1) {
      FilterThen(contacts, PassesAllPredicate(pre), EntryPredicate(fs[i]), PassesAllPredicate(next));
    } else {
      FilterAgree(contacts, PassesAllPredicate(pre), PassesAllPredicate(next));
    }
  }

  /** The search applied after the filters gives the shown list. */
  lemma {:induction false} SearchStep(contacts: seq<Contact>, fs: Filters, search: string)
    ensures Filter(contacts, ShownPredicate(fs, search)) ==
      if search != "" then Filter(Filter(contacts, PassesAllPredicate(fs)), SearchPredicate(search))
      else Filter(contacts, PassesAllPredicate(fs))
  {
    if search != "" {
      FilterThen(contacts, PassesAllPredicate(fs), SearchPredicate(search), ShownPredicate(fs, search));
    } else {
      FilterAgree(contacts, PassesAllPredicate(fs), ShownPredicate(fs, search));
    }
  }

  /** The filter effect: each active filter in turn narrows the list, and a
      non-empty search narrows it once more. */
  method ApplyFilters(contacts: seq<Contact>, fs: Filters, search: string) returns (filtered: seq<Contact>)
    ensures filtered == Filter(contacts, ShownPredicate(fs, search))
    ensures forall c :: c in filtered <==> c in contacts && Shown(fs, search, c)
  {
    filtered := contacts;
    FilterAll(contacts, PassesAllPredicate(fs[..0]));
    var i := 0;
    while i < |fs|
      invariant 0 <= i <= |fs|
      invariant filtered == Filter(contacts, PassesAllPredicate(fs[..i]))
    {
      FilterStep(contacts, fs, i);
      if Active(fs[i].1) {
        filtered := Filter(filtered, EntryPredicate(fs[i]));
      }
      i := i + 1;
    }
    assert fs[..i] == fs;
    SearchStep(contacts, fs, search);
    if search != "" {
      filtered := Filter(filtered, SearchPredicate(search));
    }
  }

  /** The order in which the filters were added does not change the list:
      two panels holding the same filters show the same contacts in the
      same order. */
  lemma {:induction false} FilterOrderIrrelevant(contacts: seq<Contact>, fs: Filters, gs: Filters, search: string)
    requires forall f :: f in fs <==> f in gs
    ensures Filter(contacts, ShownPredicate(fs, search)) == Filter(contacts, ShownPredicate(gs, search))
  {
    forall c | c in contacts
      ensures Shown(fs, search, c) == Shown(gs, search, c)
    {
      if PassesAll(fs, c) {
        forall j | 0 <= j < |gs| ensures Passes(gs[j], c) {
          assert gs[j] in fs;
        }
      }
      if PassesAll(gs, c) {
        forall j | 0 <= j < |fs| ensures Passes(fs[j], c) {
          assert fs[j] in gs;
        }
      }
    }
    FilterAgree(contacts, ShownPredicate(fs, search), ShownPredicate(gs, search));
  }

  /** With no active filter the panel shows what the search alone shows. */
  lemma {:induction false} InactiveFiltersLeaveSearch(contacts: seq<Contact>, fs: Filters, search: string)
    requires forall i :: 0 <= i < |fs| ==> !Active(fs[i].1)
    ensures Filter(contacts, ShownPredicate(fs, search)) == SearchEffect(contacts, search)
  {
    if search == "" {
      FilterAll(contacts, ShownPredicate(fs, search));
    } else {
      FilterAgree(contacts, ShownPredicate(fs, search), SearchPredicate(search));
    }
  }

  /** The list is filtered element by element: splitting the contacts splits
      the result, so the shown contacts keep their original order. */
  lemma ShownKeepsOrder(a: seq<Contact>, b: seq<Contact>, fs: Filters, search: string)
    ensures Filter(a + b, ShownPredicate(fs, search)) ==
      Filter(a, ShownPredicate(fs, search)) + Filter(b, ShownPredicate(fs, search))
  {
    FilterConcat(a, b, ShownPredicate(fs, search));
  }

  /** Turning a field's filter on narrows the list only once it has a value. */
  lemma {:induction false} ToggleWithoutValueChangesNothing(contacts: seq<Contact>, fs: Filters, field: string, search: string)
    requires DistinctFields(fs)
    requires Lookup(fs, field).value == ""
    ensures Filter(contacts, ShownPredicate(Toggle(fs, field), search)) == Filter(contacts, ShownPredicate(fs, search))
  {
    var ts := Toggle(fs, field);
    forall c | c in contacts
      ensures Shown(ts, search, c) == Shown(fs, search, c)
    {
      assert DistinctFields(ts);
      if PassesAll(fs, c) {
        forall j | 0 <= j < |ts| ensures Passes(ts[j], c) {
          if ts[j].0 != field {
            assert ts[j].0 in FieldsOf(fs);
            var k :| 0 <= k < |fs| && fs[k].0 == ts[j].0;
            assert ts[j].1 == Lookup(ts, ts[j].0) == Lookup(fs, ts[j].0) == fs[k].1;
          }
        }
      }
      if PassesAll(ts, c) {
        forall k | 0 <= k < |fs| ensures Passes(fs[k], c) {
          if fs[k].0 != field {
            assert fs[k].0 in FieldsOf(ts);
            var j :| 0 <= j < |ts| && ts[j].0 == fs[k].0;
            assert fs[k].1 == Lookup(fs, fs[k].0) == Lookup(ts, fs[k].0) == ts[j].1;
          } else {
            assert fs[k].1 == Lookup(fs, field);
          }
        }
      }
    }
    FilterAgree(contacts, ShownPredicate(ts, search), ShownPredicate(fs, search));
  }
}
