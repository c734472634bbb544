/** Reference data: the BusinessUnit and Office collections (backend/server.js,
    business-unit and office routes). Each document is an id and a name; other
    entities copy the name, so deleting a document never cascades. */
module Reference {
  import opened Common

  datatype Kind = UnitKind | OfficeKind

  /** `/^[0-9a-fA-F]{24}$/`, the text form of a document id. */
  predicate IsHexDigit(c: char)
  {
    ('0' <= c <= '9') || ('a' <= c <= 'f') || ('A' <= c <= 'F')
  }

  predicate IsObjectIdText(s: string)
  {
    |s| == 24 && forall i :: 0 <= i < |s| ==> IsHexDigit(s[i])
  }

  function HexDigitValue(c: char): (v: nat)
    requires IsHexDigit(c)
    ensures v < 16
  {
    if '0' <= c <= '9' then c as int - '0' as int
    else if 'a' <= c <= 'f' then c as int - 'a' as int + 10
    else c as int - 'A' as int + 10
  }

  /** The id a hexadecimal text denotes (casing does not matter). */
  function HexValue(s: string): nat
    requires forall i :: 0 <= i < |s| ==> IsHexDigit(s[i])
  {
    if s == [] then 0 else HexValue(s[..|s| - 1]) * 16 + HexDigitValue(s[|s| - 1])
  }

  /** `Model.findById(text)` followed by reading `.name`: the name of the
      document the id text denotes, when it exists and is non-empty. */
  function NameById(docs: map<nat, string>, text: string): (r: Option<string>)
    requires IsObjectIdText(text)
    ensures r.Some? <==> HexValue(text) in docs && docs[HexValue(text)] != ""
    ensures r.Some? ==> r.value == docs[HexValue(text)]
  {
    var id := HexValue(text);
    if id in docs && docs[id] != "" then Some(docs[id]) else None
  }

  class ReferenceData {
    var units: map<nat, string>
    var offices: map<nat, string>
    var nextId: nat

    function Docs(k: Kind): map<nat, string>
      reads this
    {
      match k
      case UnitKind => units
      case OfficeKind => offices
    }

    /** Ids come from one generator, so every stored id is below `nextId`. */
    ghost predicate Valid()
      reads this
    {
      (forall id :: id in units ==> id < nextId) && (forall id :: id in offices ==> id < nextId)
    }

    constructor ()
      ensures Valid() && units == map[] && offices == map[]
    {
      units, offices, nextId := map[], map[], 0;
    }

    /** POST /api/business-units and POST /api/offices: an empty name is
        rejected with 400 and nothing is stored; otherwise one new document
        with a fresh id is added to that collection alone. */
    method Create(k: Kind, name: string) returns (status: int, id: Option<nat>)
      requires Valid()
      modifies this
      ensures Valid()
      ensures name == "" ==> status == 400 && id == None && unchanged(this)
      ensures name != "" ==> status == 201 && id == Some(old(nextId))
      ensures name != "" ==> old(nextId) !in old(Docs(k)) && Docs(k) == old(Docs(k))[old(nextId) := name]
      ensures name != "" ==> forall other :: other != k ==> Docs(other) == old(Docs(other))
    {
      if name == "" {
        return 400, None;
      }
      id := Some(nextId);
      match k {
        case UnitKind => units := units[nextId := name];
        case OfficeKind => offices := offices[nextId := name];
      }
      nextId := nextId + 1;
      status := 201;
    }

    /** DELETE /api/business-units/:id and DELETE /api/offices/:id: an absent
        id gives 404 and no change; otherwise exactly that document goes. */
    method Delete(k: Kind, id: nat) returns (status: int)
      requires Valid()
      modifies this
      ensures Valid()
      ensures id !in old(Docs(k)) ==> status == 404 && unchanged(this)
      ensures id in old(Docs(k)) ==> status == 200 && Docs(k) == old(Docs(k)) - {id}
      ensures forall other :: other != k ==> Docs(other) == old(Docs(other))
      ensures nextId == old(nextId)
    {
      if id !in Docs(k) {
        return 404;
      }
      match k {
        case UnitKind => units := units - {id};
        case OfficeKind => offices := offices - {id};
      }
      status := 200;
    }
  }
}
