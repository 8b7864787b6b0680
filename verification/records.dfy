/** Backend records (applications, notes, notifications, uploaded files) as
    JavaScript objects, and the two list updates every container applies
    after a reply: `list.filter(x => x.id !== id)` and
    `list.map(x => x.id === id ? f(x) : x)`. Ids compare with `===`. */
module Records {
  import opened JsValue
  import opened JsObject
  import opened Lists

  type Record = Entries<Value>

  function IdOf(r: Record): Value {
    Prop(r, "id")
  }

  /** The ids of a list, in order. */
  function Ids(rs: seq<Record>): (r: seq<Value>)
    ensures |r| == |rs| && forall i :: 0 <= i < |rs| ==> r[i] == IdOf(rs[i])
  {
    if rs == [] then [] else [IdOf(rs[0])] + Ids(rs[1..])
  }

  /** How many records carry `id`. */
  function CountId(rs: seq<Record>, id: Value): nat {
    if rs == [] then 0 else (if IdOf(rs[0]) == id then 1 else 0) + CountId(rs[1..], id)
  }

  /** `rs.filter(x => x.id !== id)` */
  function RemoveById(rs: seq<Record>, id: Value): (r: seq<Record>)
    ensures forall i :: 0 <= i < |r| ==> IdOf(r[i]) != id && r[i] in rs
    ensures forall i :: 0 <= i < |rs| && IdOf(rs[i]) != id ==> rs[i] in r
    ensures (forall i :: 0 <= i < |rs| ==> IdOf(rs[i]) != id) ==> r == rs
  {
    Filter(rs, (x: Record) => IdOf(x) != id)
  }

  /** Removal takes out exactly the records with that id, no more. */
  lemma {:induction false} RemoveByIdLength(rs: seq<Record>, id: Value)
    ensures |RemoveById(rs, id)| == |rs| - CountId(rs, id)
  {
    if rs != [] {
      RemoveByIdLength(rs[1..], id);
      assert RemoveById(rs, id) == (if IdOf(rs[0]) != id then [rs[0]] else []) + RemoveById(rs[1..], id);
    }
  }

  /** Removal keeps the others in their order: it distributes over concatenation. */
  lemma {:induction false} RemoveByIdAppend(a: seq<Record>, b: seq<Record>, id: Value)
    ensures RemoveById(a + b, id) == RemoveById(a, id) + RemoveById(b, id)
  {
    FilterAppend(a, b, (x: Record) => IdOf(x) != id);
  }

  /** `rs.map(x => x.id === id ? f(x) : x)` */
  function UpdateById(rs: seq<Record>, id: Value, f: Record -> Record): (r: seq<Record>)
    ensures |r| == |rs|
    ensures forall i :: 0 <= i < |rs| ==> r[i] == (if IdOf(rs[i]) == id then f(rs[i]) else rs[i])
    ensures (forall i :: 0 <= i < |rs| ==> IdOf(rs[i]) != id) ==> r == rs
  {
    MapWhere(rs, (x: Record) => IdOf(x) == id, f)
  }

  /** An update that keeps each record's id keeps the list of ids. */
  lemma {:induction false} UpdateByIdKeepsIds(rs: seq<Record>, id: Value, f: Record -> Record)
    requires forall x :: IdOf(x) == id ==> IdOf(f(x)) == id
    ensures Ids(UpdateById(rs, id, f)) == Ids(rs)
  {
    var r := UpdateById(rs, id, f);
    assert forall i :: 0 <= i < |rs| ==> IdOf(r[i]) == IdOf(rs[i]);
  }
}
