/**
 JSON values as `response.json()` hands them to the library (and as the
 library hands request bodies to the transport). Objects keep their members in
 document order; JSON floats are not modelled.
 */
module JsonData {
  import opened Options

  datatype Json =
    | JNull
    | JBool(b: bool)
    | JInt(n: int)
    | JStr(s: string)
    | JArr(items: seq<Json>)
    | JObj(fields: seq<(string, Json)>)

  /** Some member of `fields` is named `key`. */
  predicate HasKey(fields: seq<(string, Json)>, key: string) {
    exists i :: 0 <= i < |fields| && fields[i].0 == key
  }

  /** `v` is the value of the last member named `key`: no later member has that name. */
  predicate LastMember(fields: seq<(string, Json)>, key: string, v: Json) {
    exists i :: 0 <= i < |fields| && fields[i] == (key, v) && forall j :: i < j < |fields| ==> fields[j].0 != key
  }

  /** The value a decoded dict holds for `key`: a later duplicate member overrides an earlier one. */
  function Lookup(fields: seq<(string, Json)>, key: string): (r: Option<Json>)
    ensures r.Some? <==> HasKey(fields, key)
    ensures r.Some? ==> (key, r.value) in fields
    ensures r.Some? ==> LastMember(fields, key, r.value)
  {
    if |fields| == 0 then None
    else if fields[|fields| - 1].0 == key then
      assert fields[|fields| - 1] == (key, fields[|fields| - 1].1);
      Some(fields[|fields| - 1].1)
    else
      var prior := fields[..|fields| - 1];
      var r := Lookup(prior, key);
      assert forall i :: 0 <= i < |fields| - 1 ==> prior[i] == fields[i];
      assert r.Some? ==> LastMember(fields, key, r.value) by {
        if r.Some? {
          var i :| 0 <= i < |prior| && prior[i] == (key, r.value) && forall j :: i < j < |prior| ==> prior[j].0 != key;
          assert fields[i] == (key, r.value);
        }
      }
      r
  }

  /** The index of the first member named `key`, or `|fields|` when there is none. */
  function FirstPos(fields: seq<(string, Json)>, key: string): (p: nat)
    ensures p <= |fields|
    ensures p < |fields| <==> HasKey(fields, key)
    ensures p < |fields| ==> fields[p].0 == key
    ensures forall q :: 0 <= q < p && q < |fields| ==> fields[q].0 != key
  {
    if |fields| == 0 then 0
    else
      var prior := fields[..|fields| - 1];
      var p := FirstPos(prior, key);
      assert forall i :: 0 <= i < |fields| - 1 ==> prior[i] == fields[i];
      if p < |prior| then p else if fields[|fields| - 1].0 == key then |fields| - 1 else |fields|
  }

  predicate DistinctKeys(fields: seq<(string, Json)>) {
    forall i, j :: 0 <= i < j < |fields| ==> fields[i].0 != fields[j].0
  }

  /** The keys a decoded dict yields when iterated: each name once, in order of first appearance. */
  function DictKeys(fields: seq<(string, Json)>): (r: seq<string>)
    ensures forall k :: k in r <==> HasKey(fields, k)
    ensures forall i, j :: 0 <= i < j < |r| ==> r[i] != r[j]
    ensures forall i, j :: 0 <= i < j < |r| ==> FirstPos(fields, r[i]) < FirstPos(fields, r[j])
  {
    if |fields| == 0 then []
    else
      var prior := DictKeys(fields[..|fields| - 1]);
      var k := fields[|fields| - 1].0;
      assert forall i :: 0 <= i < |fields| - 1 ==> fields[..|fields| - 1][i] == fields[i];
      assert forall i :: 0 <= i < |prior| ==>
        FirstPos(fields, prior[i]) == FirstPos(fields[..|fields| - 1], prior[i]) < |fields| - 1;
      if k in prior then prior
      else
        assert FirstPos(fields, k) == |fields| - 1;
        prior + [k]
  }

  /** Python truthiness of a decoded value (`bool(v)`). */
  predicate Truthy(j: Json) {
    match j
    case JNull => false
    case JBool(b) => b
    case JInt(n) => n != 0
    case JStr(s) => s != ""
    case JArr(items) => items != []
    case JObj(fields) => fields != []
  }
}
