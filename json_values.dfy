/** JSON values as `json.loads` hands them to Python code, and the Python-dict reading of objects. */
module JsonValues {
  import opened Wrappers

  /** A decoded JSON document. An object keeps its members in document order, duplicates included;
      numbers are integers (JSON fractions and exponents are not modelled). */
  datatype Json =
    | JNull
    | JBool(b: bool)
    | JNum(n: int)
    | JStr(s: string)
    | JArr(items: seq<Json>)
    | JObj(members: seq<(string, Json)>)

  /** The value a Python dict built from `members` holds under `name`: the last binding wins. */
  function Lookup(members: seq<(string, Json)>, name: string): (r: Option<Json>)
    ensures r.None? <==> forall i :: 0 <= i < |members| ==> members[i].0 != name
    ensures r.Some? ==>
      exists i :: 0 <= i < |members| && members[i] == (name, r.value) &&
        forall k :: i < k < |members| ==> members[k].0 != name
    decreases |members|
  {
    if members == [] then None
    else if members[|members| - 1].0 == name then Some(members[|members| - 1].1)
    else Lookup(members[..|members| - 1], name)
  }

  /** `d.get(name)` on a dict, or None when the value is not an object. */
  function Field(j: Json, name: string): Option<Json> {
    if j.JObj? then Lookup(j.members, name) else None
  }

  /** The keys of the dict built from `members`, each once, at the position of its first binding. */
  function Names(members: seq<(string, Json)>): (r: seq<string>)
    ensures forall n :: n in r <==> exists i :: 0 <= i < |members| && members[i].0 == n
    ensures forall i, k :: 0 <= i < k < |r| ==> r[i] != r[k]
    decreases |members|
  {
    if members == [] then []
    else
      var init := Names(members[..|members| - 1]);
      var last := members[|members| - 1].0;
      if last in init then init else init + [last]
  }

  /** Python truthiness of the decoded value. */
  predicate Truthy(j: Json) {
    match j
    case JNull => false
    case JBool(b) => b
    case JNum(n) => n != 0
    case JStr(s) => s != []
    case JArr(items) => items != []
    case JObj(members) => members != []
  }

  /** In an object whose names are all different, each member is what the dict holds under its name. */
  lemma {:induction false} LookupDistinct(members: seq<(string, Json)>, i: nat)
    requires i < |members|
    requires forall k :: 0 <= k < |members| && k != i ==> members[k].0 != members[i].0
    ensures Lookup(members, members[i].0) == Some(members[i].1)
    decreases |members|
  {
    if i < |members| - 1 {
      LookupDistinct(members[..|members| - 1], i);
    }
  }

  lemma {:induction false} LookupAppendOther(members: seq<(string, Json)>, name: string, v: Json, other: string)
    requires name != other
    ensures Lookup(members + [(name, v)], other) == Lookup(members, other)
  {
    assert (members + [(name, v)])[..|members|] == members;
  }
}
