/** The Python services the tool layer relies on: decoding and encoding JSON, `str()` of a value,
    `hash`, `str()` of an exception, and the dict and iteration operations the wrappers apply to
    decoded values and to client replies. Library internals are parameters (`Runtime`); the
    operations the wrappers perform on values are spelled out, exceptions included. */
module Py {
  import opened Wrappers
  import opened JsonValues
  import opened Models

  /** The exceptions that can reach a wrapper's `except` clauses. */
  datatype Exc =
    | DecodeError                                   // json.JSONDecodeError
    | Validation(model: string, error: SchemaError) // building a Pydantic record failed
    | NoAttribute(attribute: string)                // AttributeError: `.get` on a value that is not a dict
    | NotSubscriptable                              // TypeError: `v[key]` on a value that is not a dict
    | KeyError(key: string)                         // `d[key]` with `key` absent
    | NotIterable                                   // TypeError: iterating a number, a bool or None
    | Unhashable                                    // TypeError: a list or dict used as a dict key
    | IndexError                                    // a list index out of range
    | Raised(message: string)                       // whatever a remote tool call raises itself

  /** The library functions the model does not open up. `loads` answers None exactly when
      `json.loads` raises JSONDecodeError; `repr` is `str()` of a value that is not a string;
      `hash` is the decimal text of Python's per-process `hash` of a string; `explain` is `str(e)`. */
  datatype Runtime = Runtime(
    loads: string -> Option<Json>,
    dumps: Json -> string,
    repr: Json -> string,
    hash: string -> string,
    explain: Exc -> string)

  /** `json.loads(text)`. */
  function Loads(rt: Runtime, text: string): (r: Result<Json, Exc>)
    ensures r.Failure? <==> rt.loads(text).None?
    ensures r.Failure? ==> r.error == DecodeError
  {
    match rt.loads(text)
    case None => Failure(DecodeError)
    case Some(j) => Success(j)
  }

  /** `str(v)`, which is what an f-string splices in. */
  function Str(rt: Runtime, v: Json): string {
    if v.JStr? then v.s else rt.repr(v)
  }

  /** `v.get(name, default)`. */
  function GetOr(v: Json, name: string, default: Json): (r: Result<Json, Exc>)
    ensures r.Failure? <==> !v.JObj?
    ensures r.Success? ==> r.value == if Field(v, name).Some? then Field(v, name).value else default
  {
    if !v.JObj? then Failure(NoAttribute("get"))
    else
      match Lookup(v.members, name)
      case Some(x) => Success(x)
      case None => Success(default)
  }

  /** `v.get(name)`: None (here JNull) when absent. */
  function Get(v: Json, name: string): Result<Json, Exc> {
    GetOr(v, name, JNull)
  }

  /** `v[name]`. */
  function Index(v: Json, name: string): (r: Result<Json, Exc>)
    ensures r.Success? <==> Field(v, name).Some?
    ensures r.Success? ==> r.value == Field(v, name).value
    ensures v.JObj? && Field(v, name).None? ==> r == Failure(KeyError(name))
  {
    if !v.JObj? then Failure(NotSubscriptable)
    else
      match Lookup(v.members, name)
      case Some(x) => Success(x)
      case None => Failure(KeyError(name))
  }

  /** The items a `for` loop over `v` visits: a list's elements, a dict's keys, a string's characters. */
  function Iterate(v: Json): (r: Result<seq<Json>, Exc>)
    ensures r.Failure? <==> !(v.JArr? || v.JObj? || v.JStr?)
    ensures v.JArr? ==> r == Success(v.items)
    ensures v.JStr? ==>
      r.Success? && |r.value| == |v.s| && forall i :: 0 <= i < |v.s| ==> r.value[i] == JStr([v.s[i]])
  {
    match v
    case JArr(items) => Success(items)
    case JObj(members) =>
      var names := Names(members);
      Success(seq(|names|, i requires 0 <= i < |names| => JStr(names[i])))
    case JStr(s) => Success(seq(|s|, i requires 0 <= i < |s| => JStr([s[i]])))
    case _ => Failure(NotIterable)
  }

  /** A `for` loop over `xs` whose body computes `f(x)` and may raise: the results in order, or the
      exception of the first item whose body raises. */
  function ForEach<A, B(==), E>(f: A -> Result<B, E>, xs: seq<A>): (r: Result<seq<B>, E>)
    ensures r.Success? <==> forall i :: 0 <= i < |xs| ==> f(xs[i]).Success?
    ensures r.Success? ==> |r.value| == |xs| && forall i :: 0 <= i < |xs| ==> r.value[i] == f(xs[i]).value
    decreases |xs|
  {
    if xs == [] then Success([])
    else
      var init :- ForEach(f, xs[..|xs| - 1]);
      var last :- f(xs[|xs| - 1]);
      Success(init + [last])
  }

  /** The loop raises the exception of the first item whose body raises. */
  lemma {:induction false} ForEachFirstFailure<A, B, E>(f: A -> Result<B, E>, xs: seq<A>, k: nat)
    requires k < |xs| && f(xs[k]).Failure?
    requires forall m :: 0 <= m < k ==> f(xs[m]).Success?
    ensures ForEach(f, xs) == Failure(f(xs[k]).error)
    decreases |xs|
  {
    var init := xs[..|xs| - 1];
    if k < |xs| - 1 {
      ForEachFirstFailure(f, init, k);
    } else {
      assert forall m :: 0 <= m < |init| ==> f(init[m]).Success?;
    }
  }
}
