/** Values shared by every part of the model: an optional value, the JSON
    values the configuration file can hold, and Python's truthiness test on
    the values the source tests with a bare `if`. */
module Base {

  datatype Option<+T> = None | Some(value: T)

  /** A JSON value as `json.load` hands it to the application. `Null` is
      Python's `None`; arrays, objects and floating-point numbers are not
      part of this model. */
  datatype Value = Null | Bool(b: bool) | Num(n: int) | Str(s: string)

  /** Python's `bool(v)` on a JSON value. */
  predicate Truthy(v: Value) {
    match v
    case Null => false
    case Bool(b) => b
    case Num(n) => n != 0
    case Str(s) => s != ""
  }

  /** Python's `bool(x)` on an `Optional[str]`. */
  predicate Present(x: Option<string>) {
    x.Some? && x.value != ""
  }

  /** The string inside a JSON value, if it is a string. */
  function AsString(v: Value): (r: Option<string>)
    ensures r.Some? <==> v.Str?
    ensures Present(r) <==> v.Str? && Truthy(v)
  {
    if v.Str? then Some(v.s) else None
  }

  /** `d.get(key)` on a dictionary: an absent key reads as `None`. */
  function Lookup(m: map<string, Value>, key: string): (r: Value)
    ensures key !in m ==> r == Null
    ensures key in m ==> r == m[key]
  {
    if key in m then m[key] else Null
  }

  /** The first position that holds. */
  function FirstTrue(m: seq<bool>): (r: Option<nat>)
    ensures r.Some? ==> r.value < |m| && m[r.value] && forall j :: 0 <= j < r.value ==> !m[j]
    ensures r.None? <==> forall j :: 0 <= j < |m| ==> !m[j]
  {
    if m == [] then None
    else
      var p := FirstTrue(m[..|m| - 1]);
      if p.Some? then p
      else if m[|m| - 1] then Some(|m| - 1)
      else None
  }

  /** The last position that holds. */
  function LastTrue(m: seq<bool>): (r: Option<nat>)
    ensures r.Some? ==> r.value < |m| && m[r.value] && forall j :: r.value < j < |m| ==> !m[j]
    ensures r.None? <==> forall j :: 0 <= j < |m| ==> !m[j]
  {
    if m == [] then None
    else if m[|m| - 1] then Some(|m| - 1)
    else LastTrue(m[..|m| - 1])
  }

  /** Extending a prefix by one position: the first hit stays, or the new
      position becomes it. */
  lemma FirstTrueStep(m: seq<bool>, i: nat)
    requires i < |m|
    ensures FirstTrue(m[..i + 1]) ==
      if FirstTrue(m[..i]).Some? then FirstTrue(m[..i]) else if m[i] then Some(i) else None
  {
    assert m[..i + 1][..i] == m[..i];
  }

  /** Extending a prefix by one position: the new position wins when it holds. */
  lemma LastTrueStep(m: seq<bool>, i: nat)
    requires i < |m|
    ensures LastTrue(m[..i + 1]) == if m[i] then Some(i) else LastTrue(m[..i])
  {
    assert m[..i + 1][..i] == m[..i];
  }

  /** A position that holds after a prefix where nothing holds is the first. */
  lemma FirstTrueAt(m: seq<bool>, i: nat)
    requires i < |m| && m[i] && FirstTrue(m[..i]).None?
    ensures FirstTrue(m) == Some(i)
  {
    assert forall j :: 0 <= j < i ==> !m[..i][j];
  }
}
