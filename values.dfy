/**
 * The JSON-like dynamic values the backend passes around in its
 * `Dict[str, Any]` payloads, with Python's truthiness and its numeric test
 * `isinstance(x, (int, float))` (which `bool` passes).
 */
module Values {
  import opened Wrappers
  import opened Dicts

  datatype Value =
    | VNone
    | VBool(b: bool)
    | VInt(i: int)
    | VReal(r: real)
    | VStr(s: string)
    | VList(items: seq<Value>)
    | VDict(d: Dict<string, Value>)

  /** A `Dict[str, Any]` payload. */
  type Obj = Dict<string, Value>

  /** `bool(v)` */
  predicate Truthy(v: Value) {
    match v
    case VNone => false
    case VBool(b) => b
    case VInt(i) => i != 0
    case VReal(r) => r != 0.0
    case VStr(s) => s != ""
    case VList(items) => items != []
    case VDict(d) => d.m != map[]
  }

  /** `bool(d)` for a dict. */
  predicate TruthyObj(d: Obj) {
    d.m != map[]
  }

  /** `isinstance(v, (int, float))` */
  predicate IsNumber(v: Value) {
    v.VBool? || v.VInt? || v.VReal?
  }

  /** The arithmetic value of a number (`True` is 1). */
  function AsReal(v: Value): real
    requires IsNumber(v)
  {
    match v
    case VBool(b) => if b then 1.0 else 0.0
    case VInt(i) => i as real
    case VReal(r) => r
  }

  /** A string field of a payload; a missing or non-string value is `None`. */
  function GetStr(d: Obj, k: string): (r: Option<string>)
    ensures r.Some? <==> k in d.m && d.m[k].VStr?
  {
    if k in d.m && d.m[k].VStr? then Some(d.m[k].s) else None
  }

  /** A dict field of a payload; a missing or non-dict value is `None`. */
  function GetObj(d: Obj, k: string): (r: Option<Obj>)
    ensures r.Some? <==> k in d.m && d.m[k].VDict?
  {
    if k in d.m && d.m[k].VDict? then Some(d.m[k].d) else None
  }

  /** A list-of-strings field; non-string elements are dropped. */
  function GetStrList(d: Obj, k: string): (r: seq<string>)
    ensures k !in d.m ==> r == []
  {
    if k in d.m && d.m[k].VList? then Strs(d.m[k].items) else []
  }

  function Strs(vs: seq<Value>): (r: seq<string>)
    ensures |r| <= |vs|
    ensures (forall i :: 0 <= i < |vs| ==> vs[i].VStr?) ==> |r| == |vs| && forall i :: 0 <= i < |vs| ==> r[i] == vs[i].s
  {
    if vs == [] then []
    else (if vs[0].VStr? then [vs[0].s] else []) + Strs(vs[1..])
  }

  function StrList(ss: seq<string>): (r: seq<Value>)
    ensures |r| == |ss| && forall i :: 0 <= i < |ss| ==> r[i] == VStr(ss[i])
  {
    if ss == [] then [] else [VStr(ss[0])] + StrList(ss[1..])
  }

  /** A dict literal `{k1: v1, ..., kn: vn}` with distinct keys, in order. */
  function FromPairs(ps: seq<(string, Value)>): (r: Obj)
    ensures forall i :: 0 <= i < |ps| ==> ps[i].0 in r.m
  {
    if ps == [] then Empty() else FromPairs(ps[..|ps| - 1]).Put(ps[|ps| - 1].0, ps[|ps| - 1].1)
  }
}
