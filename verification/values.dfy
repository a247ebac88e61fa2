/** Python values as they cross the tool boundary: the JSON-like dictionaries,
    lists and scalars that the tool server builds and the client inspects,
    with the few Python operations on them that the code relies on
    (truthiness, `dict.get`, `or`, and a comprehension over a list of dicts). */
module Values {

  /** The outcome of a Python call: the value it returned, or the message of
      the exception it raised. */
  datatype Outcome<+T> = Returned(value: T) | Raised(message: string)

  datatype Option<+T> = None | Some(value: T)

  datatype Value =
    | Null                        // None
    | Bool(b: bool)
    | Int(i: int)
    | Str(s: string)
    | List(items: seq<Value>)
    | Dict(fields: map<string, Value>)

  /** A Python `dict` with string keys. */
  type Mapping = map<string, Value>

  /** `bool(v)` */
  predicate Truthy(v: Value) {
    match v
    case Null => false
    case Bool(b) => b
    case Int(i) => i != 0
    case Str(s) => s != ""
    case List(items) => items != []
    case Dict(fields) => fields != map[]
  }

  /** `d.get(key, default)` */
  function Get(d: Mapping, key: string, default: Value): Value {
    if key in d then d[key] else default
  }

  /** `a or b` */
  function Or(a: Value, b: Value): Value {
    if Truthy(a) then a else b
  }

  /** `type(v).__name__` */
  function TypeName(v: Value): string {
    match v
    case Null => "NoneType"
    case Bool(_) => "bool"
    case Int(_) => "int"
    case Str(_) => "str"
    case List(_) => "list"
    case Dict(_) => "dict"
  }

  /** The message of the AttributeError that `v.get(...)` raises when `v` is
      not a dict. */
  function NoGetMessage(v: Value): string {
    "'" + TypeName(v) + "' object has no attribute 'get'"
  }

  predicate AllDicts(items: seq<Value>) {
    forall i :: 0 <= i < |items| ==> items[i].Dict?
  }

  /** `[f(r) for r in items]` where `f` begins by calling `r.get`: the
      comprehension maps every element in order, and the first element that
      is not a dict aborts it with an AttributeError. */
  function MapDicts<T>(items: seq<Value>, f: Mapping -> T): (r: Outcome<seq<T>>)
    ensures r.Returned? <==> AllDicts(items)
    ensures r.Returned? ==> |r.value| == |items|
    ensures r.Returned? ==> forall i :: 0 <= i < |items| ==> r.value[i] == f(items[i].fields)
  {
    if items == [] then Returned([])
    else if !items[0].Dict? then Raised(NoGetMessage(items[0]))
    else
      match MapDicts(items[1..], f)
      case Raised(m) => Raised(m)
      case Returned(rest) => Returned([f(items[0].fields)] + rest)
  }

  /** A failed comprehension reports the first element that is not a dict. */
  lemma {:induction false} MapDictsFailsAtFirst<T>(items: seq<Value>, f: Mapping -> T)
    requires MapDicts(items, f).Raised?
    ensures exists k :: 0 <= k < |items| && !items[k].Dict? && AllDicts(items[..k])
                        && MapDicts(items, f).message == NoGetMessage(items[k])
  {
    if items[0].Dict? {
      MapDictsFailsAtFirst(items[1..], f);
      var k :| 0 <= k < |items[1..]| && !items[1..][k].Dict? && AllDicts(items[1..][..k])
               && MapDicts(items[1..], f).message == NoGetMessage(items[1..][k]);
      assert items[..k + 1] == [items[0]] + items[1..][..k];
      assert 0 <= k + 1 < |items| && !items[k + 1].Dict? && AllDicts(items[..k + 1]);
    } else {
      assert AllDicts(items[..0]);
    }
  }
}
