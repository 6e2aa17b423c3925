/**
 * The resolved parameters block a step reads from the pipeline context, and the
 * few Python behaviours of its values that the validators depend on.
 */
module Context {
  import opened Wrappers

  /** A context value after template resolution: the shapes a YAML pipeline yields. */
  datatype Value =
    | VStr(s: string)
    | VBool(b: bool)
    | VInt(i: int)
    | VNone
    | VList(items: seq<Value>)
    | VMap(entries: seq<(string, Value)>)

  /** No key occurs twice, as in any Python dict. */
  predicate DistinctKeys(entries: seq<(string, Value)>)
  {
    forall i, j :: 0 <= i < j < |entries| ==> entries[i].0 != entries[j].0
  }

  /** A parameters block: a dict, its entries in insertion (iteration) order. */
  type Block = b: seq<(string, Value)> | DistinctKeys(b) witness []

  /** The keys in iteration order, what `for key in block` visits. */
  function Keys(entries: seq<(string, Value)>): seq<string>
  {
    seq(|entries|, i requires 0 <= i < |entries| => entries[i].0)
  }

  /** `block[k]` when `k in block`. */
  function Lookup(entries: seq<(string, Value)>, k: string): (r: Option<Value>)
    ensures r.None? <==> k !in Keys(entries)
    ensures r.Some? ==> exists i :: 0 <= i < |entries| && entries[i] == (k, r.value)
  {
    if entries == [] then None
    else
      assert Keys(entries) == [entries[0].0] + Keys(entries[1..]);
      if entries[0].0 == k then Some(entries[0].1)
      else
        var r := Lookup(entries[1..], k);
        assert r.Some? ==> exists i :: 0 <= i < |entries[1..]| && entries[1..][i] == (k, r.value);
        assert r.Some? ==> exists i :: 0 < i < |entries| && entries[i] == (k, r.value);
        r
  }

  /** The value a dataclass field receives from `Params(**block)`: the entry if present, else the field default. */
  function Get(entries: seq<(string, Value)>, k: string, default: Value): Value
  {
    match Lookup(entries, k)
    case Some(v) => v
    case None => default
  }

  /**
   * What Python's iteration protocol yields for a value: the one-character strings
   * of a str, the elements of a list, the keys of a dict; None when iter() raises TypeError.
   */
  function Iterate(v: Value): Option<seq<Value>>
  {
    match v
    case VStr(s) => Some(seq(|s|, i requires 0 <= i < |s| => VStr([s[i]])))
    case VList(items) => Some(items)
    case VMap(entries) => Some(seq(|entries|, i requires 0 <= i < |entries| => VStr(entries[i].0)))
    case _ => None
  }

  /** The strings held by `items` when every one is a str, else None. */
  function StringsOf(items: seq<Value>): (r: Option<seq<string>>)
    ensures r.Some? <==> forall i :: 0 <= i < |items| ==> items[i].VStr?
    ensures r.Some? ==> |r.value| == |items| && forall i :: 0 <= i < |items| ==> items[i] == VStr(r.value[i])
  {
    if items == [] then Some([])
    else if !items[0].VStr? then None
    else
      match StringsOf(items[1..])
      case None => None
      case Some(rest) => Some([items[0].s] + rest)
  }
}
