/**
 * The dynamically typed values the Python code inspects: JSON-like payloads
 * (LegiScan and Congress.gov responses, raw_api_response, analysis dicts).
 * A dict is its entries in insertion order with distinct keys.
 */
module PyValue {
  import opened Wrappers
  import Text
  import opened Bytes

  datatype Value =
    | PyNone
    | PyBool(b: bool)
    | PyInt(i: int)
    | PyStr(s: string)
    | PyBytes(bytes: seq<Byte>)
    | PyList(items: seq<Value>)
    | PyDict(entries: seq<(string, Value)>)
    | PyOther(text: string)

  /** bool(v). A value of a type the model does not enumerate (a float, an object) is taken as truthy. */
  predicate Truthy(v: Value)
  {
    match v
    case PyNone => false
    case PyBool(b) => b
    case PyInt(i) => i != 0
    case PyStr(s) => s != []
    case PyBytes(bs) => bs != []
    case PyList(xs) => xs != []
    case PyDict(es) => es != []
    case PyOther(_) => true
  }

  /** The keys of the dict, in insertion order. */
  function Keys(es: seq<(string, Value)>): (ks: seq<string>)
    ensures |ks| == |es|
    ensures forall i :: 0 <= i < |es| ==> ks[i] == es[i].0
  {
    if |es| == 0 then [] else [es[0].0] + Keys(es[1..])
  }

  predicate HasKey(es: seq<(string, Value)>, k: string)
  {
    k in Keys(es)
  }

  /** d.get(k): the value stored under the first entry with key k, if any. */
  function Get(es: seq<(string, Value)>, k: string): Option<Value>
  {
    if |es| == 0 then None
    else if es[0].0 == k then Some(es[0].1)
    else Get(es[1..], k)
  }

  /** d.get(k) finds a value exactly when k is a key, and the value is stored under k. */
  lemma {:induction false} GetFindsKey(es: seq<(string, Value)>, k: string)
    ensures Get(es, k).Some? <==> HasKey(es, k)
    ensures Get(es, k).Some? ==> (k, Get(es, k).value) in es
  {
    if |es| > 0 {
      assert Keys(es) == [es[0].0] + Keys(es[1..]);
      GetFindsKey(es[1..], k);
    }
  }

  /** d.get(k, default). */
  function GetOr(es: seq<(string, Value)>, k: string, default: Value): Value
  {
    Get(es, k).GetOr(default)
  }

  /** d[k] = v: overwrites in place when k is present, otherwise appends. */
  function Set(es: seq<(string, Value)>, k: string, v: Value): (r: seq<(string, Value)>)
    ensures Keys(r) == if HasKey(es, k) then Keys(es) else Keys(es) + [k]
  {
    if |es| == 0 then [(k, v)]
    else if es[0].0 == k then [(k, v)] + es[1..]
    else
      assert Keys(es) == [es[0].0] + Keys(es[1..]);
      var t := Set(es[1..], k, v);
      assert Keys([es[0]] + t) == [es[0].0] + Keys(t);
      [es[0]] + t
  }

  /** After d[k] = v, d[k] is v and every other key keeps its value. */
  lemma {:induction false} GetSet(es: seq<(string, Value)>, k: string, v: Value, k2: string)
    ensures Get(Set(es, k, v), k2) == if k2 == k then Some(v) else Get(es, k2)
    decreases |es|
  {
    if |es| > 0 && es[0].0 != k {
      GetSet(es[1..], k, v, k2);
    }
  }

  /** type(v).__name__. */
  function TypeName(v: Value): string
  {
    match v
    case PyNone => "NoneType"
    case PyBool(_) => "bool"
    case PyInt(_) => "int"
    case PyStr(_) => "str"
    case PyBytes(_) => "bytes"
    case PyList(_) => "list"
    case PyDict(_) => "dict"
    case PyOther(_) => "object"
  }

  /** str(v). Strings inside containers are shown between single quotes, without Python's escaping. */
  function Str(v: Value): string
  {
    match v
    case PyStr(s) => s
    case _ => Repr(v)
  }

  function Repr(v: Value): string
    decreases v, 1
  {
    match v
    case PyNone => "None"
    case PyBool(b) => if b then "True" else "False"
    case PyInt(i) => Text.IntToString(i)
    case PyStr(s) => "'" + s + "'"
    case PyBytes(bs) => "b'" + Latin1Decode(bs) + "'"
    case PyList(xs) => "[" + ReprItems(v, xs) + "]"
    case PyDict(es) => "{" + ReprEntries(v, es) + "}"
    case PyOther(t) => t
  }

  /** The items of the list `whole`, a suffix of whose items is xs. */
  function ReprItems(whole: Value, xs: seq<Value>): string
    requires forall x :: x in xs ==> x < whole
    decreases whole, 0, |xs|
  {
    if |xs| == 0 then ""
    else
      assert xs[0] in xs;
      assert forall x :: x in xs[1..] ==> x in xs;
      if |xs| == 1 then Repr(xs[0]) else Repr(xs[0]) + ", " + ReprItems(whole, xs[1..])
  }

  /** The entries of the dict `whole`, a suffix of whose entries is es. */
  function ReprEntries(whole: Value, es: seq<(string, Value)>): string
    requires forall e :: e in es ==> e.1 < whole
    decreases whole, 0, |es|
  {
    if |es| == 0 then ""
    else
      assert es[0] in es;
      assert forall e :: e in es[1..] ==> e in es;
      var e := "'" + es[0].0 + "': " + Repr(es[0].1);
      if |es| == 1 then e else e + ", " + ReprEntries(whole, es[1..])
  }
}
