/**
 * Values produced by `json.loads` and the metadata dictionaries built from them.
 * A Python dict is an association list in insertion order; a key is looked up
 * at its first occurrence, which is the dict's only occurrence when keys are distinct.
 */
module JsonValues {
  import opened Wrappers
  import opened Text

  datatype Json =
    | JNull
    | JBool(b: bool)
    | JInt(i: int)
    | JFloat(repr: string)   // a Python float, carried as the text `repr` gives it
    | JStr(s: string)
    | JArray(items: seq<Json>)
    | JObject(fields: seq<(string, Json)>)

  type Dict = seq<(string, Json)>

  function Keys(d: Dict): (ks: seq<string>)
    ensures |ks| == |d|
    ensures forall i :: 0 <= i < |d| ==> ks[i] == d[i].0
  {
    if d == [] then [] else [d[0].0] + Keys(d[1..])
  }

  predicate HasKey(d: Dict, k: string) {
    k in Keys(d)
  }

  predicate Distinct(ks: seq<string>) {
    forall i, j :: 0 <= i < j < |ks| ==> ks[i] != ks[j]
  }

  /** The shape of a Python dict: each key once. */
  predicate DistinctKeys(d: Dict) {
    Distinct(Keys(d))
  }

  /** `d.get(k)` */
  function Get(d: Dict, k: string): (r: Option<Json>)
    ensures r.None? <==> !HasKey(d, k)
  {
    if d == [] then None
    else if d[0].0 == k then Some(d[0].1)
    else Get(d[1..], k)
  }

  /** `d.get(k, default)` */
  function GetOr(d: Dict, k: string, default: Json): Json {
    match Get(d, k)
    case Some(v) => v
    case None => default
  }

  /** `d[k] = v`: an existing key keeps its position, a new key goes last. */
  function Put(d: Dict, k: string, v: Json): (r: Dict)
    ensures Get(r, k) == Some(v)
  {
    if d == [] then [(k, v)]
    else if d[0].0 == k then [(k, v)] + d[1..]
    else [d[0]] + Put(d[1..], k, v)
  }

  /** A value found by `Get` is an entry of the dict under that key. */
  lemma {:induction false} GetFound(d: Dict, k: string)
    requires HasKey(d, k)
    ensures exists i :: 0 <= i < |d| && d[i] == (k, Get(d, k).value)
  {
    if d[0].0 != k {
      GetFound(d[1..], k);
      var i :| 0 <= i < |d[1..]| && d[1..][i] == (k, Get(d[1..], k).value);
      assert d[i + 1] == d[1..][i];
    }
  }

  /** Assigning one key leaves every other key's lookup alone. */
  lemma {:induction false} PutOther(d: Dict, k: string, v: Json, k': string)
    requires k' != k
    ensures Get(Put(d, k, v), k') == Get(d, k')
  {
    if d != [] && d[0].0 != k {
      PutOther(d[1..], k, v, k');
    }
  }

  /** Assigning a key keeps the key order and a new key is appended. */
  lemma {:induction false} PutKeys(d: Dict, k: string, v: Json)
    ensures HasKey(d, k) ==> Keys(Put(d, k, v)) == Keys(d)
    ensures !HasKey(d, k) ==> Keys(Put(d, k, v)) == Keys(d) + [k]
  {
    if d != [] {
      assert Keys(d) == [d[0].0] + Keys(d[1..]);
      if d[0].0 != k {
        PutKeys(d[1..], k, v);
        assert Keys(Put(d, k, v)) == [d[0].0] + Keys(Put(d[1..], k, v));
      } else {
        assert Keys(Put(d, k, v)) == [k] + Keys(d[1..]);
      }
    }
  }

  /** Assignment keeps a dict's keys distinct. */
  lemma PutDistinct(d: Dict, k: string, v: Json)
    requires DistinctKeys(d)
    ensures DistinctKeys(Put(d, k, v))
  {
    PutKeys(d, k, v);
  }

  /** Python truthiness. */
  predicate Truthy(v: Json) {
    match v
    case JNull => false
    case JBool(b) => b
    case JInt(i) => i != 0
    case JFloat(r) => r != "0.0" && r != "-0.0"
    case JStr(s) => s != []
    case JArray(items) => items != []
    case JObject(fields) => fields != []
  }

  /** `str(v)` */
  function PyStr(v: Json): string {
    match v
    case JStr(s) => s
    case _ => PyRepr(v)
  }

  /** `repr(v)`; strings are quoted with single quotes and not escaped. */
  function PyRepr(v: Json): string {
    match v
    case JNull => "None"
    case JBool(b) => if b then "True" else "False"
    case JInt(i) => IntToString(i)
    case JFloat(r) => r
    case JStr(s) => "'" + s + "'"
    case JArray(items) =>
      "[" + Join(seq(|items|, i requires 0 <= i < |items| => PyRepr(items[i])), ", ") + "]"
    case JObject(fields) =>
      "{" + Join(seq(|fields|, i requires 0 <= i < |fields| => "'" + fields[i].0 + "': " + PyRepr(fields[i].1)), ", ") + "}"
  }
}
