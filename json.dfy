/** The JSON values that the records' `toJSON` methods produce and `fromJSON` reads back. */
module Json {
  import opened Wrappers
  import Seqs

  /** A JSON value; an object keeps its properties in insertion order. */
  datatype Value =
    | Null
    | Bool(b: bool)
    | Num(n: real)
    | Str(s: string)
    | Arr(elems: seq<Value>)
    | Obj(fields: seq<(string, Value)>)

  /** The property names of an object, in order. */
  function Keys(fields: seq<(string, Value)>): (ks: seq<string>)
    ensures |ks| == |fields|
    ensures forall i :: 0 <= i < |fields| ==> ks[i] == fields[i].0
  {
    if fields == [] then [] else Keys(fields[..|fields| - 1]) + [fields[|fields| - 1].0]
  }

  /** The value bound to `key`; `None` stands for `undefined`. A later binding shadows an
      earlier one, as when a JSON text with a repeated key is parsed. */
  function Lookup(fields: seq<(string, Value)>, key: string): (r: Option<Value>)
    ensures r.None? <==> key !in Keys(fields)
  {
    if fields == [] then None
    else if fields[|fields| - 1].0 == key then Some(fields[|fields| - 1].1)
    else
      assert Keys(fields) == Keys(fields[..|fields| - 1]) + [fields[|fields| - 1].0];
      Lookup(fields[..|fields| - 1], key)
  }

  /** A binding that no later binding shadows is the one `Lookup` finds. */
  lemma {:induction false} LookupAt(fields: seq<(string, Value)>, k: nat)
    requires k < |fields|
    requires forall j :: k < j < |fields| ==> fields[j].0 != fields[k].0
    ensures Lookup(fields, fields[k].0) == Some(fields[k].1)
  {
    if k < |fields| - 1 {
      LookupAt(fields[..|fields| - 1], k);
    }
  }

  /** In an object whose property names are all different, each property is found. */
  lemma LookupDistinct(fields: seq<(string, Value)>, k: nat)
    requires k < |fields| && Seqs.NoDuplicates(Keys(fields))
    ensures Lookup(fields, fields[k].0) == Some(fields[k].1)
  {
    var ks := Keys(fields);
    forall j | k < j < |fields| ensures fields[j].0 != fields[k].0 {
      assert ks[j] == fields[j].0 && ks[k] == fields[k].0;
    }
    LookupAt(fields, k);
  }

  /** Property access `data.key`: `undefined` unless `data` is an object holding `key`. */
  function Get(v: Value, key: string): Option<Value>
  {
    if v.Obj? then Lookup(v.fields, key) else None
  }

  /** `data.key` where a string is expected. */
  function GetStr(v: Value, key: string): Option<string>
  {
    match Get(v, key)
    case Some(Str(s)) => Some(s)
    case _ => None
  }

  /** `data.key` where a number is expected. */
  function GetNum(v: Value, key: string): Option<real>
  {
    match Get(v, key)
    case Some(Num(n)) => Some(n)
    case _ => None
  }
}
