/** Decoded JSON documents, as Python's `json` decoder hands them to the pipeline, and the
    two dictionary operations the pipeline applies to them: `key in data` and `data.get(key, default)`. */
module Json {
  import opened Wrappers

  /** Objects keep document order, which is the iteration order of the decoded dict. */
  datatype Value =
    | Null
    | Bool(b: bool)
    | Int(i: int)
    | Float(r: real)
    | Str(s: string)
    | Array(items: seq<Value>)
    | Object(fields: seq<(string, Value)>)

  predicate HasKey(fields: seq<(string, Value)>, key: string) {
    exists i | 0 <= i < |fields| :: fields[i].0 == key
  }

  /** `dict.get(key, default)`. */
  function Get(fields: seq<(string, Value)>, key: string, default: Value): (v: Value)
    ensures !HasKey(fields, key) ==> v == default
  {
    if |fields| == 0 then default
    else if fields[0].0 == key then fields[0].1
    else Get(fields[1..], key, default)
  }

  /** What `get` returns for a present key is the value of one of its entries. */
  lemma {:induction false} GetFound(fields: seq<(string, Value)>, key: string, default: Value)
    ensures HasKey(fields, key) ==> exists i | 0 <= i < |fields| :: fields[i] == (key, Get(fields, key, default))
    decreases |fields|
  {
    if |fields| > 0 && fields[0].0 != key && HasKey(fields, key) {
      var v := Get(fields, key, default);
      var k :| 0 <= k < |fields| && fields[k].0 == key;
      assert fields[1..][k - 1].0 == key;
      GetFound(fields[1..], key, default);
      var i :| 0 <= i < |fields[1..]| && fields[1..][i] == (key, v);
      assert fields[i + 1] == (key, v);
    }
  }

  /** `get` finds the first entry carrying the key. */
  lemma {:induction false} GetFirstMatch(fields: seq<(string, Value)>, key: string, default: Value, i: nat)
    requires i < |fields| && fields[i].0 == key
    requires forall j | 0 <= j < i :: fields[j].0 != key
    ensures Get(fields, key, default) == fields[i].1
    decreases i
  {
    if i > 0 {
      assert fields[0].0 != key;
      GetFirstMatch(fields[1..], key, default, i - 1);
    }
  }

  predicate IsInfix(needle: string, hay: string) {
    exists i | 0 <= i <= |hay| :: needle <= hay[i..]
  }

  /** Python's `key in data`: key membership for a dict, element membership for a list,
      substring for a str, and a `TypeError` for every other value. */
  function Contains(data: Value, key: string): (r: Outcome<bool>)
    ensures r.Return? <==> data.Object? || data.Array? || data.Str?
    ensures data.Object? ==> r == Return(HasKey(data.fields, key))
  {
    match data
    case Object(fields) => Return(HasKey(fields, key))
    case Array(items) => Return(Str(key) in items)
    case Str(s) => Return(IsInfix(key, s))
    case _ => Raise(TypeError)
  }
}
