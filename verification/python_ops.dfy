/**
 The Python operations the endpoint code applies to decoded JSON:
 `data[key]`, `for item in value`, and `int(value)`, each with the exception
 Python raises when it does not apply.
 */
module PyOps {
  import opened Options
  import opened JsonData
  import opened Errors
  import Decimal

  /** `value[key]` with a string key. */
  function Subscript(value: Json, key: string): (r: Result<Json>)
    ensures r.Ok? <==> value.JObj? && HasKey(value.fields, key)
    ensures r.Ok? ==> LastMember(value.fields, key, r.value)
    ensures value.JObj? && !HasKey(value.fields, key) ==> r == Err(KeyError(key))
    ensures !value.JObj? ==> r == Err(TypeError(NotSubscriptable))
  {
    match value
    case JObj(fields) =>
      (match Lookup(fields, key)
       case Some(v) => Ok(v)
       case None => Err(KeyError(key)))
    case _ => Err(TypeError(NotSubscriptable))
  }

  /** The values `for item in value` visits: list elements, one-character strings, or dict keys. */
  function Iterate(value: Json): (r: Result<seq<Json>>)
    ensures r.Ok? <==> value.JArr? || value.JStr? || value.JObj?
    ensures r.Err? ==> r.error == TypeError(NotIterable)
    ensures value.JArr? ==> r == Ok(value.items)
    ensures value.JStr? ==> |r.value| == |value.s|
    ensures value.JStr? ==> forall i :: 0 <= i < |value.s| ==> r.value[i] == JStr([value.s[i]])
    // a dict yields each key once, as a string, in order of first appearance
    ensures value.JObj? ==> forall k :: JStr(k) in r.value <==> HasKey(value.fields, k)
    ensures value.JObj? ==> |r.value| == |DictKeys(value.fields)|
    ensures value.JObj? ==> forall i :: 0 <= i < |r.value| ==> r.value[i] == JStr(DictKeys(value.fields)[i])
  {
    match value
    case JArr(items) => Ok(items)
    case JStr(s) => Ok(seq(|s|, i requires 0 <= i < |s| => JStr([s[i]])))
    case JObj(fields) =>
      var keys := DictKeys(fields);
      var r := seq(|keys|, i requires 0 <= i < |keys| => JStr(keys[i]));
      assert forall k :: JStr(k) in r <==> k in keys by {
        forall k | JStr(k) in r ensures k in keys {
          var i :| 0 <= i < |r| && r[i] == JStr(k);
        }
        forall k | k in keys ensures JStr(k) in r {
          var i :| 0 <= i < |keys| && keys[i] == k;
          assert r[i] == JStr(k);
        }
      }
      Ok(r)
    case _ => Err(TypeError(NotIterable))
  }

  /** `int(value)`. */
  function ToInt(value: Json): (r: Result<int>)
    ensures value.JInt? ==> r == Ok(value.n)
    ensures value.JBool? ==> r == Ok(if value.b then 1 else 0)
    ensures value.JStr? ==> (r.Ok? <==> Decimal.Parse(value.s).Some?)
    ensures value.JStr? && r.Ok? ==> Decimal.Parse(value.s) == Some(r.value)
    // a string that is not a decimal literal is a ValueError; null, a list or a dict is a TypeError
    ensures r.Err? && r.error.ValueError? <==> value.JStr? && Decimal.Parse(value.s).None?
    ensures r.Err? && r.error.TypeError? <==> value.JNull? || value.JArr? || value.JObj?
    ensures r.Err? ==> r.error == if value.JStr? then ValueError(InvalidLiteral(value.s)) else TypeError(NotNumeric)
  {
    match value
    case JInt(n) => Ok(n)
    case JBool(b) => Ok(if b then 1 else 0)
    case JStr(s) =>
      (match Decimal.Parse(s)
       case Some(n) => Ok(n)
       case None => Err(ValueError(InvalidLiteral(s))))
    case _ => Err(TypeError(NotNumeric))
  }

  /** `int(data[key])`. */
  function IntField(data: Json, key: string): Result<int> {
    match Subscript(data, key)
    case Ok(v) => ToInt(v)
    case Err(e) => Err(e)
  }

  /** The items `for item in data[key]` yields. */
  function ItemsAt(data: Json, key: string): Result<seq<Json>> {
    match Subscript(data, key)
    case Ok(v) => Iterate(v)
    case Err(e) => Err(e)
  }

  /** `data['error']['message']`, the server's explanation in an error body. */
  function Message(data: Json): Result<Json> {
    match Subscript(data, "error")
    case Ok(err) => Subscript(err, "message")
    case Err(e) => Err(e)
  }
}
