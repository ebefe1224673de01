/** The JSON values the program keeps in local storage, in queue payloads and
    in request payloads. JavaScript objects are maps from property names to
    values; a property that is not there reads as `undefined`, modelled by
    `None`. Numbers are exact rationals. */
module Json {
  import opened Common

  datatype Json =
    | JNull
    | JBool(b: bool)
    | JNum(n: real)
    | JStr(s: string)
    | JObj(fields: map<string, Json>)

  /** Property access `v.k`; a missing property, or any property of a
      non-object, is `undefined`. */
  function Get(v: Json, k: string): (r: Option<Json>)
    ensures r.Some? <==> v.JObj? && k in v.fields
  {
    match v
    case JObj(m) => if k in m then Some(m[k]) else None
    case _ => None
  }

  /** JavaScript truthiness of a value that may be `undefined`. */
  predicate Truthy(v: Option<Json>) {
    match v
    case None => false
    case Some(JNull) => false
    case Some(JBool(b)) => b
    case Some(JNum(n)) => n != 0.0
    case Some(JStr(s)) => s != ""
    case Some(JObj(_)) => true
  }

  /** `a || b`. */
  function Or(a: Option<Json>, b: Option<Json>): (r: Option<Json>)
    ensures Truthy(a) ==> r == a
    ensures !Truthy(a) ==> r == b
  {
    if Truthy(a) then a else b
  }

  /** Object spread `{ ...a, ...b }`: the properties of b win. */
  function Spread(a: map<string, Json>, b: map<string, Json>): (r: map<string, Json>)
    ensures r.Keys == a.Keys + b.Keys
    ensures forall k :: k in b ==> r[k] == b[k]
    ensures forall k :: k in a && k !in b ==> r[k] == a[k]
  {
    a + b
  }

  function Str(s: string): Json { JStr(s) }

  function Num(n: int): Json { JNum(n as real) }

  /** A number held in hundredths (centilitres), as the JavaScript number of whole units. */
  function Centi(n: int): Json { JNum(n as real / 100.0) }
}
