/** The two record types the client exchanges with the server, and the
    JavaScript values and plain objects that carry them. */
module Types {
  import opened Wrappers

  /** A category as the server returns it. */
  datatype Category = Category(
    CategoryID: int,
    CategoryName: string,
    Description: string,
    Picture: Option<string>)

  /** A product as the server returns it. Prices and stock are JavaScript
      numbers; NaN and infinities are not modelled. */
  datatype Product = Product(
    ProductID: int,
    ProductName: string,
    CategoryID: int,
    UnitPrice: real,
    UnitsInStock: int)

  /** A JavaScript value as it can appear in a request or form payload. */
  datatype JsValue = Undefined | Null | Num(n: real) | Str(s: string)

  /** The property names the client's objects carry. */
  datatype Key =
    | CategoryID | CategoryName | Description | Picture
    | ProductID | ProductName | UnitPrice | UnitsInStock

  /** A plain JavaScript object: its own keys and their values. */
  type JsObject = map<Key, JsValue>

  /** Property access `o[k]`: `undefined` for a key the object lacks. */
  function Get(o: JsObject, k: Key): (v: JsValue)
    ensures k !in o ==> v == Undefined
    ensures k in o ==> v == o[k]
  {
    if k in o then o[k] else Undefined
  }

  /** JavaScript truthiness of the values modelled here. */
  predicate Truthy(v: JsValue) {
    match v
    case Undefined => false
    case Null => false
    case Num(n) => n != 0.0
    case Str(s) => s != ""
  }

  /** `a || b`: `a` itself when it is truthy, `b` otherwise. */
  function Or(a: JsValue, b: JsValue): (r: JsValue)
    ensures Truthy(a) ==> r == a
    ensures !Truthy(a) ==> r == b
  {
    if Truthy(a) then a else b
  }

  function IntValue(n: int): JsValue { Num(n as real) }
}
