/** The API client: each operation builds one HTTP request and maps the
    server's reply (or the transport's rejection) to what its promise resolves
    to or rejects with. The transport itself is abstract: a `Reply` is
    whatever the server and network answered. */
module Api {
  import opened Wrappers
  import opened Types
  import Decimal

  /** The default base URL; the environment override is not modelled. */
  const ApiUrl: string := "http://localhost:8080/api"

  /** A thrown JavaScript error: its message and, for an HTTP error raised by
      the transport, the status of the response that came with it. */
  datatype Error = Error(message: string, status: Option<int>)

  /** The TypeErrors raised by `null.value` (a null body) and by
      `undefined[0]` (a body without a `value` array), in V8's wording. */
  const ValueOfNull: Error := Error("Cannot read properties of null (reading 'value')", None)
  const IndexOfUndefined: Error := Error("Cannot read properties of undefined (reading '0')", None)
  const UnexpectedResponse: string := "Unexpected response from server"
  const InvalidProduct: string := "Invalid product ID or product not found"

  /** The decoded body of a response: a bare array, an object whose `value`
      field is an array (`Some`) or is not (`None`), `null`, or anything else. */
  datatype Body<+T> = ArrayBody(items: seq<T>) | ObjectBody(value: Option<seq<T>>) | NullBody | OtherBody

  /** What a request produced: a response the transport resolved with, its
      status and decoded body, or a rejection by the transport (an HTTP error
      status or no response). The status is any integer: the model does not
      rely on the transport resolving only 2xx responses. */
  datatype Reply<+T> = Response(status: int, body: Body<T>) | Rejected(error: Error)

  datatype Verb = Get | Post | Patch | Delete
  /** The resources the client addresses; `Url` gives the text of each. */
  datatype Path =
    | CategoriesPath
    | CategoryPath(id: int)
    | ProductsPath
    | ProductsFilterPath(id: int)
    | ProductPath(id: int)

  datatype Request = Request(verb: Verb, path: Path, payload: Option<JsObject>)

  /** An operation's request together with what its promise settles to. */
  datatype Call<+R> = Call(request: Request, result: R)

  // ---------------------------------------------------------------- URLs

  /** The part of a URL after the base URL. */
  function Route(p: Path): string {
    match p
    case CategoriesPath => "/categories"
    case CategoryPath(id) => "/categories" + "/CategoryID/" + Decimal.IntToString(id)
    case ProductsPath => "/products"
    case ProductsFilterPath(id) => "/products" + "?$filter=CategoryID eq " + Decimal.IntToString(id)
    case ProductPath(id) => "/products" + "/ProductID/" + Decimal.IntToString(id)
  }

  /** The URL a request is sent to. */
  function Url(p: Path): string {
    ApiUrl + Route(p)
  }

  lemma SuffixAfterPrefix(p: string, x: string, y: string)
    requires p + x == p + y
    ensures x == y
  {
    assert x == (p + x)[|p|..];
    assert y == (p + y)[|p|..];
  }

  /** What tells the routes apart: the letter after the first slash, the
      length of the two collection routes, and the character after
      `/products`. */
  lemma RouteShape(p: Path)
    ensures |Route(p)| >= 9
    ensures Route(p)[1] == (if p.CategoriesPath? || p.CategoryPath? then 'c' else 'p')
    ensures p.CategoriesPath? ==> |Route(p)| == 11
    ensures p.CategoryPath? ==> |Route(p)| > 11
    ensures p.ProductsPath? ==> |Route(p)| == 9
    ensures p.ProductsFilterPath? ==> |Route(p)| > 9 && Route(p)[9] == '?'
    ensures p.ProductPath? ==> |Route(p)| > 9 && Route(p)[9] == '/'
  {
  }

  /** Different paths give different URLs: a request for one category or
      product never addresses another record, nor a collection. */
  lemma UrlInjective(p: Path, q: Path)
    requires Url(p) == Url(q)
    ensures p == q
  {
    SuffixAfterPrefix(ApiUrl, Route(p), Route(q));
    RouteShape(p);
    RouteShape(q);
    if p.CategoryPath? && q.CategoryPath? {
      SuffixAfterPrefix("/categories" + "/CategoryID/", Decimal.IntToString(p.id), Decimal.IntToString(q.id));
      Decimal.IntToStringInjective(p.id, q.id);
    } else if p.ProductsFilterPath? && q.ProductsFilterPath? {
      SuffixAfterPrefix("/products" + "?$filter=CategoryID eq ", Decimal.IntToString(p.id), Decimal.IntToString(q.id));
      Decimal.IntToStringInjective(p.id, q.id);
    } else if p.ProductPath? && q.ProductPath? {
      SuffixAfterPrefix("/products" + "/ProductID/", Decimal.IntToString(p.id), Decimal.IntToString(q.id));
      Decimal.IntToStringInjective(p.id, q.id);
    }
  }

  // ------------------------------------------------------------ payloads

  /** `{...category, Picture: null}`: the caller's fields, with `Picture`
      present and null whatever the caller gave. */
  function CategoryPayload(category: JsObject): (p: JsObject)
    ensures p.Keys == category.Keys + {Picture}
    ensures p[Picture] == Null
    ensures forall k :: k in category && k != Picture ==> p[k] == category[k]
  {
    category[Picture := Null]
  }

  /** The entries of `product` whose value is not `undefined`; `null` and
      every other defined value passes through unchanged. */
  function DefinedEntries(product: JsObject): (p: JsObject)
    ensures forall k :: k in p <==> k in product && product[k] != Undefined
    ensures forall k :: k in p ==> p[k] == product[k]
  {
    map k | k in product && product[k] != Undefined :: product[k]
  }

  // ------------------------------------------------------------- replies

  /** `response.data.value` when it is an array. */
  function Envelope<T>(body: Body<T>): Option<seq<T>>
  {
    if body.ObjectBody? then body.value else None
  }

  /** `response.data.value[0]` for a write: the first element of the
      envelope (`undefined` when it is empty), a TypeError when there is no
      envelope (reading `value` of a null body, or `[0]` of a missing
      `value`), and the transport's error, unchanged, when it rejected. */
  function FirstValue<T>(reply: Reply<T>): (r: Result<Option<T>, Error>)
    ensures reply.Rejected? ==> r == Failure(reply.error)
    ensures reply.Response? ==>
      (r.Failure? <==> Envelope(reply.body).None?) &&
      (r.Failure? ==> r.error == if reply.body.NullBody? then ValueOfNull else IndexOfUndefined)
    ensures r.Success? ==>
      (reply.Response? && Envelope(reply.body).Some? &&
       var items := Envelope(reply.body).value;
       r.value == if |items| > 0 then Some(items[0]) else None)
  {
    match reply
    case Rejected(e) => Failure(e)
    case Response(_, body) =>
      match Envelope(body)
      case Some(items) => Success(if |items| > 0 then Some(items[0]) else None)
      case None => Failure(if body.NullBody? then ValueOfNull else IndexOfUndefined)
  }

  // ----------------------------------------------------------- categories

  /** `getCategories`: resolves to the envelope's array when there is one and
      to `undefined` for a body without one; reading `value` of a null body
      throws; a rejection is rethrown unchanged. */
  function GetCategories(reply: Reply<Category>): (c: Call<Result<Option<seq<Category>>, Error>>)
    ensures c.request == Request(Get, CategoriesPath, None)
    ensures reply.Rejected? ==> c.result == Failure(reply.error)
    ensures forall cs :: c.result == Success(Some(cs)) <==> reply.Response? && Envelope(reply.body) == Some(cs)
    ensures reply.Response? ==> (c.result.Failure? <==> reply.body.NullBody?)
    ensures c.result.Failure? && reply.Response? ==> c.result.error == ValueOfNull
  {
    var result := match reply
      case Rejected(e) => Failure(e)
      case Response(_, NullBody) => Failure(ValueOfNull)
      case Response(_, body) => Success(Envelope(body));
    Call(Request(Get, CategoriesPath, None), result)
  }

  /** `createCategory`: POSTs the fields with `Picture` forced to null. */
  function CreateCategory(category: JsObject, reply: Reply<Category>): (c: Call<Result<Option<Category>, Error>>)
    ensures c.request.verb == Post && c.request.path == CategoriesPath
    ensures c.request.payload == Some(CategoryPayload(category))
    ensures c.result == FirstValue(reply)
  {
    Call(Request(Post, CategoriesPath, Some(CategoryPayload(category))), FirstValue(reply))
  }

  /** `updateCategory`: PATCHes the identifier-scoped path with the fields
      and `Picture` forced to null. */
  function UpdateCategory(categoryId: int, category: JsObject, reply: Reply<Category>): (c: Call<Result<Option<Category>, Error>>)
    ensures c.request.verb == Patch && c.request.path == CategoryPath(categoryId)
    ensures c.request.payload == Some(CategoryPayload(category))
    ensures c.result == FirstValue(reply)
  {
    Call(Request(Patch, CategoryPath(categoryId), Some(CategoryPayload(category))), FirstValue(reply))
  }

  /** `deleteCategory`: any response is success; a rejection is rethrown
      unchanged. */
  function DeleteCategory<T>(categoryId: int, reply: Reply<T>): (c: Call<Outcome<Error>>)
    ensures c.request == Request(Delete, CategoryPath(categoryId), None)
    ensures c.result.Pass? <==> reply.Response?
    ensures c.result.Fail? ==> c.result.error == reply.error
  {
    Call(Request(Delete, CategoryPath(categoryId), None),
         if reply.Response? then Pass else Fail(reply.error))
  }

  // ------------------------------------------------------------- products

  function ProductsRequest(categoryId: int): Request
  {
    Request(Get, ProductsFilterPath(categoryId), None)
  }

  /** `getProducts`: a bare array is returned as it is, otherwise an
      envelope's array; every other shape and every rejection gives []. */
  function GetProducts(categoryId: int, reply: Reply<Product>): (c: Call<seq<Product>>)
    ensures c.request == ProductsRequest(categoryId)
    ensures reply.Response? && reply.body.ArrayBody? ==> c.result == reply.body.items
    ensures reply.Response? && !reply.body.ArrayBody? && Envelope(reply.body).Some? ==>
      c.result == Envelope(reply.body).value
    ensures reply.Rejected? || (!reply.body.ArrayBody? && Envelope(reply.body).None?) ==> c.result == []
  {
    var result := match reply
      case Rejected(_) => []
      case Response(_, ArrayBody(items)) => items
      case Response(_, body) => Envelope(body).GetOr([]);
    Call(ProductsRequest(categoryId), result)
  }

  /** `createProduct`: POSTs a copy of the product. */
  function CreateProduct(product: JsObject, reply: Reply<Product>): (c: Call<Result<Option<Product>, Error>>)
    ensures c.request == Request(Post, ProductsPath, Some(product))
    ensures c.result == FirstValue(reply)
  {
    Call(Request(Post, ProductsPath, Some(product)), FirstValue(reply))
  }

  /** `updateProduct`: PATCHes the identifier-scoped path with the defined
      entries of the product only. */
  function UpdateProduct(productId: int, product: JsObject, reply: Reply<Product>): (c: Call<Result<Option<Product>, Error>>)
    ensures c.request.verb == Patch && c.request.path == ProductPath(productId)
    ensures c.request.payload == Some(DefinedEntries(product))
    ensures c.result == FirstValue(reply)
  {
    Call(Request(Patch, ProductPath(productId), Some(DefinedEntries(product))), FirstValue(reply))
  }

  /** `deleteProduct`: only a 204 response is success. Any other response
      raises 'Unexpected response from server', an error without a response
      that is rethrown as it is; a rejection with status 400 becomes
      'Invalid product ID or product not found'; other rejections are
      rethrown unchanged. */
  function DeleteProduct<T>(productId: int, reply: Reply<T>): (c: Call<Outcome<Error>>)
    ensures c.request == Request(Delete, ProductPath(productId), Some(map[ProductID := IntValue(productId)]))
    ensures c.result.Pass? <==> reply.Response? && reply.status == 204
    ensures reply.Response? && reply.status != 204 ==> c.result == Fail(Error(UnexpectedResponse, None))
    ensures reply.Rejected? && reply.error.status == Some(400) ==> c.result == Fail(Error(InvalidProduct, None))
    ensures reply.Rejected? && reply.error.status != Some(400) ==> c.result == Fail(reply.error)
  {
    var result := match reply
      case Response(status, _) =>
        if status != 204 then Fail(Error(UnexpectedResponse, None)) else Pass
      case Rejected(e) =>
        if e.status == Some(400) then Fail(Error(InvalidProduct, None)) else Fail(e);
    Call(Request(Delete, ProductPath(productId), Some(map[ProductID := IntValue(productId)])), result)
  }
}
