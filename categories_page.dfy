/** The categories page: the UI state it holds and the handlers that change
    it. Each handler is one atomic step; the server's answers during that
    step are a `Backend` value, and each handler returns the requests it
    sent, in order. */
module Pages {
  import opened Wrappers
  import opened Types
  import Api
  import CategoryRow
  import ProductForm
  import Text

  const FetchCategoriesFailed: string := "Failed to fetch categories"
  const DeleteCategoryFailed: string := "Failed to delete category"
  const SaveCategoryFailed: string := "Failed to save category"
  const SelectCategoryFirst: string := "Please select a category first"
  const DeleteProductFailed: string := "Failed to delete product. Please try again."
  const NoCategorySelected: string := "No category selected"
  const SaveProductFailed: string := "Failed to save product"

  /** What the server answers during one handler: to the categories list, to
      a category write or delete, to the products list of each category, and
      to a product write or delete. A handler that lists one category's
      products twice gets the same answer both times. */
  datatype Backend = Backend(
    categoryList: Api.Reply<Category>,
    categoryWrite: Api.Reply<Category>,
    productList: int -> Api.Reply<Product>,
    productWrite: Api.Reply<Product>)

  // ------------------------------------------------------ fetching lists

  function CategoryIds(cs: seq<Category>): set<int> {
    set c | c in cs :: c.CategoryID
  }

  /** The products list the server gives for one category. */
  function ProductsOf(backend: Backend, categoryId: int): seq<Product> {
    Api.GetProducts(categoryId, backend.productList(categoryId)).result
  }

  /** The per-category product counts for a fetched list of categories. */
  function CountMap(cs: seq<Category>, backend: Backend): map<int, nat> {
    map id | id in CategoryIds(cs) :: |ProductsOf(backend, id)|
  }

  /** Counting one more category adds (or rewrites) its own entry only. */
  lemma CountMapSnoc(cs: seq<Category>, c: Category, backend: Backend)
    ensures CountMap(cs + [c], backend) == CountMap(cs, backend)[c.CategoryID := |ProductsOf(backend, c.CategoryID)|]
  {
  }

  /** One products-list request per category, in list order. */
  function ProductsRequests(cs: seq<Category>): seq<Api.Request> {
    if cs == [] then []
    else ProductsRequests(cs[..|cs| - 1]) + [Api.ProductsRequest(cs[|cs| - 1].CategoryID)]
  }

  /** The counting loop sends exactly one products request per category, for
      that category, and in the order of the list. */
  lemma {:induction false} ProductsRequestsSpec(cs: seq<Category>)
    ensures |ProductsRequests(cs)| == |cs|
    ensures forall i :: 0 <= i < |cs| ==> ProductsRequests(cs)[i] == Api.ProductsRequest(cs[i].CategoryID)
  {
    if cs != [] {
      ProductsRequestsSpec(cs[..|cs| - 1]);
    }
  }

  /** The `for` loop of `fetchCategories`: one products request per category,
      and a count map whose keys are exactly the categories' identifiers, each
      mapped to the length of that category's products list. */
  method CountProducts(cs: seq<Category>, backend: Backend) returns (counts: map<int, nat>, sent: seq<Api.Request>)
    ensures counts == CountMap(cs, backend)
    ensures counts.Keys == CategoryIds(cs)
    ensures forall id :: id in counts ==> counts[id] == |ProductsOf(backend, id)|
    ensures sent == ProductsRequests(cs)
  {
    counts, sent := map[], [];
    for i := 0 to |cs|
      invariant counts == CountMap(cs[..i], backend)
      invariant sent == ProductsRequests(cs[..i])
    {
      var id := cs[i].CategoryID;
      var products := Api.GetProducts(id, backend.productList(id));
      counts := counts[id := |products.result|];
      sent := sent + [products.request];
      assert cs[..i + 1] == cs[..i] + [cs[i]];
      CountMapSnoc(cs[..i], cs[i], backend);
    }
    assert cs[..|cs|] == cs;
  }

  /** The categories `getCategories` resolved to, when it resolved to an
      array; `undefined` makes the counting loop throw, so it fails too. */
  function ListedCategories(backend: Backend): Option<seq<Category>> {
    match Api.GetCategories(backend.categoryList).result
    case Success(Some(cs)) => Some(cs)
    case _ => None
  }

  /** The requests `fetchCategories` sends. */
  function FetchCategoriesRequests(backend: Backend): seq<Api.Request> {
    [Api.GetCategories(backend.categoryList).request] +
    match ListedCategories(backend)
    case Some(cs) => ProductsRequests(cs)
    case None => []
  }

  /** The list `fetchCategories` stores: the fetched one, or [] when the
      fetch failed. */
  function FetchedCategories(backend: Backend): seq<Category> {
    match ListedCategories(backend)
    case Some(cs) => cs
    case None => []
  }

  /** The counts `fetchCategories` stores: after a successful fetch a map
      that replaces the old one, whose keys are exactly the fetched
      identifiers, each mapped to its products-list length; after a failed
      fetch the old counts. */
  function FetchedCounts(counts: map<int, nat>, backend: Backend): (r: map<int, nat>)
    ensures ListedCategories(backend).None? ==> r == counts
    ensures ListedCategories(backend).Some? ==>
      && r.Keys == CategoryIds(ListedCategories(backend).value)
      && forall id :: id in r ==> r[id] == |ProductsOf(backend, id)|
  {
    match ListedCategories(backend)
    case Some(cs) => CountMap(cs, backend)
    case None => counts
  }

  /** The error `fetchCategories` leaves: none after a successful fetch. */
  function FetchError(backend: Backend): (r: Option<string>)
    ensures r.None? <==> ListedCategories(backend).Some?
    ensures r.Some? ==> r.value == FetchCategoriesFailed
  {
    if ListedCategories(backend).Some? then None else Some(FetchCategoriesFailed)
  }

  /** The two products-list requests of a refresh (the list, then the count). */
  function RefreshRequests(selectedCategory: Option<Category>): seq<Api.Request> {
    match selectedCategory
    case None => []
    case Some(c) => [Api.ProductsRequest(c.CategoryID), Api.ProductsRequest(c.CategoryID)]
  }

  // ------------------------------------------------------------ payloads

  /** `err.message || fallback`. */
  function MessageOr(e: Api.Error, fallback: string): string {
    if e.message != "" then e.message else fallback
  }

  /** The new category `handleSaveCategory` creates: the dialog's name and
      description, '' for either when it is missing or empty, and a null
      picture. */
  function NewCategory(data: JsObject): (r: JsObject)
    ensures r.Keys == {CategoryName, Description, Picture}
    ensures r[Picture] == Null
    ensures forall k :: k in {CategoryName, Description} ==>
      r[k] == if Truthy(Get(data, k)) then Get(data, k) else Str("")
  {
    map[
      CategoryName := Or(Get(data, CategoryName), Str("")),
      Description := Or(Get(data, Description), Str("")),
      Picture := Null]
  }

  const EditableFields: set<Key> := {ProductName, UnitPrice, UnitsInStock}

  /** A product's value for one of the fields the product dialog edits. */
  function FieldValue(p: Product, k: Key): JsValue {
    match k
    case ProductName => Str(p.ProductName)
    case UnitPrice => Num(p.UnitPrice)
    case UnitsInStock => IntValue(p.UnitsInStock)
    case _ => Undefined
  }

  /** The update of `handleSaveProduct`: a field is present exactly when the
      dialog's value differs from the loaded product's, and then it carries
      the dialog's value. */
  function ChangedFields(data: JsObject, selected: Product): (r: JsObject)
    ensures forall k :: k in r <==> k in EditableFields && Get(data, k) != FieldValue(selected, k)
    ensures forall k :: k in r ==> r[k] == Get(data, k)
  {
    var name := Get(data, ProductName);
    var price := Get(data, UnitPrice);
    var stock := Get(data, UnitsInStock);
    var u: JsObject := map[];
    var u := if name != Str(selected.ProductName) then u[ProductName := name] else u;
    var u := if price != Num(selected.UnitPrice) then u[UnitPrice := price] else u;
    var u := if stock != IntValue(selected.UnitsInStock) then u[UnitsInStock := stock] else u;
    u
  }

  /** The new product of `handleSaveProduct`: it belongs to the selected
      category, and a missing or falsy name, price or stock becomes '', 0 or
      0. */
  function NewProduct(data: JsObject, categoryId: int): (r: JsObject)
    ensures r.Keys == {ProductName, CategoryID, UnitPrice, UnitsInStock}
    ensures r[CategoryID] == IntValue(categoryId)
    ensures r[ProductName] == if Truthy(Get(data, ProductName)) then Get(data, ProductName) else Str("")
    ensures forall k :: k in {UnitPrice, UnitsInStock} ==>
      r[k] == if Truthy(Get(data, k)) then Get(data, k) else Num(0.0)
  {
    map[
      ProductName := Or(Get(data, ProductName), Str("")),
      CategoryID := IntValue(categoryId),
      UnitPrice := Or(Get(data, UnitPrice), Num(0.0)),
      UnitsInStock := Or(Get(data, UnitsInStock), Num(0.0))]
  }

  /** The write `handleSaveProduct` makes inside the selected category: an
      update of the changed fields when a product is being edited, none at
      all when nothing changed, and a create otherwise. */
  function ProductWrite(selectedProduct: Option<Product>, categoryId: int, data: JsObject, reply: Api.Reply<Product>)
    : (r: Option<Api.Call<Result<Option<Product>, Api.Error>>>)
    ensures r.None? <==> selectedProduct.Some? && forall k :: k in EditableFields ==> Get(data, k) == FieldValue(selectedProduct.value, k)
    ensures r.Some? && selectedProduct.Some? ==>
      r.value == Api.UpdateProduct(selectedProduct.value.ProductID, ChangedFields(data, selectedProduct.value), reply)
    ensures r.Some? && selectedProduct.None? ==> r.value == Api.CreateProduct(NewProduct(data, categoryId), reply)
  {
    match selectedProduct
    case Some(p) =>
      var updateData := ChangedFields(data, p);
      // `Object.keys(updateData).length > 0`
      if |updateData.Keys| == 0 then None
      else Some(Api.UpdateProduct(p.ProductID, updateData, reply))
    case None => Some(Api.CreateProduct(NewProduct(data, categoryId), reply))
  }

  /** Saving the product dialog without editing it, for a product whose
      name has no surrounding white space and whose numbers read back as
      themselves, sends no update: the dialog passes the product's own values
      and the page finds no changed field. */
  lemma UneditedDialogSendsNoUpdate(p: Product, categoryId: int, parsers: ProductForm.Parsers, reply: Api.Reply<Product>)
    requires Text.Trim(p.ProductName) == p.ProductName != ""
    requires p.UnitPrice >= 0.0 && p.UnitsInStock >= 0
    requires parsers.numberToString(p.UnitPrice) != ""
    requires parsers.numberToString(p.UnitsInStock as real) != ""
    requires parsers.parseFloat(parsers.numberToString(p.UnitPrice)) == Some(p.UnitPrice)
    requires parsers.parseInt(parsers.numberToString(p.UnitsInStock as real)) == Some(p.UnitsInStock)
    ensures var form := ProductForm.Submission(ProductForm.InitialName(Some(p)),
                                               ProductForm.InitialPrice(Some(p), parsers),
                                               ProductForm.InitialStock(Some(p), parsers), parsers);
      form.Success? && ProductWrite(Some(p), categoryId, form.value, reply).None?
  {
    Text.TrimEmptyIff(p.ProductName);
    var form := ProductForm.Submission(ProductForm.InitialName(Some(p)),
                                       ProductForm.InitialPrice(Some(p), parsers),
                                       ProductForm.InitialStock(Some(p), parsers), parsers);
    assert form.Success?;
    forall k | k in EditableFields ensures Get(form.value, k) == FieldValue(p, k) {
    }
  }

  // ------------------------------------------------------- confirm dialog

  /** What the confirm dialog's `onConfirm` deletes. In the products view it
      is always `confirmDeleteProduct`; in the categories view it is
      `confirmDeleteProduct` when a product is pending and
      `confirmDeleteCategory` otherwise; each does nothing without its target. */
  datatype Target = ProductTarget(product: Product) | CategoryTarget(category: Category) | NoTarget

  function ConfirmTarget(showProducts: bool, productToDelete: Option<Product>, categoryToDelete: Option<Category>): (t: Target)
    ensures productToDelete.Some? ==> t == ProductTarget(productToDelete.value)
    ensures t.ProductTarget? ==> productToDelete == Some(t.product)
    ensures t.CategoryTarget? ==> !showProducts && productToDelete.None? && categoryToDelete == Some(t.category)
    ensures t == NoTarget <==> productToDelete.None? && (showProducts || categoryToDelete.None?)
  {
    if showProducts || productToDelete.Some? then
      (if productToDelete.Some? then ProductTarget(productToDelete.value) else NoTarget)
    else if categoryToDelete.Some? then CategoryTarget(categoryToDelete.value)
    else NoTarget
  }

  function ProductPrompt(name: string): string {
    "Are you sure you want to delete the product \"" + name + "\"?"
  }

  function CategoryPrompt(name: string): string {
    "Are you sure you want to delete the category \"" + name + "\"?"
  }

  /** The confirm dialog's title and message: they name the very record that
      confirming deletes, and the message is empty exactly when there is
      nothing to delete. */
  function ConfirmPrompt(showProducts: bool, productToDelete: Option<Product>, categoryToDelete: Option<Category>): (r: (string, string))
    ensures var t := ConfirmTarget(showProducts, productToDelete, categoryToDelete);
      && (r.1 == "" <==> t == NoTarget)
      && (t.ProductTarget? ==> r.0 == "Delete Product" && r.1 == ProductPrompt(t.product.ProductName))
      && (t.CategoryTarget? ==> r.0 == "Delete Category" && r.1 == CategoryPrompt(t.category.CategoryName))
  {
    if showProducts then
      ("Delete Product", if productToDelete.Some? then ProductPrompt(productToDelete.value.ProductName) else "")
    else
      (if productToDelete.Some? then "Delete Product" else "Delete Category",
       if productToDelete.Some? then ProductPrompt(productToDelete.value.ProductName)
       else if categoryToDelete.Some? then CategoryPrompt(categoryToDelete.value.CategoryName)
       else "")
  }


  // ----------------------------------------------------------- the page

  class CategoriesPage {
    var categories: seq<Category>
    var selectedCategory: Option<Category>
    var categoryDialogOpen: bool
    var loading: bool
    var error: Option<string>
    var products: seq<Product>
    var selectedProduct: Option<Product>
    var productDialogOpen: bool
    var showProducts: bool
    var categoryProducts: map<int, nat>
    var deleteConfirmOpen: bool
    var productToDelete: Option<Product>
    var categoryToDelete: Option<Category>

    /** The initial `useState` values: empty lists, nothing selected or
        pending, every dialog closed, and loading. */
    constructor ()
      ensures categories == [] && products == [] && categoryProducts == map[]
      ensures selectedCategory.None? && selectedProduct.None?
      ensures productToDelete.None? && categoryToDelete.None?
      ensures !categoryDialogOpen && !productDialogOpen && !deleteConfirmOpen && !showProducts
      ensures loading && error.None?
    {
      categories, selectedCategory, categoryDialogOpen := [], None, false;
      loading, error, products := true, None, [];
      selectedProduct, productDialogOpen, showProducts := None, false, false;
      categoryProducts, deleteConfirmOpen := map[], false;
      productToDelete, categoryToDelete := None, None;
    }

    /** `fetchCategories`, also run once on mount: the list GET, then one
        products GET per category; on failure the error is shown and the list
        emptied, while the old counts stay. Loading ends false either way. */
    method FetchCategories(backend: Backend) returns (sent: seq<Api.Request>)
      modifies this`categories, this`categoryProducts, this`loading, this`error
      ensures categories == FetchedCategories(backend)
      ensures categoryProducts == FetchedCounts(old(categoryProducts), backend)
      ensures !loading && error == FetchError(backend)
      ensures sent == FetchCategoriesRequests(backend)
    {
      loading, error := true, None;
      var call := Api.GetCategories(backend.categoryList);
      sent := [call.request];
      match ListedCategories(backend) {
        case None =>
          error, categories := Some(FetchCategoriesFailed), [];
        case Some(cs) =>
          categories := cs;
          var counts, countSent := CountProducts(cs, backend);
          sent := sent + countSent;
          categoryProducts := counts;
      }
      loading := false;
    }

    /** `fetchProducts` (whose catch cannot run, because `getProducts` never
        rejects). */
    method FetchProducts(categoryId: int, backend: Backend) returns (sent: seq<Api.Request>)
      modifies this`products, this`loading, this`error
      ensures products == ProductsOf(backend, categoryId) && !loading && error == None
      ensures sent == [Api.ProductsRequest(categoryId)]
    {
      loading, error := true, None;
      var call := Api.GetProducts(categoryId, backend.productList(categoryId));
      products := call.result;
      sent := [call.request];
      loading := false;
    }

    method HandleAddCategory()
      modifies this`selectedCategory, this`categoryDialogOpen
      ensures selectedCategory == None && categoryDialogOpen
    {
      selectedCategory, categoryDialogOpen := None, true;
    }

    method HandleEditCategory(category: Category)
      modifies this`selectedCategory, this`categoryDialogOpen
      ensures selectedCategory == Some(category) && categoryDialogOpen
    {
      selectedCategory, categoryDialogOpen := Some(category), true;
    }

    method HandleDeleteCategory(category: Category)
      modifies this`categoryToDelete, this`deleteConfirmOpen
      ensures categoryToDelete == Some(category) && deleteConfirmOpen
    {
      categoryToDelete, deleteConfirmOpen := Some(category), true;
    }

    /** The outcome of deleting the pending category, which must have been
        set: confirm is closed and the category no longer pending; on success
        the selection is cleared when it is the deleted category, the list is
        refetched and the error cleared (even when the refetch failed); on
        failure only the error changes besides the dialog. */
    twostate predicate DeletedCategory(backend: Backend, sent: seq<Api.Request>)
      reads this
    {
      && old(categoryToDelete).Some?
      && !deleteConfirmOpen && categoryToDelete.None?
      && var id := old(categoryToDelete).value.CategoryID;
         var del := Api.DeleteCategory(id, backend.categoryWrite);
         if del.result.Pass? then
           && selectedCategory == (if old(selectedCategory).Some? && old(selectedCategory).value.CategoryID == id
                                   then None else old(selectedCategory))
           && categories == FetchedCategories(backend)
           && categoryProducts == FetchedCounts(old(categoryProducts), backend)
           && !loading && error == None
           && sent == [del.request] + FetchCategoriesRequests(backend)
         else
           && error == Some(DeleteCategoryFailed)
           && selectedCategory == old(selectedCategory) && categories == old(categories)
           && categoryProducts == old(categoryProducts) && loading == old(loading)
           && sent == [del.request]
    }

    /** `confirmDeleteCategory`: without a pending category nothing happens.
        Otherwise the category is deleted; on success the selection is
        cleared when it is the deleted category, the list is refetched and the
        error cleared (even when the refetch failed); on failure the error is
        set and nothing else but the dialog changes. Either way the dialog
        closes and the pending category is cleared. */
    method ConfirmDeleteCategory(backend: Backend) returns (sent: seq<Api.Request>)
      modifies this`selectedCategory, this`categories, this`categoryProducts, this`loading, this`error
      modifies this`deleteConfirmOpen, this`categoryToDelete
      ensures old(categoryToDelete).None? ==> unchanged(this) && sent == []
      ensures old(categoryToDelete).Some? ==> DeletedCategory(backend, sent)
    {
      if categoryToDelete.None? {
        return [];
      }
      var id := categoryToDelete.value.CategoryID;
      var del := Api.DeleteCategory(id, backend.categoryWrite);
      sent := [del.request];
      if del.result.Pass? {
        if selectedCategory.Some? && selectedCategory.value.CategoryID == id {
          selectedCategory := None;
        }
        var fetchSent := FetchCategories(backend);
        sent := sent + fetchSent;
        deleteConfirmOpen, categoryToDelete, error := false, None, None;
      } else {
        error := Some(DeleteCategoryFailed);
        deleteConfirmOpen, categoryToDelete := false, None;
      }
    }

    /** `handleSaveCategory`: updates the selected category or creates a new
        one; on success refetches the list and clears the selection, on
        failure sets the error and changes nothing else. */
    method HandleSaveCategory(data: JsObject, backend: Backend) returns (sent: seq<Api.Request>)
      modifies this`selectedCategory, this`categories, this`categoryProducts, this`loading, this`error
      ensures var call := if old(selectedCategory).Some?
                          then Api.UpdateCategory(old(selectedCategory).value.CategoryID, data, backend.categoryWrite)
                          else Api.CreateCategory(NewCategory(data), backend.categoryWrite);
        if call.result.Success? then
          && selectedCategory == None
          && categories == FetchedCategories(backend)
          && categoryProducts == FetchedCounts(old(categoryProducts), backend)
          && !loading && error == FetchError(backend)
          && sent == [call.request] + FetchCategoriesRequests(backend)
        else
          && error == Some(SaveCategoryFailed)
          && unchanged(this`selectedCategory, this`categories, this`categoryProducts, this`loading)
          && sent == [call.request]
    {
      var call := if selectedCategory.Some?
                  then Api.UpdateCategory(selectedCategory.value.CategoryID, data, backend.categoryWrite)
                  else Api.CreateCategory(NewCategory(data), backend.categoryWrite);
      sent := [call.request];
      if call.result.Failure? {
        error := Some(SaveCategoryFailed);
        return;
      }
      var fetchSent := FetchCategories(backend);
      sent := sent + fetchSent;
      selectedCategory := None;
    }

    method HandleViewProducts(category: Category, backend: Backend) returns (sent: seq<Api.Request>)
      modifies this`selectedCategory, this`showProducts, this`products, this`loading, this`error
      ensures selectedCategory == Some(category) && showProducts
      ensures products == ProductsOf(backend, category.CategoryID) && !loading && error == None
      ensures sent == [Api.ProductsRequest(category.CategoryID)]
    {
      selectedCategory, showProducts := Some(category), true;
      sent := FetchProducts(category.CategoryID, backend);
    }

    /** Going back changes only the products-view flag. */
    method HandleBackToCategories()
      modifies this`showProducts
      ensures !showProducts
    {
      showProducts := false;
    }

    /** Adding a product needs a selected category: without one only the
        error is set and the dialog stays closed. */
    method HandleAddProduct()
      modifies this`error, this`selectedProduct, this`productDialogOpen
      ensures old(selectedCategory).None? ==>
        error == Some(SelectCategoryFirst) && unchanged(this`selectedProduct, this`productDialogOpen)
      ensures old(selectedCategory).Some? ==>
        selectedProduct == None && productDialogOpen && error == old(error)
    {
      if selectedCategory.None? {
        error := Some(SelectCategoryFirst);
        return;
      }
      selectedProduct, productDialogOpen := None, true;
    }

    method HandleEditProduct(product: Product)
      modifies this`selectedProduct, this`productDialogOpen
      ensures selectedProduct == Some(product) && productDialogOpen
    {
      selectedProduct, productDialogOpen := Some(product), true;
    }

    method HandleDeleteProduct(product: Product)
      modifies this`productToDelete, this`deleteConfirmOpen
      ensures productToDelete == Some(product) && deleteConfirmOpen
    {
      productToDelete, deleteConfirmOpen := Some(product), true;
    }

    /** The effect of a refresh on the products list, the loading flag and
        the counts: with a selected category its products are refetched and
        its count entry alone is rewritten with the new list's length; with
        none they stay as they were. */
    twostate predicate Refreshed(backend: Backend)
      reads this
    {
      match selectedCategory
      case None =>
        products == old(products) && loading == old(loading) && categoryProducts == old(categoryProducts)
      case Some(c) =>
        var id := c.CategoryID;
        && products == ProductsOf(backend, id) && !loading
        && categoryProducts == old(categoryProducts)[id := |ProductsOf(backend, id)|]
    }

    /** The outcome of deleting the pending product, which must have been
        set: confirm is closed and the product no longer pending; on success
        the selected category's products and count are refreshed and the
        error cleared; on failure the error's message (or a fallback) is shown
        and the lists and counts stay. */
    twostate predicate DeletedProduct(backend: Backend, sent: seq<Api.Request>)
      reads this
    {
      && old(productToDelete).Some?
      && !deleteConfirmOpen && productToDelete.None?
      && var del := Api.DeleteProduct(old(productToDelete).value.ProductID, backend.productWrite);
         match del.result
         case Pass =>
           && Refreshed(backend) && error == None
           && sent == [del.request] + RefreshRequests(selectedCategory)
         case Fail(e) =>
           && error == Some(MessageOr(e, DeleteProductFailed))
           && products == old(products) && loading == old(loading)
           && categoryProducts == old(categoryProducts)
           && sent == [del.request]
    }

    /** `confirmDeleteProduct`: without a pending product nothing happens.
        Otherwise the product is deleted; on success the selected category's
        products and count are refreshed and the error cleared; on failure the
        error's message (or a fallback) is shown. Either way the dialog closes
        and the pending product is cleared. */
    method ConfirmDeleteProduct(backend: Backend) returns (sent: seq<Api.Request>)
      modifies this`products, this`loading, this`error, this`categoryProducts
      modifies this`deleteConfirmOpen, this`productToDelete
      ensures old(productToDelete).None? ==> unchanged(this) && sent == []
      ensures old(productToDelete).Some? ==> DeletedProduct(backend, sent)
    {
      if productToDelete.None? {
        return [];
      }
      var del := Api.DeleteProduct(productToDelete.value.ProductID, backend.productWrite);
      sent := [del.request];
      match del.result {
        case Fail(e) =>
          error := Some(MessageOr(e, DeleteProductFailed));
        case Pass =>
          var refreshSent := Refresh(backend);
          sent := sent + refreshSent;
          error := None;
      }
      deleteConfirmOpen, productToDelete := false, None;
    }

    /** The refresh after a product write: refetch the selected category's
        list, then rewrite its count entry. */
    method Refresh(backend: Backend) returns (sent: seq<Api.Request>)
      modifies this`products, this`loading, this`error, this`categoryProducts
      ensures Refreshed(backend)
      ensures selectedCategory.Some? ==> error == None
      ensures selectedCategory.None? ==> error == old(error)
      ensures sent == RefreshRequests(selectedCategory)
    {
      sent := [];
      if selectedCategory.Some? {
        var id := selectedCategory.value.CategoryID;
        sent := FetchProducts(id, backend);
        var count := Api.GetProducts(id, backend.productList(id));
        sent := sent + [count.request];
        categoryProducts := categoryProducts[id := |count.result|];
      }
    }

    /** `handleSaveProduct`: without a selected category only the error is
        set and no request is sent. Otherwise the product is updated (changed
        fields only, and not at all when nothing changed) or created in the
        selected category; on success the list and count are refreshed, the
        dialog closed, the selection and error cleared; on failure the error's
        message (or a fallback) is shown and nothing else changes. */
    method HandleSaveProduct(data: JsObject, backend: Backend) returns (sent: seq<Api.Request>)
      modifies this`products, this`loading, this`error, this`categoryProducts
      modifies this`productDialogOpen, this`selectedProduct
      ensures old(selectedCategory).None? ==>
        && error == Some(NoCategorySelected) && sent == []
        && unchanged(this`products, this`loading, this`categoryProducts, this`productDialogOpen, this`selectedProduct)
      ensures old(selectedCategory).Some? ==>
        var write := ProductWrite(old(selectedProduct), old(selectedCategory).value.CategoryID, data, backend.productWrite);
        var writeSent := if write.Some? then [write.value.request] else [];
        if write.None? || write.value.result.Success? then
          && Refreshed(backend)
          && !productDialogOpen && selectedProduct == None && error == None
          && sent == writeSent + RefreshRequests(selectedCategory)
        else
          && error == Some(MessageOr(write.value.result.error, SaveProductFailed))
          && unchanged(this`products, this`loading, this`categoryProducts, this`productDialogOpen, this`selectedProduct)
          && sent == writeSent
    {
      if selectedCategory.None? {
        error := Some(NoCategorySelected);
        return [];
      }
      var write := ProductWrite(selectedProduct, selectedCategory.value.CategoryID, data, backend.productWrite);
      sent := [];
      if write.Some? {
        sent := [write.value.request];
        if write.value.result.Failure? {
          error := Some(MessageOr(write.value.result.error, SaveProductFailed));
          return;
        }
      }
      var refreshSent := Refresh(backend);
      sent := sent + refreshSent;
      productDialogOpen, selectedProduct, error := false, None, None;
    }

    method HandleSelectCategory(category: Category)
      modifies this`selectedCategory, this`error
      ensures selectedCategory == Some(category) && error == None
    {
      selectedCategory, error := Some(category), None;
    }

    /** Cancelling the confirm dialog closes it and clears the pending
        product, but leaves the pending category as it was. */
    method HandleCloseConfirm()
      modifies this`deleteConfirmOpen, this`productToDelete
      ensures !deleteConfirmOpen && productToDelete == None
    {
      deleteConfirmOpen, productToDelete := false, None;
    }

    /** The confirm dialog's `onConfirm`, dispatched as `ConfirmTarget` says:
        with no target it changes nothing and sends nothing; a product target
        runs the product delete alone (the pending category, the selection and
        the categories list stay, and no category is deleted); a category
        target runs the category delete alone (the pending product and the
        products list stay). */
    method Confirm(backend: Backend) returns (sent: seq<Api.Request>)
      modifies this`products, this`loading, this`error, this`categoryProducts
      modifies this`selectedCategory, this`categories, this`deleteConfirmOpen
      modifies this`productToDelete, this`categoryToDelete
      ensures var t := old(ConfirmTarget(showProducts, productToDelete, categoryToDelete));
        && (t == NoTarget ==> unchanged(this) && sent == [])
        && (t.ProductTarget? ==>
              && DeletedProduct(backend, sent)
              && unchanged(this`categoryToDelete, this`selectedCategory, this`categories)
              && sent[0] == Api.DeleteProduct(t.product.ProductID, backend.productWrite).request
              && forall i :: 0 <= i < |sent| ==> !sent[i].path.CategoryPath? && !sent[i].path.CategoriesPath?)
        && (t.CategoryTarget? ==>
              && DeletedCategory(backend, sent)
              && unchanged(this`productToDelete, this`products)
              && sent[0] == Api.DeleteCategory(t.category.CategoryID, backend.categoryWrite).request)
    {
      if showProducts || productToDelete.Some? {
        sent := ConfirmDeleteProduct(backend);
      } else {
        sent := ConfirmDeleteCategory(backend);
      }
    }

    /** The category dialog's `onClose`. */
    method CloseCategoryDialog()
      modifies this`categoryDialogOpen
      ensures !categoryDialogOpen
    {
      categoryDialogOpen := false;
    }

    /** The product dialog's `onClose`: the categories view also clears the
        selected product, the products view does not. */
    method CloseProductDialog()
      modifies this`productDialogOpen, this`selectedProduct
      ensures !productDialogOpen
      ensures selectedProduct == if showProducts then old(selectedProduct) else None
    {
      productDialogOpen := false;
      if !showProducts {
        selectedProduct := None;
      }
    }

    /** A click on a row's Edit button: `handleEditCategory`, then the
        bubbled row click, `handleSelectCategory`, which also clears the
        error. */
    method ClickRowEdit(category: Category)
      modifies this`selectedCategory, this`categoryDialogOpen, this`error
      ensures selectedCategory == Some(category) && categoryDialogOpen && error == None
    {
      HandleEditCategory(category);
      HandleSelectCategory(category);
    }

    /** A click on a row's Delete Category button: `handleDeleteCategory`,
        then the bubbled row click, which selects the category. */
    method ClickRowDelete(category: Category)
      modifies this`categoryToDelete, this`deleteConfirmOpen, this`selectedCategory, this`error
      ensures categoryToDelete == Some(category) && deleteConfirmOpen
      ensures selectedCategory == Some(category) && error == None
    {
      HandleDeleteCategory(category);
      HandleSelectCategory(category);
    }

    /** A click on a row's View Products button: `handleViewProducts`, then
        the bubbled row click, which selects the same category again. */
    method ClickRowViewProducts(category: Category, backend: Backend) returns (sent: seq<Api.Request>)
      modifies this`selectedCategory, this`showProducts, this`products, this`loading, this`error
      ensures selectedCategory == Some(category) && showProducts
      ensures products == ProductsOf(backend, category.CategoryID) && !loading && error == None
      ensures sent == [Api.ProductsRequest(category.CategoryID)]
    {
      sent := HandleViewProducts(category, backend);
      HandleSelectCategory(category);
    }

    /** Deleting a category from its row and confirming, in the categories
        view with no product pending: because the row click selects the
        category first, a successful delete always clears the selection, and
        a failed one leaves the category selected. */
    method DeleteFromRow(category: Category, backend: Backend) returns (sent: seq<Api.Request>)
      modifies this`products, this`loading, this`error, this`categoryProducts
      modifies this`selectedCategory, this`categories, this`deleteConfirmOpen
      modifies this`productToDelete, this`categoryToDelete
      ensures old(!showProducts && productToDelete.None?) ==>
        var del := Api.DeleteCategory(category.CategoryID, backend.categoryWrite);
        && !deleteConfirmOpen && categoryToDelete.None?
        && sent != [] && sent[0] == del.request
        && (del.result.Pass? ==> selectedCategory == None && categories == FetchedCategories(backend) && error == None)
        && (del.result.Fail? ==> selectedCategory == Some(category) && error == Some(DeleteCategoryFailed))
    {
      ClickRowDelete(category);
      sent := Confirm(backend);
    }

    /** The row the categories table renders for `category`: its count entry
        (which may be missing) and whether it is the selected one. A category
        without a count entry, or with a zero count, is offered Delete. */
    function RowFor(category: Category): (row: CategoryRow.RowView)
      reads this
      ensures row.highlighted <==> selectedCategory.Some? && selectedCategory.value.CategoryID == category.CategoryID
      ensures CategoryRow.Offers(row, CategoryRow.ViewProducts) <==>
        category.CategoryID in categoryProducts && categoryProducts[category.CategoryID] > 0
      ensures category.CategoryID !in categoryProducts ==> CategoryRow.Offers(row, CategoryRow.DeleteCategory)
    {
      var count := if category.CategoryID in categoryProducts then Some(categoryProducts[category.CategoryID] as int) else None;
      CategoryRow.Render(category, count,
                         selectedCategory.Some? && selectedCategory.value.CategoryID == category.CategoryID)
    }
  }
}
