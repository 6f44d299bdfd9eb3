# Categories and products admin client — a Dafny model

This project models the client logic of a small browser admin tool for two
record types, categories and products, that it reads and writes through an
OData-style REST API. It covers five parts of the client:

- **API client** (`Api`, in `api.dfy`). Each operation builds one HTTP
  request (verb, URL, JSON payload) and maps the server's reply to what its
  promise resolves or rejects with. The transport is abstract. A `Reply` is
  either a response with a decoded body or a rejection that carries an
  error. A body is a bare array, an object whose `value` is or is not an
  array, `null`, or anything else.
- **Categories page** (`Pages`, in `categories_page.dfy`). A class holds
  the page's thirteen `useState` fields, and each event handler is one
  method. A handler takes the server's answers for its step as a `Backend`
  value. It returns the requests it sent, in order, so "no request is made"
  can be stated.
- **Product dialog** (`ProductForm`, in `product_dialog.dfy`). This covers
  per-field validation, the first-error rule, touched-gated revalidation,
  the reset when the dialog opens, and what `onSave` receives.
  `parseFloat`, `parseInt` and number `toString` are given as function
  values (`Parsers`). `None` stands for NaN.
- **Category dialog** (`CategoryForm`, in `category_dialog.dfy`). This
  covers the required-name check, the trimmed payload and the reset when
  the dialog opens.
- **Category row** (`CategoryRow`, in `category_row.dfy`). It chooses
  between *View Products* and *Delete Category*, and every action is bound
  to the row's own category.

Supporting modules:

- `Wrappers`: Option, Result and Outcome.
- `Types`: `Category`, `Product`, the JavaScript values `JsValue` and
  plain objects `JsObject` (maps from the eight property names the client
  uses, `Key`), plus `||` and truthiness.
- `Text`: `String.prototype.trim` over the ECMAScript white-space and
  line-terminator code points.
- `Decimal`: how `${id}` renders an integer below 10^21 in magnitude
  (plain decimal digits). It proves that the rendering
  is one-to-one, so the identifier-scoped URLs are one-to-one too. A
  request names its target as a `Path`; `Api.Url` renders it.

Objects the client builds or forwards as `Partial<...>` are modelled as
`JsObject` maps. This keeps the source's `||` defaults, `!==` comparisons
and the `undefined` filter at JavaScript level.

## Behaviour worth noting

- `getCategories` rethrows every failure. The page catches it, shows
  'Failed to fetch categories' and empties the list.
- `deleteProduct` reports a non-204 response as 'Unexpected response from
  server'. Only a rejection with status 400 becomes 'Invalid product ID or
  product not found'.
- Category writes always send `Picture: null`, even when the caller gave a
  picture.
- After a successful category delete the error is cleared, even when the
  refetch that follows failed.
- The row's buttons do not stop propagation, so each button click also runs
  the row's `onSelect`. A delete started from a row therefore always selects
  that category first, and a successful delete then always clears the
  selection. Edit also clears the error banner.

## Model

| member | source | states |
|---|---|---|
| Text.TrimSpec | client/src/components/ProductDialog.tsx:55 | the trimmed text is a contiguous piece of the input, everything cut from either end is white space, and it neither starts nor ends with white space |
| Text.TrimEmptyIff | client/src/components/CategoryDialog.tsx:48 | `!value.trim()` holds exactly when the text is all white space |
| Api.RouteShape | client/src/services/api.ts:50 | the routes of the five request targets are told apart by their fixed characters: the categories and products groups differ at the second character, the bare list paths have fixed lengths, and the filter query differs from the product path at the tenth character |
| Api.UrlInjective | client/src/services/api.ts:50 | equal URLs have equal targets: `/categories`, `/categories/CategoryID/{id}`, `/products`, `/products?$filter=CategoryID eq {id}` and `/products/ProductID/{id}` never coincide, and each identifier-scoped URL determines its identifier |
| Api.CategoryPayload | client/src/services/api.ts:25-28 | the payload has the caller's keys plus `Picture`; `Picture` is null even when the caller supplied one; every other entry is unchanged |
| Api.DefinedEntries | client/src/services/api.ts:124-126 | a key survives exactly when its value is not `undefined`; surviving entries, `null` included, keep their value |
| Api.FirstValue | client/src/services/api.ts:32 | `response.data.value[0]`: a rejection is rethrown unchanged; with an envelope it resolves to the first element, or `undefined` for an empty array; with no envelope it throws a TypeError, for reading `value` of a null body or `[0]` of a missing array |
| Api.GetCategories | client/src/services/api.ts:7-21 | GET `/categories`; resolves to `cs` exactly when the body's `value` is the array `cs`; a null body throws the TypeError for `null.value`; a rejection is rethrown unchanged |
| Api.CreateCategory | client/src/services/api.ts:23-41 | POST `/categories` with `CategoryPayload` of the input; the result is `FirstValue` of the reply |
| Api.UpdateCategory | client/src/services/api.ts:43-61 | PATCH the category's path with `CategoryPayload` of the input; the result is `FirstValue` of the reply |
| Api.DeleteCategory | client/src/services/api.ts:63-76 | DELETE the category's path; succeeds exactly when there is a response; a rejection's error is rethrown unchanged |
| Api.GetProducts | client/src/services/api.ts:79-100 | GET the filter URL; a bare array is returned as it is, otherwise an envelope's array; any other shape and any rejection give [] (never fails) |
| Api.CreateProduct | client/src/services/api.ts:102-119 | POST `/products` with a copy of the product; the result is `FirstValue` of the reply |
| Api.UpdateProduct | client/src/services/api.ts:121-144 | PATCH the product's path with `DefinedEntries` of the input; the result is `FirstValue` of the reply |
| Api.DeleteProduct | client/src/services/api.ts:146-168 | succeeds exactly on a 204 response; any other response fails with 'Unexpected response from server' and no response attached; a 400 rejection becomes 'Invalid product ID or product not found'; other rejections are rethrown |
| CategoryRow.Render | client/src/components/CategoryRow.tsx:24-58 | highlighted exactly when selected; a row click selects the row's own category; every button's own handler gets the row's category, and a button click then runs the row click too (the event bubbles: no button stops propagation); Edit is always offered; View Products is offered exactly when the count is above zero (a missing count is not), Delete Category exactly when it is not |
| CategoryForm.Submission | client/src/components/CategoryDialog.tsx:47-58 | fails with 'Category Name is required' exactly when the name is all white space; the description never blocks saving; otherwise the payload is the trimmed name and trimmed description |
| CategoryForm.CategoryDialog.constructor | client/src/components/CategoryDialog.tsx:26-32 | the fields start from the category, or empty; no error; nothing touched |
| CategoryForm.CategoryDialog.OnOpenOrCategoryChange | client/src/components/CategoryDialog.tsx:34-45 | on open, the name and description are reset from the category (or to ''), and the error and touched flags are cleared; while closed nothing changes |
| CategoryForm.CategoryDialog.ChangeName | client/src/components/CategoryDialog.tsx:73 | the name field takes the typed text; nothing else changes |
| CategoryForm.CategoryDialog.ChangeDescription | client/src/components/CategoryDialog.tsx:82 | the description field takes the typed text; nothing else changes |
| CategoryForm.CategoryDialog.HandleSave | client/src/components/CategoryDialog.tsx:47-58 | on a white-space name the error is set and neither `onSave` nor `onClose` runs; otherwise `onSave` gets the trimmed fields and `onClose` follows |
| ProductForm.ValidateField | client/src/components/ProductDialog.tsx:52-70 | the name is valid exactly when it is not all white space; for price, not-a-number is reported before negative, and a parsed non-negative price is valid; stock reports only not-a-number or negative, never the whole-number message; every message is non-empty |
| ProductForm.Submission | client/src/components/ProductDialog.tsx:76-105 | fails exactly when some field is invalid, with the first failing message in the order name, price, stock; otherwise the payload is the trimmed name and the parsed, non-negative price and stock |
| ProductForm.ProductDialog.constructor | client/src/components/ProductDialog.tsx:27-35 | the fields start from the product, or as '' / '0.00' / '0'; no error; nothing touched |
| ProductForm.ProductDialog.OnOpenOrProductChange | client/src/components/ProductDialog.tsx:37-50 | on open, the fields are reset from the product (or to '' / '0.00' / '0'), the error is cleared and every field is untouched; while closed nothing changes |
| ProductForm.ProductDialog.HandleBlur | client/src/components/ProductDialog.tsx:72-74 | only the blurred field becomes touched |
| ProductForm.ProductDialog.HandleChange | client/src/components/ProductDialog.tsx:120-162 | the edited field takes the new text; the shared error is recomputed from that text only when the field was already touched |
| ProductForm.ProductDialog.HandleSave | client/src/components/ProductDialog.tsx:76-105 | every field becomes touched whatever the outcome; on error the first message is shown and neither `onSave` nor `onClose` runs; otherwise `onSave` gets the submission and `onClose` follows |
| Pages.CountProducts | client/src/components/CategoriesPage.tsx:51-56 | one products request per category in order; the count map's keys are exactly the categories' ids, each mapped to the length of that category's products list |
| Pages.FetchedCounts | client/src/components/CategoriesPage.tsx:51-57 | after a successful list fetch the count map's keys are exactly the fetched ids and each value is that category's products count; after a failed one the old counts stay |
| Pages.FetchError | client/src/components/CategoriesPage.tsx:47-60 | the error is cleared exactly when the list fetch succeeded; otherwise it is 'Failed to fetch categories' |
| Pages.NewCategory | client/src/components/CategoriesPage.tsx:128-132 | the new category has name and description from the dialog, '' where they are missing or falsy, and a null picture |
| Pages.ChangedFields | client/src/components/CategoriesPage.tsx:213-223 | a field is in the update exactly when the dialog value differs from the loaded product's, and it carries the dialog value |
| Pages.NewProduct | client/src/components/CategoriesPage.tsx:231-236 | the new product has `CategoryID` of the selected category; a missing or falsy name, price or stock becomes '' / 0 / 0 |
| Pages.ProductWrite | client/src/components/CategoriesPage.tsx:211-238 | editing sends `UpdateProduct` of the changed fields, and no request at all exactly when nothing changed; adding sends `CreateProduct` of `NewProduct` |
| Pages.UneditedDialogSendsNoUpdate | client/src/components/CategoriesPage.tsx:225-228 | saving the product dialog unedited (for a product whose name and numbers read back as themselves) passes validation and causes no update request |
| Pages.ConfirmTarget | client/src/components/CategoriesPage.tsx:450 | confirm deletes the pending product exactly when one is set; it deletes the pending category only in the categories view and only when no product is pending; otherwise there is no target (the products view at lines 357-363 only ever confirms a product delete) |
| Pages.ConfirmPrompt | client/src/components/CategoriesPage.tsx:443-449 | the title and message name the very record that confirm deletes; the message is empty exactly when there is no target |
| Pages.CategoriesPage.constructor | client/src/components/CategoriesPage.tsx:30-42 | empty lists, nothing selected or pending, dialogs closed, loading |
| Pages.CategoriesPage.FetchCategories | client/src/components/CategoriesPage.tsx:44-65 | on success the fetched list and the new count map (`FetchedCounts`), on failure an empty list, the old counts and the error (`FetchError`); loading ends false either way; only those four fields change; the requests are the list GET followed by one products GET per fetched category |
| Pages.CategoriesPage.FetchProducts | client/src/components/CategoriesPage.tsx:67-80 | the products are that category's list; loading ends false and the error is cleared; one GET is sent |
| Pages.CategoriesPage.HandleAddCategory | client/src/components/CategoriesPage.tsx:86-89 | clears the selection and opens the category dialog; nothing else changes |
| Pages.CategoriesPage.HandleEditCategory | client/src/components/CategoriesPage.tsx:91-94 | selects the category and opens the category dialog; nothing else changes |
| Pages.CategoriesPage.HandleDeleteCategory | client/src/components/CategoriesPage.tsx:96-99 | makes the category the pending delete and opens confirm; nothing else changes |
| Pages.CategoriesPage.ConfirmDeleteCategory | client/src/components/CategoriesPage.tsx:101-120 | with no pending category nothing changes and nothing is sent; otherwise confirm closes and the pending category is cleared on success and on failure; on success the selection is cleared only if its id is the deleted id, the list is refetched and the error cleared; on failure 'Failed to delete category' is shown |
| Pages.CategoriesPage.HandleSaveCategory | client/src/components/CategoriesPage.tsx:122-141 | updates the selected category, or creates `NewCategory`; on success refetches and clears the selection; on failure sets 'Failed to save category' and changes nothing else |
| Pages.CategoriesPage.HandleViewProducts | client/src/components/CategoriesPage.tsx:143-147 | selects the category, shows the products view and fetches its products |
| Pages.CategoriesPage.HandleBackToCategories | client/src/components/CategoriesPage.tsx:149-151 | changes only the products-view flag |
| Pages.CategoriesPage.HandleAddProduct | client/src/components/CategoriesPage.tsx:153-160 | with no selected category, sets 'Please select a category first' and leaves the dialog closed; otherwise clears the selected product and opens the dialog |
| Pages.CategoriesPage.HandleEditProduct | client/src/components/CategoriesPage.tsx:162-165 | selects the product and opens the product dialog |
| Pages.CategoriesPage.HandleDeleteProduct | client/src/components/CategoriesPage.tsx:167-170 | makes the product the pending delete and opens confirm |
| Pages.CategoriesPage.ConfirmDeleteProduct | client/src/components/CategoriesPage.tsx:172-202 | with no pending product nothing changes; otherwise confirm closes and the pending product is cleared on success and on failure; on success the selected category's products and count entry are refreshed (`Refreshed`) and the error is cleared; on failure the error's message, or the fallback, is shown |
| Pages.CategoriesPage.Refresh | client/src/components/CategoriesPage.tsx:240-248 | with a selected category its products are refetched, loading ends false and only its count entry is rewritten with the new list's length (every other key keeps its value); with none nothing changes; two GETs for the selected category, or none |
| Pages.CategoriesPage.HandleSaveProduct | client/src/components/CategoriesPage.tsx:204-257 | with no selected category, sets 'No category selected' and sends nothing; otherwise sends `ProductWrite` (if any); on success refreshes, closes the dialog and clears the selected product and error; on failure shows the message, or the fallback |
| Pages.CategoriesPage.HandleSelectCategory | client/src/components/CategoriesPage.tsx:259-263 | selects the category and clears the error |
| Pages.CategoriesPage.HandleCloseConfirm | client/src/components/CategoriesPage.tsx:265-268 | closes confirm and clears the pending product; the pending category is left as it was |
| Pages.CategoriesPage.Confirm | client/src/components/CategoriesPage.tsx:441-452 | dispatches as `ConfirmTarget` says (the products view always uses the product delete): with no target it is a no-op; a product target gives exactly the outcome of `confirmDeleteProduct` (`DeletedProduct`), leaves the pending category, the selection and the categories list alone, and sends no category request; a category target gives exactly the outcome of `confirmDeleteCategory` (`DeletedCategory`) and leaves the pending product and the products list alone; the first request deletes the target |
| Pages.CategoriesPage.CloseCategoryDialog | client/src/components/CategoriesPage.tsx:425 | closes the category dialog only |
| Pages.CategoriesPage.CloseProductDialog | client/src/components/CategoriesPage.tsx:433-436 | closes the product dialog; in the categories view it also clears the selected product |
| Pages.CategoriesPage.RowFor | client/src/components/CategoriesPage.tsx:404-413 | the row is highlighted exactly when its id is the selected id; View Products exactly when a positive count entry exists; a category with no count entry is offered Delete |
| Pages.CategoriesPage.ClickRowEdit | client/src/components/CategoryRow.tsx:28-40 | Edit from a row opens the category dialog on that category and, through the bubbled row click, also clears the error |
| Pages.CategoriesPage.ClickRowDelete | client/src/components/CategoryRow.tsx:28-54 | Delete Category from a row makes it the pending delete, opens confirm, and through the bubbled row click selects it and clears the error |
| Pages.CategoriesPage.ClickRowViewProducts | client/src/components/CategoryRow.tsx:28-46 | View Products from a row selects the category, shows the products view, fetches its products with one GET and clears the error |
| Pages.CategoriesPage.DeleteFromRow | client/src/components/CategoriesPage.tsx:101-120 | a category deleted from its row and confirmed in the categories view: the first request deletes it; on success the selection is always cleared (the row click selected it), the list is refetched and the error cleared; on failure the category stays selected and 'Failed to delete category' is shown |

## Left out

- HTTP transport: axios, the request timeout and headers, the interceptors
  and all console logging. A reply is an input to each operation.
- The `REACT_APP_API_URL` override: the model uses the default base URL.
- Objects hold only the eight property names the client reads or writes
  (`Key`). Extra properties a caller might pass in a `Partial<...>` are not
  representable, so the model does not show them being forwarded.
- Identifiers are unbounded integers. JavaScript numbers are doubles, which
  are exact only up to 2^53, and `${id}` switches to exponent notation
  (`1e+21`) from 10^21 on. `Decimal.IntToString` renders plain digits for
  every integer, so `Api.UrlInjective` holds for the model's identifiers but
  says nothing about identifiers beyond those bounds.
- The TypeError messages (`Api.ValueOfNull`, `Api.IndexOfUndefined`) use
  V8's wording. Other engines word them differently. The page shows them
  through `err.message || ...` after a failed product save.
- JSON serialisation (which drops `undefined` entries) and URL encoding of
  the filter query.
- A `value` field that is present but not an array is treated like a
  missing one. `value[0]` on such a value is therefore modelled as a
  TypeError, not as `undefined`.
- The server's own behaviour: a created item shows up in the list, unpatched
  fields stay as they were, a deleted category is gone, listing an unknown
  category returns []. The integration tests exercise these against a live
  server. The only part modelled is that `getProducts` gives [] whenever the
  request fails.
- Concurrency and async interleaving. Each handler is one atomic step, and
  React batching is ignored. The dialogs call `onSave` without awaiting it
  and then `onClose`; the model runs the save handler and the close as two
  separate steps. Within one step, repeated GETs of the same category's
  products get the same answer.
- Pages.CategoriesPage.FetchProducts: its catch branch ('Failed to fetch
  products') cannot run because `getProducts` never rejects, so it is not
  modelled.
- Floating point and JavaScript library semantics: `parseFloat`,
  `parseInt` and `toString` are parameters. NaN appears only as a failed
  parse; infinities and -0 are not modelled. Prices are reals and stock
  counts are integers. The `toFixed(2)` price display is not modelled.
- Rendering: MUI layout, icons, titles and button labels, including the
  count shown on *View Products*. `ConfirmDialog` and `Toast` are not part
  of this model; only the props the page passes to `ConfirmDialog` are.
- CategoryHeader.tsx, ErrorBoundary.tsx, App.tsx and
  scripts/capture-screenshots.ts are presentational, framework or
  browser-automation code.
- types/index.ts is shadowed by types.ts for the `'../types'` imports, so
  the records follow types.ts.
