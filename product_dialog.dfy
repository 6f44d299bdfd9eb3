/** The add/edit product dialog: per-field validation, the first-error rule,
    the touched-gated revalidation, and what `onSave` receives. */
module ProductForm {
  import opened Wrappers
  import opened Types
  import opened Text

  datatype Field = NameField | PriceField | StockField

  /** The JavaScript built-ins the form relies on, taken as given:
      `parseFloat` and `parseInt` (`None` stands for NaN) and `toString` on
      numbers. */
  datatype Parsers = Parsers(
    parseFloat: string -> Option<real>,
    parseInt: string -> Option<int>,
    numberToString: real -> string)

  const NameRequired: string := "Product Name is required"
  const PriceNotNumber: string := "Unit Price must be a valid number"
  const PriceNegative: string := "Unit Price cannot be negative"
  const StockNotNumber: string := "Units in Stock must be a valid number"
  const StockNegative: string := "Units in Stock cannot be negative"
  const StockNotWhole: string := "Units in Stock must be a whole number"

  datatype Touched = Touched(name: bool, unitPrice: bool, unitsInStock: bool)

  const Untouched: Touched := Touched(false, false, false)

  /** `validateField`: the message for the first rule the value breaks, in
      the order the switch checks them, or none. */
  function ValidateField(field: Field, value: string, parsers: Parsers): (r: Option<string>)
    ensures r.Some? ==> r.value != ""
    ensures field == NameField ==>
      (r.None? <==> !AllWhitespace(value)) && (r.Some? ==> r.value == NameRequired)
    ensures field == PriceField ==>
      match parsers.parseFloat(value)
      case None => r == Some(PriceNotNumber)
      case Some(price) => r == if price < 0.0 then Some(PriceNegative) else None
    ensures field == StockField ==>
      match parsers.parseInt(value)
      case None => r == Some(StockNotNumber)
      case Some(stock) => r == if stock < 0 then Some(StockNegative) else None
  {
    match field
    case NameField =>
      TrimEmptyIff(value);
      if Trim(value) == [] then Some(NameRequired) else None
    case PriceField =>
      (match parsers.parseFloat(value)
       case None => Some(PriceNotNumber)
       case Some(price) => if price < 0.0 then Some(PriceNegative) else None)
    case StockField =>
      (match parsers.parseInt(value)
       case None => Some(StockNotNumber)
       case Some(stock) =>
         if stock < 0 then Some(StockNegative)
         else if (stock as real).Floor != stock then Some(StockNotWhole)
         else None)
  }

  /** `a || b` on optional messages: an empty message is falsy too. */
  function OrElse(a: Option<string>, b: Option<string>): Option<string> {
    if a.Some? && a.value != "" then a else b
  }

  /** `nameError || priceError || stockError`. */
  function FirstError(nameError: Option<string>, priceError: Option<string>, stockError: Option<string>): Option<string> {
    OrElse(OrElse(nameError, priceError), stockError)
  }

  /** What `handleSave` decides for the current field texts: the first
      failing field's message in the order name, price, stock, or else the
      payload for `onSave` with the trimmed name and the parsed, non-negative
      price and stock. */
  function Submission(name: string, unitPrice: string, unitsInStock: string, parsers: Parsers): (r: Result<JsObject, string>)
    ensures var nameError := ValidateField(NameField, name, parsers);
      var priceError := ValidateField(PriceField, unitPrice, parsers);
      var stockError := ValidateField(StockField, unitsInStock, parsers);
      && (r.Failure? <==> nameError.Some? || priceError.Some? || stockError.Some?)
      && (r.Failure? ==> r.error == if nameError.Some? then nameError.value
                                  else if priceError.Some? then priceError.value
                                  else stockError.value)
    ensures r.Success? ==>
      && parsers.parseFloat(unitPrice).Some? && parsers.parseFloat(unitPrice).value >= 0.0
      && parsers.parseInt(unitsInStock).Some? && parsers.parseInt(unitsInStock).value >= 0
      && r.value == map[
           ProductName := Str(Trim(name)),
           UnitPrice := Num(parsers.parseFloat(unitPrice).value),
           UnitsInStock := IntValue(parsers.parseInt(unitsInStock).value)]
  {
    var nameError := ValidateField(NameField, name, parsers);
    var priceError := ValidateField(PriceField, unitPrice, parsers);
    var stockError := ValidateField(StockField, unitsInStock, parsers);
    var firstError := FirstError(nameError, priceError, stockError);
    if firstError.Some? && firstError.value != "" then
      Failure(firstError.value)
    else
      var price := parsers.parseFloat(unitPrice);
      var stock := parsers.parseInt(unitsInStock);
      Success(map[
        ProductName := Str(Trim(name)),
        UnitPrice := Num(price.GetOr(0.0)),
        UnitsInStock := IntValue(stock.GetOr(0))])
  }

  /** `product?.ProductName || ''`. */
  function InitialName(product: Option<Product>): string {
    if product.Some? then product.value.ProductName else ""
  }

  /** `product?.UnitPrice?.toString() || '0.00'`. */
  function InitialPrice(product: Option<Product>, parsers: Parsers): string {
    if product.Some? && parsers.numberToString(product.value.UnitPrice) != "" then
      parsers.numberToString(product.value.UnitPrice)
    else "0.00"
  }

  /** `product?.UnitsInStock?.toString() || '0'`. */
  function InitialStock(product: Option<Product>, parsers: Parsers): string {
    if product.Some? && parsers.numberToString(product.value.UnitsInStock as real) != "" then
      parsers.numberToString(product.value.UnitsInStock as real)
    else "0"
  }

  class ProductDialog {
    var name: string
    var unitPrice: string
    var unitsInStock: string
    var error: Option<string>
    var touched: Touched

    /** The initial `useState` values for the product the dialog is given. */
    constructor (product: Option<Product>, parsers: Parsers)
      ensures name == InitialName(product)
      ensures unitPrice == InitialPrice(product, parsers)
      ensures unitsInStock == InitialStock(product, parsers)
      ensures error == None && touched == Untouched
    {
      name := InitialName(product);
      unitPrice := InitialPrice(product, parsers);
      unitsInStock := InitialStock(product, parsers);
      error := None;
      touched := Untouched;
    }

    /** The effect run when `open` or `product` changes: opening resets the
        fields from the product (or to '', '0.00' and '0'), clears the error
        and marks every field untouched; while closed nothing is reset. */
    method OnOpenOrProductChange(open: bool, product: Option<Product>, parsers: Parsers)
      modifies this
      ensures open ==> name == InitialName(product)
      ensures open ==> unitPrice == InitialPrice(product, parsers)
      ensures open ==> unitsInStock == InitialStock(product, parsers)
      ensures open ==> error == None && touched == Untouched
      ensures !open ==> unchanged(this)
    {
      if open {
        name := InitialName(product);
        unitPrice := InitialPrice(product, parsers);
        unitsInStock := InitialStock(product, parsers);
        error := None;
        touched := Untouched;
      }
    }

    /** `handleBlur`: marks one field touched. */
    method HandleBlur(field: Field)
      modifies this
      ensures touched == match field
        case NameField => old(touched).(name := true)
        case PriceField => old(touched).(unitPrice := true)
        case StockField => old(touched).(unitsInStock := true)
      ensures name == old(name) && unitPrice == old(unitPrice) && unitsInStock == old(unitsInStock)
      ensures error == old(error)
    {
      match field
      case NameField => touched := touched.(name := true);
      case PriceField => touched := touched.(unitPrice := true);
      case StockField => touched := touched.(unitsInStock := true);
    }

    predicate IsTouched(field: Field)
      reads this
    {
      match field
      case NameField => touched.name
      case PriceField => touched.unitPrice
      case StockField => touched.unitsInStock
    }

    /** A text field's `onChange`: stores the new text and, only when that
        field is already touched, replaces the shared error by the field's
        validation of the new text. */
    method HandleChange(field: Field, value: string, parsers: Parsers)
      modifies this
      ensures name == (if field == NameField then value else old(name))
      ensures unitPrice == (if field == PriceField then value else old(unitPrice))
      ensures unitsInStock == (if field == StockField then value else old(unitsInStock))
      ensures error == if old(IsTouched(field)) then ValidateField(field, value, parsers) else old(error)
      ensures touched == old(touched)
    {
      match field {
        case NameField => name := value;
        case PriceField => unitPrice := value;
        case StockField => unitsInStock := value;
      }
      if IsTouched(field) {
        error := ValidateField(field, value, parsers);
      }
    }

    /** `handleSave`: marks every field touched; on an error shows the first
        one and calls neither `onSave` nor `onClose`; otherwise `onSave`
        receives the submission and then `onClose` is called. */
    method HandleSave(parsers: Parsers) returns (saved: Option<JsObject>, closed: bool)
      modifies this
      ensures touched == Touched(true, true, true)
      ensures var s := Submission(old(name), old(unitPrice), old(unitsInStock), parsers);
        && (s.Failure? ==> saved == None && !closed && error == Some(s.error))
        && (s.Success? ==> saved == Some(s.value) && closed && error == old(error))
      ensures name == old(name) && unitPrice == old(unitPrice) && unitsInStock == old(unitsInStock)
    {
      var s := Submission(name, unitPrice, unitsInStock, parsers);
      touched := Touched(true, true, true);
      if s.Failure? {
        error := Some(s.error);
        saved, closed := None, false;
        return;
      }
      saved := Some(s.value);
      closed := true;
    }
  }
}
