/** One row of the categories table: what it highlights and which actions it
    offers, each bound to the row's own category. */
module CategoryRow {
  import opened Wrappers
  import opened Types

  datatype Action = Select | Edit | DeleteCategory | ViewProducts

  /** A handler the row calls, with the argument it passes. */
  datatype Invocation = Invocation(action: Action, category: Category)

  /** A button, given by the handlers one click on it runs, in order: its
      own, then (the click bubbling up, since nothing stops propagation) the
      row's. */
  datatype Button = Button(handlers: seq<Invocation>)

  /** The rendered row: its highlight, the click on the row itself, and its
      buttons from left to right. */
  datatype RowView = RowView(highlighted: bool, onClick: Invocation, buttons: seq<Button>)

  /** Some button of the row runs action `a` as its own handler. */
  predicate Offers(row: RowView, a: Action) {
    exists b :: b in row.buttons && |b.handlers| > 0 && b.handlers[0].action == a
  }

  /** `productCount > 0` where the count may be `undefined`, which compares
      false. */
  predicate HasProducts(productCount: Option<int>) {
    productCount.Some? && productCount.value > 0
  }

  /** The row for `category`: Edit always, then View Products when the count
      is above zero and Delete Category otherwise; every handler gets the row's
      own category; a button click runs the button's handler and then selects
      the row; the row is highlighted exactly when it is selected. */
  function Render(category: Category, productCount: Option<int>, selected: bool): (row: RowView)
    ensures row.highlighted == selected
    ensures row.onClick == Invocation(Select, category)
    ensures forall b :: b in row.buttons ==>
      && |b.handlers| == 2 && b.handlers[0].category == category && b.handlers[0].action != Select
      && b.handlers[1] == row.onClick
    ensures !Offers(row, Select)
    ensures Offers(row, Edit)
    ensures Offers(row, ViewProducts) <==> HasProducts(productCount)
    ensures Offers(row, DeleteCategory) <==> !HasProducts(productCount)
  {
    var select := Invocation(Select, category);
    var edit := Button([Invocation(Edit, category), select]);
    var second := Button([Invocation(if HasProducts(productCount) then ViewProducts else DeleteCategory, category), select]);
    var row := RowView(selected, select, [edit, second]);
    assert row.buttons[0] == edit && row.buttons[1] == second;
    row
  }
}
