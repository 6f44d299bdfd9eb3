/** The add/edit category dialog: its form state, the reset when it opens,
    and the validation that decides what `onSave` receives. */
module CategoryForm {
  import opened Wrappers
  import opened Types
  import opened Text

  const NameRequired: string := "Category Name is required"

  /** `category?.CategoryName || ''`. */
  function InitialName(category: Option<Category>): string {
    if category.Some? then category.value.CategoryName else ""
  }

  /** `category?.Description || ''`. */
  function InitialDescription(category: Option<Category>): string {
    if category.Some? then category.value.Description else ""
  }

  /** What saving the form produces: the required-name error when the name is
      only white space, otherwise the trimmed name and the trimmed description.
      The description never blocks saving. */
  function Submission(name: string, description: string): (r: Result<JsObject, string>)
    ensures r.Failure? <==> AllWhitespace(name)
    ensures r.Failure? ==> r.error == NameRequired
    ensures r.Success? ==>
      r.value.Keys == {CategoryName, Description} &&
      r.value[CategoryName] == Str(Trim(name)) && Trim(name) != [] &&
      r.value[Description] == Str(Trim(description))
  {
    TrimEmptyIff(name);
    if Trim(name) == [] then Failure(NameRequired)
    else Success(map[CategoryName := Str(Trim(name)), Description := Str(Trim(description))])
  }

  class CategoryDialog {
    var name: string
    var description: string
    var error: Option<string>
    var touchedName: bool
    var touchedDescription: bool

    /** The initial `useState` values for the category the dialog is given. */
    constructor (category: Option<Category>)
      ensures name == InitialName(category) && description == InitialDescription(category)
      ensures error == None && !touchedName && !touchedDescription
    {
      name := InitialName(category);
      description := InitialDescription(category);
      error := None;
      touchedName, touchedDescription := false, false;
    }

    /** The effect run when `open` or `category` changes: opening resets the
        form from the category (or to empty fields) and clears the error and
        the touched flags; while closed nothing is reset. */
    method OnOpenOrCategoryChange(open: bool, category: Option<Category>)
      modifies this
      ensures open ==> name == InitialName(category) && description == InitialDescription(category)
      ensures open ==> error == None && !touchedName && !touchedDescription
      ensures !open ==> unchanged(this)
    {
      if open {
        name := InitialName(category);
        description := InitialDescription(category);
        error := None;
        touchedName, touchedDescription := false, false;
      }
    }

    method ChangeName(value: string)
      modifies this
      ensures name == value
      ensures description == old(description) && error == old(error)
      ensures touchedName == old(touchedName) && touchedDescription == old(touchedDescription)
    {
      name := value;
    }

    method ChangeDescription(value: string)
      modifies this
      ensures description == value
      ensures name == old(name) && error == old(error)
      ensures touchedName == old(touchedName) && touchedDescription == old(touchedDescription)
    {
      description := value;
    }

    /** `handleSave`: on a white-space name the error is set and neither
        `onSave` nor `onClose` is called; otherwise `onSave` receives the
        trimmed fields and then `onClose` is called. */
    method HandleSave() returns (saved: Option<JsObject>, closed: bool)
      modifies this
      ensures var s := Submission(old(name), old(description));
        && (s.Failure? ==> saved == None && !closed && error == Some(NameRequired))
        && (s.Success? ==> saved == Some(s.value) && closed && error == old(error))
      ensures name == old(name) && description == old(description)
      ensures touchedName == old(touchedName) && touchedDescription == old(touchedDescription)
    {
      var s := Submission(name, description);
      if s.Failure? {
        error := Some(s.error);
        saved, closed := None, false;
        return;
      }
      saved := Some(s.value);
      closed := true;
    }
  }
}
