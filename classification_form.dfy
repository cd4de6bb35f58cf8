/**
 * The classification dialog: one name input and one error message. Submitting
 * a blank name shows the error; submitting anything else hands the trimmed
 * name to the caller and empties the form. Typing a non-blank value clears
 * the error.
 */
module ClassificationForm {
  import opened Types
  import opened Strings

  const NameRequired := "Classification name is required"

  /** The form's `name` and `error` state. */
  class ClassificationForm {
    var name: string
    var error: string

    /** Mounting: the name starts as the initial value (default `""`), with no error. */
    constructor (initialValue: string)
      ensures name == initialValue && error == ""
    {
      name := initialValue;
      error := "";
    }

    /**
     * `handleSubmit`: a name that is blank after trimming sets the error and
     * submits nothing; otherwise the trimmed name is returned (it is what is
     * passed to `onSubmit`), the input is emptied and the error cleared.
     */
    method HandleSubmit() returns (submitted: Option<string>)
      modifies this
      ensures IsBlank(old(name)) ==> submitted == None && name == old(name) && error == NameRequired
      ensures !IsBlank(old(name)) ==> submitted == Some(Trim(old(name))) && name == "" && error == ""
    {
      if IsBlank(name) {
        error := NameRequired;
        return None;
      }
      submitted := Some(Trim(name));
      name := "";
      error := "";
    }

    /** The input's `onChange`: stores the value; a non-blank value clears the error. */
    method HandleChange(value: string)
      modifies this
      ensures name == value
      ensures !IsBlank(value) ==> error == ""
      ensures IsBlank(value) ==> error == old(error)
    {
      name := value;
      if !IsBlank(value) {
        error := "";
      }
    }
  }

  /**
   * What a valid submit hands on is non-empty, neither starts nor ends with
   * whitespace, and is left unchanged by trimming it again.
   */
  lemma SubmittedNameIsTrimmed(name: string)
    requires !IsBlank(name)
    ensures var s := Trim(name);
      && s != []
      && !IsWhitespace(s[0]) && !IsWhitespace(s[|s| - 1])
      && Trim(s) == s
  {
    TrimShape(name);
    TrimIdempotent(name);
  }
}
