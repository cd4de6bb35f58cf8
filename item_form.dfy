/**
 * The item dialog: five text inputs, a map of per-field error messages, the
 * validation that fills that map, and the payload a valid submit hands to
 * its caller (trimmed, a blank photo URL dropped, the price parsed).
 *
 * The host services the component calls are parameters: `parse` stands for
 * `parseFloat` (`None` where it gives `NaN`), `toDate` for `new Date(s)`,
 * `isoDate` for `date.toISOString().split("T")[0]`, `show` for
 * `Number.prototype.toString`, and `today` for the current date as `isoDate`
 * renders it.
 */
module ItemForm {
  import opened Types
  import opened Strings

  /** The `name` attributes of the form's inputs. */
  datatype Field = Name | PhotoUrl | PurchaseDate | Price | Memo

  /** The form's `formData` state: every input holds a string. */
  datatype FormData = FormData(name: string, photoUrl: string, purchaseDate: string, price: string, memo: string) {
    function Get(f: Field): string {
      match f
      case Name => name
      case PhotoUrl => photoUrl
      case PurchaseDate => purchaseDate
      case Price => price
      case Memo => memo
    }

    /** The form data with input `f` set to `v` and every other input kept. */
    function With(f: Field, v: string): (d: FormData)
      ensures d.Get(f) == v
      ensures forall g :: g != f ==> d.Get(g) == Get(g)
    {
      match f
      case Name => this.(name := v)
      case PhotoUrl => this.(photoUrl := v)
      case PurchaseDate => this.(purchaseDate := v)
      case Price => this.(price := v)
      case Memo => this.(memo := v)
    }
  }

  /** The fields of `Partial<Item>` the form reads its initial values from. */
  datatype InitialValues = InitialValues(
    name: Option<string>,
    photoUrl: Option<string>,
    purchaseDate: Option<Timestamp>,
    price: Option<real>,
    memo: Option<string>)

  /** What a valid submit passes to `onSubmit`. */
  datatype Submission = Submission(
    name: string,
    photoUrl: Option<string>,
    purchaseDate: Timestamp,
    price: real,
    memo: string)

  const NameRequired := "Name is required"
  const PurchaseDateRequired := "Purchase date is required"
  const PriceRequired := "Price is required"
  const PriceInvalid := "Price must be a valid number"

  /** A price text that does not parse as a number, or parses as a negative one. */
  predicate PriceUnusable(price: string, parse: string -> Option<real>) {
    parse(price).None? || parse(price).value < 0.0
  }

  /**
   * The error map `validateForm` builds from the form data: the name must
   * not be blank, the purchase date not empty, and the price neither empty
   * nor unusable, with one message per failing field; no other field is
   * ever in error, and the map is empty exactly when every check passes.
   */
  function ValidationErrors(d: FormData, parse: string -> Option<real>): (errs: map<Field, string>)
    ensures errs.Keys <= {Name, PurchaseDate, Price}
    ensures Name in errs <==> IsBlank(d.name)
    ensures Name in errs ==> errs[Name] == NameRequired
    ensures PurchaseDate in errs <==> d.purchaseDate == ""
    ensures PurchaseDate in errs ==> errs[PurchaseDate] == PurchaseDateRequired
    ensures Price in errs <==> d.price == "" || PriceUnusable(d.price, parse)
    ensures Price in errs ==> (errs[Price] == PriceRequired <==> d.price == "")
    ensures Price in errs ==> (errs[Price] == PriceInvalid <==> d.price != "")
    ensures errs == map[] <==>
      !IsBlank(d.name) && d.purchaseDate != "" && d.price != "" && !PriceUnusable(d.price, parse)
  {
    var afterName := if IsBlank(d.name) then map[Name := NameRequired] else map[];
    var afterDate := if d.purchaseDate == "" then afterName[PurchaseDate := PurchaseDateRequired] else afterName;
    var errs :=
      if d.price == "" then afterDate[Price := PriceRequired]
      else if PriceUnusable(d.price, parse) then afterDate[Price := PriceInvalid]
      else afterDate;
    assert Name in errs ==> errs != map[];
    assert PurchaseDate in errs ==> errs != map[];
    assert Price in errs ==> errs != map[];
    errs
  }

  /**
   * The payload of a valid submit: the name and memo trimmed, a photo URL
   * that is blank after trimming dropped (`undefined`), the date converted
   * and the price parsed. The name is then non-empty and already trimmed,
   * and the price is a non-negative number.
   */
  function Payload(d: FormData, parse: string -> Option<real>, toDate: string -> Timestamp): (s: Submission)
    requires ValidationErrors(d, parse) == map[]
    ensures s.name != [] && Trim(s.name) == s.name
    ensures s.photoUrl.None? <==> IsBlank(d.photoUrl)
    ensures s.photoUrl.Some? ==> s.photoUrl.value != [] && Trim(s.photoUrl.value) == s.photoUrl.value
    ensures Trim(s.memo) == s.memo
    ensures parse(d.price) == Some(s.price) && s.price >= 0.0
    ensures s.purchaseDate == toDate(d.purchaseDate)
    ensures s.name == Trim(d.name) && s.memo == Trim(d.memo)
    ensures s.photoUrl.Some? ==> s.photoUrl.value == Trim(d.photoUrl)
  {
    TrimIdempotent(d.name);
    TrimIdempotent(d.photoUrl);
    TrimIdempotent(d.memo);
    var url := Trim(d.photoUrl);
    Submission(
      Trim(d.name),
      if url == "" then None else Some(url),
      toDate(d.purchaseDate),
      parse(d.price).value,
      Trim(d.memo))
  }

  /** The form's state: `formData` and `errors`. */
  class ItemForm {
    var formData: FormData
    var errors: map<Field, string>

    /** Mounting: empty inputs except today's date, and no errors. */
    constructor (today: string)
      ensures formData == FormData("", "", today, "", "")
      ensures errors == map[]
    {
      formData := FormData("", "", today, "", "");
      errors := map[];
    }

    /**
     * The effect that runs when the dialog opens or its initial values
     * change: without initial values the inputs are emptied (the date set to
     * today); with them, a missing name, photo URL, memo or price becomes
     * `""` and a missing purchase date becomes today. Errors are cleared.
     */
    method Reset(initial: Option<InitialValues>, today: string,
                 isoDate: Timestamp -> string, show: real -> string)
      modifies this
      ensures errors == map[]
      ensures initial.None? ==> formData == FormData("", "", today, "", "")
      ensures initial.Some? ==>
        var iv := initial.value;
        && formData.name == iv.name.GetOr("")
        && formData.photoUrl == iv.photoUrl.GetOr("")
        && formData.purchaseDate == (if iv.purchaseDate.Some? then isoDate(iv.purchaseDate.value) else today)
        && formData.price == (if iv.price.Some? then show(iv.price.value) else "")
        && formData.memo == iv.memo.GetOr("")
    {
      match initial {
        case Some(iv) =>
          var date := if iv.purchaseDate.Some? then isoDate(iv.purchaseDate.value) else today;
          var price := if iv.price.Some? then show(iv.price.value) else "";
          formData := FormData(iv.name.GetOr(""), iv.photoUrl.GetOr(""), date, price, iv.memo.GetOr(""));
        case None =>
          formData := FormData("", "", today, "", "");
      }
      errors := map[];
    }

    /**
     * `handleChange`: stores the new value of one input and, if that input
     * shows an error, blanks its message. Other inputs and errors are kept.
     */
    method HandleChange(f: Field, value: string)
      modifies this
      ensures formData == old(formData).With(f, value)
      ensures errors.Keys == old(errors).Keys
      ensures f in errors ==> errors[f] == ""
      ensures forall g :: g in errors && g != f ==> errors[g] == old(errors)[g]
    {
      formData := formData.With(f, value);
      if f in errors && errors[f] != "" {
        errors := errors[f := ""];
      }
    }

    /**
     * `validateForm`: replaces the errors with those of the current data,
     * inserted one check at a time, and reports whether there are none.
     */
    method ValidateForm(parse: string -> Option<real>) returns (valid: bool)
      modifies this
      ensures formData == old(formData)
      ensures errors == ValidationErrors(formData, parse)
      ensures valid <==> errors == map[]
    {
      var newErrors: map<Field, string> := map[];
      if IsBlank(formData.name) {
        newErrors := newErrors[Name := NameRequired];
      }
      if formData.purchaseDate == "" {
        newErrors := newErrors[PurchaseDate := PurchaseDateRequired];
      }
      if formData.price == "" {
        newErrors := newErrors[Price := PriceRequired];
      } else if PriceUnusable(formData.price, parse) {
        newErrors := newErrors[Price := PriceInvalid];
      }
      errors := newErrors;
      valid := |newErrors| == 0;
    }

    /**
     * `handleSubmit`: validates, and only when the form is valid returns the
     * payload that is passed to `onSubmit`; the inputs are left as they are.
     */
    method HandleSubmit(parse: string -> Option<real>, toDate: string -> Timestamp)
      returns (submitted: Option<Submission>)
      modifies this
      ensures formData == old(formData)
      ensures errors == ValidationErrors(formData, parse)
      ensures submitted.None? <==> errors != map[]
      ensures submitted.Some? ==> submitted.value == Payload(formData, parse, toDate)
    {
      var valid := ValidateForm(parse);
      if !valid {
        return None;
      }
      submitted := Some(Payload(formData, parse, toDate));
    }
  }
}
