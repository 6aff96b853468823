/** The add-product page: the form of text and multi-select fields, the image
    drop, and the submission that converts the four numeric fields with
    `Number()` before posting and resets the form on success. */
module AddProduct {
  import opened Common
  import opened Strings

  const Added := "Product added successfully"
  const AddFailed := "Failed to create product. Please try again."

  /** The form: every field is the text typed so far, except the two lists of
      the multi-selects. `image` is the data URL of the dropped file. */
  datatype ProductForm = ProductForm(
    productName: string,
    price: string,
    productNo: string,
    inStock: string,
    category: string,
    sizes: seq<string>,
    stockQuantity: string,
    colors: seq<string>,
    description: string,
    image: string)

  /** `initialState`. */
  function InitialForm(): (f: ProductForm)
    ensures f.productName == "" && f.price == "" && f.productNo == "" && f.inStock == ""
    ensures f.category == "" && f.stockQuantity == "" && f.description == "" && f.image == ""
    ensures f.sizes == [] && f.colors == []
  {
    ProductForm("", "", "", "", "", [], "", [], "", "")
  }

  /** The inputs wired to `handleChange`, by their `name`. */
  datatype TextField = ProductName | Category | Price | ProductNo | StockQuantity | InStock | Description

  function TextOf(f: ProductForm, field: TextField): string {
    match field
    case ProductName => f.productName
    case Category => f.category
    case Price => f.price
    case ProductNo => f.productNo
    case StockQuantity => f.stockQuantity
    case InStock => f.inStock
    case Description => f.description
  }

  /** `setForm(p => ({ ...p, [name]: value }))`: the named field takes the
      value; every other text field, both lists and the image stay. */
  function SetText(f: ProductForm, field: TextField, value: string): (r: ProductForm)
    ensures TextOf(r, field) == value
    ensures forall g :: g != field ==> TextOf(r, g) == TextOf(f, g)
    ensures r.sizes == f.sizes && r.colors == f.colors && r.image == f.image
  {
    match field
    case ProductName => f.(productName := value)
    case Category => f.(category := value)
    case Price => f.(price := value)
    case ProductNo => f.(productNo := value)
    case StockQuantity => f.(stockQuantity := value)
    case InStock => f.(inStock := value)
    case Description => f.(description := value)
  }

  /** The two multi-selects, wired to `handleSelectChange(field)`. */
  datatype ListField = Sizes | Colors

  function ListOf(f: ProductForm, field: ListField): seq<string> {
    match field
    case Sizes => f.sizes
    case Colors => f.colors
  }

  /** `setForm(p => ({ ...p, [field]: event.target.value }))` for a list. */
  function SetList(f: ProductForm, field: ListField, values: seq<string>): (r: ProductForm)
    ensures ListOf(r, field) == values
    ensures forall g :: g != field ==> ListOf(r, g) == ListOf(f, g)
    ensures forall t :: TextOf(r, t) == TextOf(f, t)
    ensures r.image == f.image
  {
    match field
    case Sizes => f.(sizes := values)
    case Colors => f.(colors := values)
  }

  /** Typing the same value again changes nothing, and setting a field back
      to what it held restores the form. */
  lemma SetTextRestores(f: ProductForm, field: TextField, value: string)
    ensures SetText(f, field, TextOf(f, field)) == f
    ensures SetText(SetText(f, field, value), field, TextOf(f, field)) == f
  {
  }

  /** The request body: the form with the four numeric fields converted. */
  datatype SanitizedForm = SanitizedForm(
    productName: string,
    price: JsValue,
    productNo: JsValue,
    inStock: JsValue,
    category: string,
    sizes: seq<string>,
    stockQuantity: JsValue,
    colors: seq<string>,
    description: string,
    image: string)

  /** `{ ...form, price: Number(form.price), productNo: ..., inStock: ...,
      stockQuantity: ... }`. */
  function Sanitize(f: ProductForm): (s: SanitizedForm)
    ensures s.price == ToNumber(Str(f.price)) && s.productNo == ToNumber(Str(f.productNo))
    ensures s.inStock == ToNumber(Str(f.inStock)) && s.stockQuantity == ToNumber(Str(f.stockQuantity))
    ensures s.productName == f.productName && s.category == f.category && s.description == f.description
    ensures s.sizes == f.sizes && s.colors == f.colors && s.image == f.image
  {
    SanitizedForm(f.productName, ToNumber(Str(f.price)), ToNumber(Str(f.productNo)), ToNumber(Str(f.inStock)),
                  f.category, f.sizes, ToNumber(Str(f.stockQuantity)), f.colors, f.description, f.image)
  }

  /** No converted field is left a string: each is a number or NaN. */
  lemma SanitizedFieldsAreNumbers(f: ProductForm)
    ensures !Sanitize(f).price.Str? && !Sanitize(f).productNo.Str?
    ensures !Sanitize(f).inStock.Str? && !Sanitize(f).stockQuantity.Str?
  {
  }

  /** A price typed as the decimal digits of `n` is sent as the number `n`;
      an untouched field is sent as 0 (`Number("")`). Any other text is NaN in
      the model, which `JSON.stringify` posts as `null`; JavaScript would
      still send a signed, fractional or padded number such as "-3", "19.99"
      or " 7" as that number. */
  lemma SanitizedPrice(f: ProductForm, n: nat)
    ensures f.price == DecimalString(n) ==> Sanitize(f).price == Num(n)
    ensures f.price == "" ==> Sanitize(f).price == Num(0)
    ensures f.price != "" && !AllDigits(f.price) ==> Sanitize(f).price == NaN
  {
    ToNumberOfDecimal(n);
  }

  /** Submitting an untouched form sends zero for every numeric field. */
  lemma SanitizeInitialForm()
    ensures Sanitize(InitialForm()) == SanitizedForm("", Num(0), Num(0), Num(0), "", [], Num(0), [], "", "")
  {
  }

  /** The request: the body and the Authorization header, if any. */
  datatype AddRequest = AddRequest(body: SanitizedForm, authorization: Option<string>)

  class AddProductPage {
    var form: ProductForm
    var preview: string
    var snackbar: Snackbar
    var loading: bool

    constructor ()
      ensures form == InitialForm() && preview == "" && !snackbar.open && !loading
    {
      form := InitialForm();
      preview := "";
      snackbar := ClosedSnackbar(Success);
      loading := false;
    }

    /** `disabled={loading}`. */
    predicate SubmitDisabled()
      reads this
    {
      loading
    }

    /** `handleChange`. */
    method HandleChange(field: TextField, value: string)
      modifies this
      ensures form == SetText(old(form), field, value)
      ensures preview == old(preview) && snackbar == old(snackbar) && loading == old(loading)
    {
      form := SetText(form, field, value);
    }

    /** `handleSelectChange(field)`. */
    method HandleSelectChange(field: ListField, values: seq<string>)
      modifies this
      ensures form == SetList(old(form), field, values)
      ensures preview == old(preview) && snackbar == old(snackbar) && loading == old(loading)
    {
      form := SetList(form, field, values);
    }

    /** `onDrop(acceptedFiles)`, with each accepted file given as the data URL
        the reader produces for it: an empty drop changes nothing, otherwise
        the first file becomes the image and the preview. */
    method OnDrop(dataUrls: seq<string>)
      modifies this
      ensures dataUrls == [] ==> form == old(form) && preview == old(preview)
      ensures dataUrls != [] ==> form == old(form).(image := dataUrls[0]) && preview == dataUrls[0]
      ensures snackbar == old(snackbar) && loading == old(loading)
    {
      if |dataUrls| == 0 {
        return;
      }
      form := form.(image := dataUrls[0]);
      preview := dataUrls[0];
    }

    /** The part of `handleSubmit` before the request completes: loading on,
        and the request built from the current form and the stored token. */
    method BeginSubmit(token: Option<string>) returns (request: AddRequest)
      modifies this
      ensures loading && SubmitDisabled()
      ensures request.body == Sanitize(form)
      ensures request.authorization == AuthHeader(token)
      ensures form == old(form) && preview == old(preview) && snackbar == old(snackbar)
    {
      loading := true;
      request := AddRequest(Sanitize(form), AuthHeader(token));
    }

    /** The rest of `handleSubmit`: success resets the form and the preview,
        failure keeps both; `finally` turns loading off on both paths. */
    method CompleteSubmit(outcome: Response<()>)
      modifies this
      ensures !loading && !SubmitDisabled()
      ensures outcome.Ok? ==> form == InitialForm() && preview == "" && snackbar == Show(Added, Success)
      ensures outcome.Failed? ==> form == old(form) && preview == old(preview) && snackbar == Show(AddFailed, Error)
    {
      if outcome.Ok? {
        snackbar := Show(Added, Success);
        form := InitialForm();
        preview := "";
      } else {
        snackbar := Show(AddFailed, Error);
      }
      loading := false;
    }
  }
}
