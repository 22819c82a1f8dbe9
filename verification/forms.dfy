/** The two web forms of forms.py as validity predicates over the submitted
    values. A form "validates" when every field passes its validator chain;
    wtforms stops a field's chain at the first failure, which for these
    chains changes nothing about the verdict. */
module Forms {
  import opened Models
  import opened Text

  /** validate_positive (forms.py:6-8): an absent value passes, a present
      one must be above 0, so what passes is stored as a positive number
      or, when absent, as 0. */
  predicate ValidatePositive(data: Option<real>)
    ensures data.None? ==> ValidatePositive(data)
    ensures ValidatePositive(data) && data.Some? ==> OrZero(data) > 0.0
  {
    data.None? || data.value > 0.0
  }

  /** validate_decimal (forms.py:10-12): the value must be above 0. On a
      present value it agrees with validate_positive, and what passes it is
      truthy, so DataRequired lets it through too. */
  predicate ValidateDecimal(data: real)
    ensures ValidateDecimal(data) <==> ValidatePositive(Some(data))
    ensures ValidateDecimal(data) ==> NumberRequired(Some(data))
  {
    data > 0.0
  }

  /** wtforms DataRequired on a number: the value must be truthy, so both a
      missing value and 0 are refused. */
  predicate NumberRequired(data: Option<real>)
  {
    data.Some? && data.value != 0.0
  }

  predicate IntRequired(data: Option<int>)
  {
    data.Some? && data.value != 0
  }

  /** DataRequired on text: not empty and not only whitespace. */
  predicate TextRequired(s: string)
  {
    !IsBlank(s)
  }

  /** app.py:48-49 and 83-84 store `field.data or 0`. */
  function OrZero(data: Option<real>): (r: real)
    ensures data.None? ==> r == 0.0
    ensures data.Some? ==> r == data.value
  {
    if data.None? || data.value == 0.0 then 0.0 else data.value
  }

  /** A parameter that passed validate_positive is stored as 0 exactly when
      its data is None, and as a positive number otherwise. */
  lemma StoredParameter(data: Option<real>)
    requires ValidatePositive(data)
    ensures OrZero(data) >= 0.0
    ensures OrZero(data) == 0.0 <==> data.None?
  {
  }

  /** What a request carries for a DecimalField: no entry at all, an entry
      `decimal.Decimal` cannot read (the empty string a browser sends for an
      empty input among them), or a number. */
  datatype DecimalInput = Absent | Unreadable | Given(number: real)

  /** The field's `data` after wtforms has processed the request. An absent
      field keeps the form's default: None on a fresh form, the edited row's
      value when the form is built with `obj=`. An unreadable entry sets None
      and records a processing error, which fails validation. */
  function DecimalData(input: DecimalInput, default: Option<real>): (data: Option<real>)
    ensures input.Absent? ==> data == default
    ensures input.Unreadable? ==> data.None?
    ensures input.Given? ==> data == Some(input.number)
  {
    match input
    case Absent => default
    case Unreadable => None
    case Given(v) => Some(v)
  }

  /** The values a ProductForm submits. Select fields arrive coerced to int. */
  datatype ProductForm = ProductForm(
    article: string,
    productTypeId: int,
    name: string,
    description: string,
    minCostForPartner: DecimalInput,
    mainMaterialId: int,
    parameter1: DecimalInput,
    parameter2: DecimalInput)

  /** The decimal fields' data; `obj` is the product `edit_product` passes
      (app.py:67) and None for `add_product` (app.py:31). */
  function MinCostData(form: ProductForm, obj: Option<Product>): Option<real>
  {
    DecimalData(form.minCostForPartner, if obj.Some? then Some(obj.value.minCostForPartner) else None)
  }

  function Parameter1Data(form: ProductForm, obj: Option<Product>): Option<real>
  {
    DecimalData(form.parameter1, if obj.Some? then Some(obj.value.parameter1) else None)
  }

  function Parameter2Data(form: ProductForm, obj: Option<Product>): Option<real>
  {
    DecimalData(form.parameter2, if obj.Some? then Some(obj.value.parameter2) else None)
  }

  /** ProductForm (forms.py:14-28). The select fields' choices are the ids of
      the existing product types and materials, and a select field refuses a
      value outside its choices. */
  predicate ProductFormValid(form: ProductForm, obj: Option<Product>,
                             types: map<int, ProductType>, materials: map<int, MaterialType>)
  {
    && TextRequired(form.article)
    && form.productTypeId in types && form.productTypeId != 0
    && TextRequired(form.name)
    && !form.minCostForPartner.Unreadable?
    && NumberRequired(MinCostData(form, obj)) && MinCostData(form, obj).value >= 0.0
    && form.mainMaterialId in materials && form.mainMaterialId != 0
    && !form.parameter1.Unreadable? && ValidatePositive(Parameter1Data(form, obj))
    && !form.parameter2.Unreadable? && ValidatePositive(Parameter2Data(form, obj))
  }

  /** DataRequired before NumberRange(min=0) refuses a cost of 0: the
      minimum cost that validates is strictly positive. */
  lemma MinCostMustBePositive(form: ProductForm, obj: Option<Product>,
                              types: map<int, ProductType>, materials: map<int, MaterialType>)
    requires ProductFormValid(form, obj, types, materials)
    ensures MinCostData(form, obj).Some? && MinCostData(form, obj).value > 0.0
  {
  }

  /** A parameter left empty in the browser is refused, not stored as 0:
      `decimal.Decimal('')` fails, on a fresh form and on an edit alike. */
  lemma EmptyParameterRefused(form: ProductForm, obj: Option<Product>,
                              types: map<int, ProductType>, materials: map<int, MaterialType>)
    requires form.parameter1.Unreadable? || form.parameter2.Unreadable?
    ensures !ProductFormValid(form, obj, types, materials)
  {
  }

  /** The values a MaterialCalculatorForm submits. The form is never built
      with `obj=`, so a number field that is absent and one that cannot be
      read both leave None, and DataRequired refuses both alike. */
  datatype CalculatorForm = CalculatorForm(
    productTypeId: int,
    materialTypeId: int,
    quantity: Option<int>,
    param1: Option<real>,
    param2: Option<real>)

  /** MaterialCalculatorForm (forms.py:30-40): both ids are listed choices
      (and non-zero, for DataRequired), the quantity is given and at least
      1, and both parameters are given and above 0. The select fields only
      accept listed ids, so no form validates while either table is empty. */
  predicate CalculatorFormValid(form: CalculatorForm, types: map<int, ProductType>, materials: map<int, MaterialType>)
    ensures CalculatorFormValid(form, types, materials) ==> types != map[] && materials != map[]
  {
    && form.productTypeId in types && form.productTypeId != 0
    && form.materialTypeId in materials && form.materialTypeId != 0
    && IntRequired(form.quantity) && form.quantity.value >= 1
    && NumberRequired(form.param1) && ValidateDecimal(form.param1.value)
    && NumberRequired(form.param2) && ValidateDecimal(form.param2.value)
  }

  /** What a validated calculator form guarantees about its values. */
  lemma CalculatorFormBounds(form: CalculatorForm, types: map<int, ProductType>, materials: map<int, MaterialType>)
    requires CalculatorFormValid(form, types, materials)
    ensures form.productTypeId in types && form.materialTypeId in materials
    ensures form.quantity.Some? && form.quantity.value >= 1
    ensures form.param1.Some? && form.param1.value > 0.0
    ensures form.param2.Some? && form.param2.value > 0.0
  {
  }
}
