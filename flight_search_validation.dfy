/** The search form's validation rules: which fields are required, the
    ranges of the numeric fields and the allowed cabin and currency codes,
    with the message each failing field shows.

    The rules follow the schema library's semantics: a required string
    rejects the empty string, a bound on a number is not checked when the
    number is absent, and an allowed-values rule runs before the other
    rules of its field and, when it fails, is the only error that field
    reports. Each field therefore reports at most one message. */
module FlightSearchValidation {
  import opened Wrappers
  import opened FlightTypes
  import FlightSearch

  /** The form's values; a field the user left out is None. Numbers are
      modelled as integers. */
  datatype FormInput = FormInput(
    flyFrom: Option<string>,
    flyTo: Option<string>,
    dateFrom: Option<string>,
    returnFrom: Option<string>,
    adults: Option<int>,
    children: Option<int>,
    infants: Option<int>,
    selectedCabins: Option<string>,
    nonStop: Option<bool>,
    curr: Option<string>,
    priceTo: Option<int>,
    limit: Option<int>)

  /** The validated fields, in schema order. */
  datatype Field =
    | FlyFrom | FlyTo | DateFrom | ReturnFrom
    | Adults | Children | Infants
    | SelectedCabins | NonStop | Curr | PriceTo | Limit

  const SchemaFields: seq<Field> :=
    [FlyFrom, FlyTo, DateFrom, ReturnFrom, Adults, Children, Infants, SelectedCabins, NonStop, Curr, PriceTo, Limit]

  datatype FieldError = FieldError(field: Field, message: string)

  const Required: string := "Required"
  const CannotBeNegative: string := "Cannot be negative"
  const TooManyAdults: string := "Too many adults"
  const TooManyChildren: string := "Too many children"
  const TooManyInfants: string := "Too many infants"
  const InvalidTravelClass: string := "Invalid travel class"
  const UnsupportedCurrency: string := "Selected currency is not supported"
  const PriceTooHigh: string := "Price is too high"
  const LessThanOne: string := "Cannot be less than 1"
  const TooManyResults: string := "Too many results requested"

  /** The currencies the form accepts. */
  const Currencies: seq<string> := ["USD"]

  /** `string().required(...)`. */
  function RequiredString(v: Option<string>): Option<string>
  {
    if v.None? || v.value == "" then Some(Required) else None
  }

  /** `number().min(lo, ...).max(hi, ...)`, followed by `.required(...)`
      when `required` holds. */
  function NumberInRange(v: Option<int>, lo: int, hi: int, tooLow: string, tooHigh: string,
                         required: bool): Option<string>
  {
    match v
    case None => if required then Some(Required) else None
    case Some(n) => if n < lo then Some(tooLow) else if n > hi then Some(tooHigh) else None
  }

  /** `string().oneOf(allowed, ...).required(...)`: an absent value passes
      the allowed-values rule and fails the required one. */
  function OneOfRequired(v: Option<string>, allowed: seq<string>, notAllowed: string): Option<string>
  {
    match v
    case None => Some(Required)
    case Some(s) => if s !in allowed then Some(notAllowed) else if s == "" then Some(Required) else None
  }

  /** The message a field shows, if it fails. */
  function FieldMessage(f: Field, form: FormInput): Option<string>
  {
    match f
    case FlyFrom => RequiredString(form.flyFrom)
    case FlyTo => RequiredString(form.flyTo)
    case DateFrom => RequiredString(form.dateFrom)
    case ReturnFrom => RequiredString(form.returnFrom)
    case Adults => NumberInRange(form.adults, 0, 5, CannotBeNegative, TooManyAdults, false)
    case Children => NumberInRange(form.children, 0, 5, CannotBeNegative, TooManyChildren, false)
    case Infants => NumberInRange(form.infants, 0, 5, CannotBeNegative, TooManyInfants, true)
    case SelectedCabins => OneOfRequired(form.selectedCabins, TravelClasses, InvalidTravelClass)
    case NonStop => if form.nonStop.None? then Some(Required) else None
    case Curr => OneOfRequired(form.curr, Currencies, UnsupportedCurrency)
    case PriceTo => NumberInRange(form.priceTo, 0, 2000, CannotBeNegative, PriceTooHigh, true)
    case Limit => NumberInRange(form.limit, 1, 100, LessThanOne, TooManyResults, true)
  }

  /** The errors of the given fields, in their order. */
  function ErrorsOf(fields: seq<Field>, form: FormInput): seq<FieldError>
  {
    if |fields| == 0 then []
    else
      var f := fields[|fields| - 1];
      ErrorsOf(fields[..|fields| - 1], form)
      + (match FieldMessage(f, form) case Some(m) => [FieldError(f, m)] case None => [])
  }

  /** The form's errors, in schema order. */
  function Errors(form: FormInput): seq<FieldError>
  {
    ErrorsOf(SchemaFields, form)
  }

  /** A present, non-empty string. */
  predicate Filled(v: Option<string>)
  {
    v.Some? && v.value != ""
  }

  /** An optional number within bounds. */
  predicate WithinIfPresent(v: Option<int>, lo: int, hi: int)
  {
    v.Some? ==> lo <= v.value <= hi
  }

  /** A present number within bounds. */
  predicate PresentWithin(v: Option<int>, lo: int, hi: int)
  {
    v.Some? && lo <= v.value <= hi
  }

  /** What a form the schema accepts is, stated field by field. */
  predicate IsValid(form: FormInput)
  {
    && Filled(form.flyFrom) && Filled(form.flyTo) && Filled(form.dateFrom) && Filled(form.returnFrom)
    && WithinIfPresent(form.adults, 0, 5)
    && WithinIfPresent(form.children, 0, 5)
    && PresentWithin(form.infants, 0, 5)
    && form.selectedCabins.Some? && form.selectedCabins.value in ["M", "W", "C", "F"]
    && form.nonStop.Some?
    && form.curr == Some("USD")
    && PresentWithin(form.priceTo, 0, 2000)
    && PresentWithin(form.limit, 1, 100)
  }

  /** The fields' errors are empty exactly when no field fails, and each
      field that fails reports one error, under its own name. */
  lemma {:induction false} ErrorsOfFields(fields: seq<Field>, form: FormInput)
    ensures ErrorsOf(fields, form) == [] <==> forall i :: 0 <= i < |fields| ==> FieldMessage(fields[i], form).None?
    ensures forall e :: e in ErrorsOf(fields, form) ==> e.field in fields && FieldMessage(e.field, form) == Some(e.message)
    ensures forall i :: 0 <= i < |fields| && FieldMessage(fields[i], form).Some? ==>
              FieldError(fields[i], FieldMessage(fields[i], form).value) in ErrorsOf(fields, form)
  {
    if |fields| > 0 {
      var n := |fields| - 1;
      ErrorsOfFields(fields[..n], form);
      forall i | 0 <= i < n
        ensures fields[..n][i] == fields[i]
      {
      }
    }
  }

  /** Where a field sits in schema order: each of the twelve schema fields
      has its place. */
  function SchemaPosition(f: Field): (i: nat)
    ensures i < |SchemaFields| && SchemaFields[i] == f
  {
    match f
    case FlyFrom => 0
    case FlyTo => 1
    case DateFrom => 2
    case ReturnFrom => 3
    case Adults => 4
    case Children => 5
    case Infants => 6
    case SelectedCabins => 7
    case NonStop => 8
    case Curr => 9
    case PriceTo => 10
    case Limit => 11
  }

  /** A form has no errors exactly when it is valid. */
  lemma NoErrorsIffValid(form: FormInput)
    ensures Errors(form) == [] <==> IsValid(form)
  {
    ErrorsOfFields(SchemaFields, form);
    ValidIffEveryFieldPasses(form);
    if Errors(form) == [] {
      forall f: Field
        ensures FieldMessage(f, form).None?
      {
        var i := SchemaPosition(f);
      }
    }
  }

  /** Validity is the conjunction of the twelve field rules. */
  lemma ValidIffEveryFieldPasses(form: FormInput)
    ensures IsValid(form) <==> forall f: Field :: FieldMessage(f, form).None?
  {
    CabinRule(form);
    if forall f: Field :: FieldMessage(f, form).None? {
      assert FieldMessage(FlyFrom, form).None? && FieldMessage(FlyTo, form).None?;
      assert FieldMessage(DateFrom, form).None? && FieldMessage(ReturnFrom, form).None?;
      assert FieldMessage(Adults, form).None? && FieldMessage(Children, form).None?;
      assert FieldMessage(Infants, form).None? && FieldMessage(SelectedCabins, form).None?;
      assert FieldMessage(NonStop, form).None? && FieldMessage(Curr, form).None?;
      assert FieldMessage(PriceTo, form).None? && FieldMessage(Limit, form).None?;
    }
  }

  /** The cabin field passes exactly when it holds one of the four cabin
      codes. */
  lemma CabinRule(form: FormInput)
    ensures FieldMessage(SelectedCabins, form).None? <==>
              form.selectedCabins.Some? && form.selectedCabins.value in ["M", "W", "C", "F"]
  {
    if form.selectedCabins.Some? {
      var c := form.selectedCabins.value;
      assert (c in TravelClasses && c != "") <==> c in ["M", "W", "C", "F"];
    }
  }

  /** Every error names a failing field with that field's message, and
      every failing field reports one. */
  lemma ErrorsMatchFields(form: FormInput)
    ensures forall e :: e in Errors(form) ==> FieldMessage(e.field, form) == Some(e.message)
    ensures forall f: Field :: FieldMessage(f, form).Some? ==> FieldError(f, FieldMessage(f, form).value) in Errors(form)
  {
    ErrorsOfFields(SchemaFields, form);
    forall f: Field | FieldMessage(f, form).Some?
      ensures FieldError(f, FieldMessage(f, form).value) in Errors(form)
    {
      var i := SchemaPosition(f);
    }
  }

  /** The empty cabin code is an allowed value, but, being an empty
      string, fails the required rule. */
  lemma EmptyCabinIsRequired(form: FormInput)
    requires form.selectedCabins == Some("")
    ensures FieldMessage(SelectedCabins, form) == Some(Required)
  {
    assert "" in TravelClasses;
  }

  /** As written, the form offers travel-class values that are not cabin
      codes, so whichever class the user picks, the cabin field reports
      "Invalid travel class": the cabin field can never pass. */
  lemma OfferedTravelClassesRejected(form: FormInput, i: nat)
    requires i < |FlightSearch.GetTravelClasses()|
    requires form.selectedCabins == Some(FlightSearch.GetTravelClasses()[i].value)
    ensures FieldMessage(SelectedCabins, form) == Some(InvalidTravelClass)
    ensures !IsValid(form)
  {
    var vs := FlightSearch.OptionValues(FlightSearch.GetTravelClasses());
    assert form.selectedCabins.value == vs[i];
  }

  /** With the cabin codes as the options' values, the cabin field passes
      exactly when it holds one of the offered values. */
  lemma CabinClassesAccepted(form: FormInput)
    ensures FieldMessage(SelectedCabins, form).None? <==>
              form.selectedCabins.Some? && form.selectedCabins.value in FlightSearch.OptionValues(FlightSearch.CabinClasses())
  {
    CabinRule(form);
  }

  /** An empty currency fails the allowed-values rule first, so the field
      reports that rule's message rather than "Required"; an absent one
      reports "Required". This describes the schema run on its own; a
      form library that turns "" into undefined first would report
      "Required" for an empty currency. */
  lemma CurrencyMessages(form: FormInput)
    ensures form.curr == Some("") ==> FieldMessage(Curr, form) == Some(UnsupportedCurrency)
    ensures form.curr.None? ==> FieldMessage(Curr, form) == Some(Required)
    ensures form.curr == Some("USD") ==> FieldMessage(Curr, form).None?
  {
  }

  /** Leaving out the adult or child count is allowed; leaving out the
      infant count is not. */
  lemma OptionalCounts(form: FormInput)
    ensures form.adults.None? ==> FieldMessage(Adults, form).None?
    ensures form.children.None? ==> FieldMessage(Children, form).None?
    ensures form.infants.None? ==> FieldMessage(Infants, form) == Some(Required)
  {
  }
}
