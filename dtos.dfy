/** The write DTO accepted by create and update, and its model validation. */
module Dtos {
  import opened Wrappers
  import opened Annotations

  /** Name, Price and Quantity; no Id. */
  datatype CreateProductDto = CreateProductDto(name: Option<string>, price: real, quantity: Int32)

  datatype Field = Name | Price | Quantity

  /** One entry of the model state: which of the six validation attributes
      failed. The property it sits on and its ErrorMessage are derived. */
  datatype FieldError =
    | NameRequiredError | NameLengthError
    | PriceRequiredError | PriceRangeError
    | QuantityRequiredError | QuantityRangeError
  {
    function Field(): Field {
      match this
      case NameRequiredError | NameLengthError => Name
      case PriceRequiredError | PriceRangeError => Price
      case QuantityRequiredError | QuantityRangeError => Quantity
    }

    /** The attribute's ErrorMessage. */
    function Message(): string {
      match this
      case NameRequiredError => "Name is required"
      case NameLengthError => "Name must be between 3 and 100 characters"
      case PriceRequiredError => "Price is required"
      case PriceRangeError => "Price must be greater than 0"
      case QuantityRequiredError => "Quantity is required"
      case QuantityRangeError => "Quantity must be non-negative"
    }
  }

  /** The six ErrorMessages differ, so a model-state message names the
      attribute that failed. */
  lemma MessageIdentifiesError(a: FieldError, b: FieldError)
    ensures a.Message() == b.Message() <==> a == b
  {
  }

  /** [Required(ErrorMessage = "Name is required")] */
  predicate NameRequired(dto: CreateProductDto) {
    RequiredString(dto.name)
  }

  /** [StringLength(100, MinimumLength = 3, ...)] */
  predicate NameLengthInRange(dto: CreateProductDto) {
    StringLength(dto.name, 3, 100)
  }

  /** [Range(0.01, double.MaxValue, ...)]: 0.01 itself is accepted. */
  predicate PriceInRange(dto: CreateProductDto) {
    RangeRealFrom(dto.price, 0.01)
  }

  /** [Range(0, int.MaxValue, ...)] */
  predicate QuantityInRange(dto: CreateProductDto) {
    RangeInt(dto.quantity, 0, IntMaxValue)
  }

  predicate NameValid(dto: CreateProductDto) {
    NameRequired(dto) && NameLengthInRange(dto)
  }

  /** [Required] on the non-nullable `decimal` never fails: only the range constrains. */
  predicate PriceValid(dto: CreateProductDto) {
    PriceInRange(dto)
  }

  /** [Required] on the non-nullable `int` never fails: only the range constrains. */
  predicate QuantityValid(dto: CreateProductDto) {
    QuantityInRange(dto)
  }

  /** `ModelState.IsValid` for a bound CreateProductDto. */
  predicate IsValid(dto: CreateProductDto) {
    NameValid(dto) && PriceValid(dto) && QuantityValid(dto)
  }

  predicate FieldValid(dto: CreateProductDto, f: Field) {
    match f
    case Name => NameValid(dto)
    case Price => PriceValid(dto)
    case Quantity => QuantityValid(dto)
  }

  /** One attribute's contribution to the model state: its error when it fails. */
  function Report(holds: bool, error: FieldError): (r: seq<FieldError>)
    ensures r == [] <==> holds
    ensures forall e :: e in r ==> e == error
    ensures |r| <= 1
  {
    if holds then [] else [error]
  }

  predicate NoRepeats(errors: seq<FieldError>) {
    forall i, j :: 0 <= i < j < |errors| ==> errors[i] != errors[j]
  }

  lemma NoRepeatsAppend(a: seq<FieldError>, b: seq<FieldError>)
    requires NoRepeats(a) && NoRepeats(b)
    requires forall e :: e in a ==> e !in b
    ensures NoRepeats(a + b)
  {
    forall i, j | 0 <= i < j < |a + b|
      ensures (a + b)[i] != (a + b)[j]
    {
      if i < |a| && j >= |a| {
        assert (a + b)[i] in a && (a + b)[j] == b[j - |a|];
      }
    }
  }

  /** The model-state errors: every attribute of every property is evaluated,
      and each failing one contributes its own message. */
  function Violations(dto: CreateProductDto): (errors: seq<FieldError>)
    ensures errors == [] <==> IsValid(dto)
    ensures NameRequiredError in errors <==> !NameRequired(dto)
    ensures NameLengthError in errors <==> !NameLengthInRange(dto)
    ensures PriceRangeError in errors <==> !PriceInRange(dto)
    ensures QuantityRangeError in errors <==> !QuantityInRange(dto)
    ensures PriceRequiredError !in errors
    ensures QuantityRequiredError !in errors
  {
    Report(NameRequired(dto), NameRequiredError)
    + Report(NameLengthInRange(dto), NameLengthError)
    + Report(PriceInRange(dto), PriceRangeError)
    + Report(QuantityInRange(dto), QuantityRangeError)
  }

  /** The four reports of distinct attributes, concatenated, repeat nothing. */
  lemma ReportsNoRepeats(nameRequired: bool, nameLength: bool, price: bool, quantity: bool)
    ensures NoRepeats(Report(nameRequired, NameRequiredError) + Report(nameLength, NameLengthError)
      + Report(price, PriceRangeError) + Report(quantity, QuantityRangeError))
  {
    var names := Report(nameRequired, NameRequiredError) + Report(nameLength, NameLengthError);
    NoRepeatsAppend(Report(nameRequired, NameRequiredError), Report(nameLength, NameLengthError));
    assert forall e: FieldError :: e in names ==> e.Field() == Name;
    NoRepeatsAppend(names, Report(price, PriceRangeError));
    assert forall e: FieldError :: e in names + Report(price, PriceRangeError) ==> e.Field() != Quantity;
    NoRepeatsAppend(names + Report(price, PriceRangeError), Report(quantity, QuantityRangeError));
  }

  /** No attribute's error appears twice in the model state: one entry per
      failing attribute. */
  lemma ViolationsExact(dto: CreateProductDto)
    ensures NoRepeats(Violations(dto))
  {
    ReportsNoRepeats(NameRequired(dto), NameLengthInRange(dto), PriceInRange(dto), QuantityInRange(dto));
  }

  /** A field appears in the model state exactly when one of its constraints fails. */
  lemma FieldReported(dto: CreateProductDto, f: Field)
    ensures (exists e :: e in Violations(dto) && e.Field() == f) <==> !FieldValid(dto, f)
  {
    var errors := Violations(dto);
    if !FieldValid(dto, f) {
      match f
      case Name =>
        if !NameRequired(dto) {
          assert NameRequiredError in errors;
        } else {
          assert NameLengthError in errors;
        }
      case Price => assert PriceRangeError in errors;
      case Quantity => assert QuantityRangeError in errors;
    }
  }

  /** JSON model binding of a request body: an omitted `decimal` or `int`
      property keeps its default 0, an omitted string stays null. */
  function Bind(name: Option<string>, price: Option<real>, quantity: Option<Int32>): (dto: CreateProductDto)
    ensures dto.name == name
    ensures dto.price == (if price.Some? then price.value else 0.0)
    ensures dto.quantity == (if quantity.Some? then quantity.value else 0)
    ensures price.None? ==> PriceRangeError in Violations(dto)
    ensures quantity.None? ==> !exists e :: e in Violations(dto) && e.Field() == Quantity
    ensures name.None? ==> NameRequiredError in Violations(dto)
    ensures name.None? ==> NameLengthError !in Violations(dto)
  {
    CreateProductDto(
      name,
      match price case Some(p) => p case None => 0.0,
      match quantity case Some(q) => q case None => 0)
  }

  /** A blank name shorter than three characters ("", "\t", "  ") breaks both
      Name attributes at once, so both messages are reported. */
  lemma ShortBlankNameReportsBoth(dto: CreateProductDto)
    requires dto.name.Some? && IsNullOrWhiteSpace(dto.name) && |dto.name.value| < 3
    ensures NameRequiredError in Violations(dto)
    ensures NameLengthError in Violations(dto)
  {
  }
}
