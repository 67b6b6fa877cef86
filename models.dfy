/** The persisted Product entity and its read-shape ProductDto. */
module Models {
  import opened Wrappers
  import opened Annotations

  /** The Product entity. `id` is assigned by the store; `name` may be null. */
  datatype Product = Product(id: int, name: Option<string>, price: real, quantity: Int32)

  /** The read DTO returned to clients: the same four fields as Product. */
  datatype ProductDto = ProductDto(id: int, name: Option<string>, price: real, quantity: Int32)

  /** Name: [Required] and [StringLength(100, MinimumLength = 3)]. */
  predicate NameValid(p: Product) {
    RequiredString(p.name) && StringLength(p.name, 3, 100)
  }

  /** Price: [Required] (vacuous on a decimal) and [Range(0.01, double.MaxValue)]. */
  predicate PriceValid(p: Product) {
    RangeRealFrom(p.price, 0.01)
  }

  /** Quantity: [Required] (vacuous on an int) and [Range(0, int.MaxValue)]. */
  predicate QuantityValid(p: Product) {
    RangeInt(p.quantity, 0, IntMaxValue)
  }

  /** The field invariant of a Product; Id carries no annotation. */
  predicate IsValid(p: Product) {
    NameValid(p) && PriceValid(p) && QuantityValid(p)
  }

  /** Id takes no part in validity, and the constraints reduce to plain bounds
      on a non-blank name, the price and the quantity. */
  lemma IsValidCharacterized(p: Product, id: int)
    ensures IsValid(p) == IsValid(p.(id := id))
    ensures IsValid(p) <==>
      && p.name.Some? && !IsNullOrWhiteSpace(p.name) && 3 <= |p.name.value| <= 100
      && p.price >= 0.01 && p.quantity >= 0
  {
  }
}
