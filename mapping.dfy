/** The two mapping rules: Product -> ProductDto and CreateProductDto -> Product,
    the second used both to build a new Product and to overwrite an existing one. */
module Mapping {
  import opened Models
  import opened Dtos

  /** Product -> ProductDto: every same-named field is copied. */
  function ToProductDto(p: Product): (d: ProductDto)
    ensures d.id == p.id && d.name == p.name && d.price == p.price && d.quantity == p.quantity
  {
    ProductDto(p.id, p.name, p.price, p.quantity)
  }

  /** CreateProductDto -> new Product: Id keeps its default, 0. */
  function ToNewProduct(dto: CreateProductDto): (p: Product)
    ensures p.id == 0
    ensures p.name == dto.name && p.price == dto.price && p.quantity == dto.quantity
  {
    Product(0, dto.name, dto.price, dto.quantity)
  }

  /** `Map(dto, existing)`: the destination's Name, Price and Quantity are
      overwritten; its Id, absent from the DTO, is left as it was. */
  function MapOnto(dto: CreateProductDto, existing: Product): (p: Product)
    ensures p.id == existing.id
    ensures p.name == dto.name && p.price == dto.price && p.quantity == dto.quantity
  {
    existing.(name := dto.name, price := dto.price, quantity := dto.quantity)
  }

  /** Mapping a product list to an `IEnumerable<ProductDto>`. */
  function MapAll(ps: seq<Product>): (ds: seq<ProductDto>)
    ensures |ds| == |ps|
  {
    if ps == [] then [] else [ToProductDto(ps[0])] + MapAll(ps[1..])
  }

  /** The list mapping keeps order: the k-th DTO is the k-th product mapped. */
  lemma {:induction false} MapAllAt(ps: seq<Product>, k: nat)
    requires k < |ps|
    ensures MapAll(ps)[k] == ToProductDto(ps[k])
  {
    if k > 0 {
      MapAllAt(ps[1..], k - 1);
    }
  }

  /** Every position at once. */
  lemma MapAllElementwise(ps: seq<Product>)
    ensures forall k :: 0 <= k < |ps| ==> MapAll(ps)[k] == ToProductDto(ps[k])
  {
    forall k | 0 <= k < |ps|
      ensures MapAll(ps)[k] == ToProductDto(ps[k])
    {
      MapAllAt(ps, k);
    }
  }

  /** DTO -> Product -> ProductDto gives back the DTO's three fields, with
      whatever Id the store gave the product in between. */
  lemma RoundTrip(dto: CreateProductDto, assignedId: int)
    ensures ToProductDto(ToNewProduct(dto).(id := assignedId))
         == ProductDto(assignedId, dto.name, dto.price, dto.quantity)
  {
  }

  /** The entity's annotations coincide with the DTO's: a Product built from a
      DTO, or overwritten by one, is valid exactly when the DTO is. */
  lemma ValidityCarriesOver(dto: CreateProductDto, existing: Product)
    ensures Models.IsValid(ToNewProduct(dto)) <==> Dtos.IsValid(dto)
    ensures Models.IsValid(MapOnto(dto, existing)) <==> Dtos.IsValid(dto)
  {
  }

  /** Overwriting is idempotent and the last DTO wins: nothing of an earlier
      overwrite survives except the Id. */
  lemma MapOntoLastWins(first: CreateProductDto, second: CreateProductDto, existing: Product)
    ensures MapOnto(second, MapOnto(first, existing)) == MapOnto(second, existing)
    ensures MapOnto(second, MapOnto(second, existing)) == MapOnto(second, existing)
  {
  }
}
