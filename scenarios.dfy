/** Request sequences against one controller, stated as client methods: what
    a caller can conclude from the endpoints' contracts alone. */
module Scenarios {
  import opened Wrappers
  import opened Annotations
  import opened Models
  import opened Dtos
  import opened Controllers

  /** Creating a valid product and then fetching it by the Id in the 201
      response gives back the DTO's fields under the new Id. */
  method CreateThenGet(c: ProductsController, dto: CreateProductDto) returns (created: ActionResult, fetched: ActionResult)
    requires c.Valid() && Dtos.IsValid(dto)
    modifies c.repository
    ensures c.Valid()
    ensures created.StatusCode() == 201 && created.CreatedAtAction?
    ensures created.value == ProductDto(created.routeId, dto.name, dto.price, dto.quantity)
    ensures fetched == Ok(ProductBody(created.value))
  {
    created := c.CreateProduct(dto);
    fetched := c.GetProduct(created.routeId);
  }

  /** Deleting a product that exists gives 204, and fetching it afterwards 404. */
  method DeleteThenGet(c: ProductsController, id: int) returns (deleted: ActionResult, fetched: ActionResult)
    requires c.Valid() && id in c.repository.products
    modifies c.repository
    ensures c.Valid()
    ensures deleted == NoContent && fetched == NotFound
    ensures fetched.StatusCode() == 404
  {
    deleted := c.DeleteProduct(id);
    fetched := c.GetProduct(id);
  }

  /** A rejected update, invalid or aimed at a missing Id, leaves every
      stored product as it was. */
  method RejectedUpdateChangesNothing(c: ProductsController, id: int, dto: CreateProductDto) returns (r: ActionResult)
    requires c.Valid() && (!Dtos.IsValid(dto) || id !in c.repository.products)
    modifies c.repository
    ensures c.Valid()
    ensures r.StatusCode() in {400, 404}
    ensures c.repository.products == old(c.repository.products)
  {
    r := c.UpdateProduct(id, dto);
  }

  /** { Name: "Widget", Price: 9.99, Quantity: 5 } passes validation. */
  lemma WidgetIsValid()
    ensures Dtos.IsValid(CreateProductDto(Some("Widget"), 9.99, 5))
  {
    var name := "Widget";
    assert !IsWhiteSpace(name[0]);
  }

  /** { Name: "AB", Price: 9.99, Quantity: 5 } is rejected with exactly the
      Name length message. */
  lemma ShortNameRejected()
    ensures Violations(CreateProductDto(Some("AB"), 9.99, 5)) == [NameLengthError]
  {
    var name := "AB";
    assert !IsWhiteSpace(name[0]);
  }

  /** Creating the Widget and fetching it: 201, then 200 with the same fields. */
  method WidgetScenario(c: ProductsController) returns (created: ActionResult, fetched: ActionResult)
    requires c.Valid()
    modifies c.repository
    ensures c.Valid()
    ensures created.StatusCode() == 201 && created.CreatedAtAction?
    ensures fetched == Ok(ProductBody(ProductDto(created.routeId, Some("Widget"), 9.99, 5)))
  {
    WidgetIsValid();
    created, fetched := CreateThenGet(c, CreateProductDto(Some("Widget"), 9.99, 5));
  }
}
