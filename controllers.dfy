/** ProductsController: the five endpoints over the product repository. */
module Controllers {
  import opened Wrappers
  import opened Annotations
  import opened Models
  import opened Dtos
  import opened Mapping
  import opened Paging
  import opened Repository

  const PagingMessage: string := "Page number and page size must be greater than zero."

  /** Query-string binding of GetProducts' parameters: an absent parameter
      takes its declared default, page 1 of size 10. */
  function BindPaging(pageNumber: Option<Int32>, pageSize: Option<Int32>): (paging: (Int32, Int32))
    ensures paging.0 == (if pageNumber.Some? then pageNumber.value else 1)
    ensures paging.1 == (if pageSize.Some? then pageSize.value else 10)
    ensures pageNumber.None? && pageSize.None? ==> paging.0 > 0 && paging.1 > 0
  {
    (match pageNumber case Some(n) => n case None => 1,
     match pageSize case Some(n) => n case None => 10)
  }

  /** The anonymous envelope of the paged listing. */
  datatype PagedResponse = PagedResponse(
    totalItems: int, totalPages: int, currentPage: int, pageSize: int, items: seq<ProductDto>)

  datatype ResponseBody = PageBody(page: PagedResponse) | ProductBody(product: ProductDto)

  /** A 400 body: a plain message, or the model state's field errors. */
  datatype ErrorBody = PlainMessage(text: string) | ModelErrors(errors: seq<FieldError>)

  /** The IActionResult an action returns. */
  datatype ActionResult =
    | Ok(body: ResponseBody)
    | CreatedAtAction(actionName: string, routeId: int, value: ProductDto)
    | NoContent
    | BadRequest(error: ErrorBody)
    | NotFound
  {
    function StatusCode(): int {
      match this
      case Ok(_) => 200
      case CreatedAtAction(_, _, _) => 201
      case NoContent => 204
      case BadRequest(_) => 400
      case NotFound => 404
    }
  }

  /** The envelope of page `pageNumber` of size `pageSize` over all products
      in the store's order. */
  function ListPage(all: seq<Product>, pageNumber: int, pageSize: int): (page: PagedResponse)
    requires pageNumber >= 1 && pageSize >= 1
    ensures page.totalItems == |all|
    ensures page.totalPages == CeilDiv(|all|, pageSize)
    ensures page.currentPage == pageNumber && page.pageSize == pageSize
    ensures |page.items| == Min(pageSize, Max(0, |all| - SkipCount(pageNumber, pageSize)))
    ensures forall i :: 0 <= i < |page.items| ==>
      page.items[i] == ToProductDto(all[SkipCount(pageNumber, pageSize) + i])
  {
    var items := PageOf(all, pageNumber, pageSize);
    MapAllElementwise(items);
    PagedResponse(|all|, CeilDiv(|all|, pageSize), pageNumber, pageSize, MapAll(items))
  }

  /** A listing request without a query string gets the first ten products
      in the store's order. */
  lemma DefaultRequestListsFirstTen(all: seq<Product>)
    ensures BindPaging(None, None) == (1, 10)
    ensures |ListPage(all, 1, 10).items| == Min(10, |all|)
    ensures forall i :: 0 <= i < Min(10, |all|) ==> ListPage(all, 1, 10).items[i] == ToProductDto(all[i])
  {
    assert SkipCount(1, 10) == 0;
    var page := ListPage(all, 1, 10);
    assert |page.items| == Min(10, |all|);
    assert forall i :: 0 <= i < |page.items| ==> page.items[i] == ToProductDto(all[i]);
  }

  class ProductsController {
    const repository: ProductStore

    /** The store is consistent and every persisted product satisfies the
        entity's annotations. */
    ghost predicate Valid()
      reads this, repository
    {
      && repository.Valid()
      && forall id :: id in repository.products ==> Models.IsValid(repository.products[id])
    }

    constructor (repository: ProductStore)
      requires repository.Valid()
      requires forall id :: id in repository.products ==> Models.IsValid(repository.products[id])
      ensures this.repository == repository && Valid()
    {
      this.repository := repository;
    }

    /** GET api/products?pageNumber=&pageSize= */
    method GetProducts(pageNumber: Int32, pageSize: Int32) returns (r: ActionResult)
      requires Valid()
      modifies repository`roundTrips
      ensures Valid()
      ensures pageNumber <= 0 || pageSize <= 0 ==>
        r == BadRequest(PlainMessage(PagingMessage)) && repository.roundTrips == old(repository.roundTrips)
      ensures pageNumber > 0 && pageSize > 0 ==>
        && r == Ok(PageBody(ListPage(repository.QueryProducts(), pageNumber, pageSize)))
        && repository.roundTrips == old(repository.roundTrips) + 2
    {
      if pageNumber <= 0 || pageSize <= 0 {
        return BadRequest(PlainMessage(PagingMessage));
      }
      var totalItems := repository.CountProducts();
      var totalPages := CeilDiv(totalItems, pageSize);
      var products := repository.ListProducts(SkipCount(pageNumber, pageSize), pageSize);
      r := Ok(PageBody(PagedResponse(totalItems, totalPages, pageNumber, pageSize, MapAll(products))));
    }

    /** GET api/products/id?id= */
    method GetProduct(id: int) returns (r: ActionResult)
      requires Valid()
      modifies repository`roundTrips
      ensures Valid()
      ensures repository.roundTrips == old(repository.roundTrips) + 1
      ensures id !in repository.products ==> r == NotFound
      ensures id in repository.products ==>
        r == Ok(ProductBody(ToProductDto(repository.products[id]))) && r.body.product.id == id
    {
      var product := repository.GetProductById(id);
      if product.None? {
        return NotFound;
      }
      r := Ok(ProductBody(ToProductDto(product.value)));
    }

    /** POST api/products */
    method CreateProduct(dto: CreateProductDto) returns (r: ActionResult)
      requires Valid()
      modifies repository
      ensures Valid()
      ensures !Dtos.IsValid(dto) ==>
        && r == BadRequest(ModelErrors(Violations(dto)))
        && repository.State() == old(repository.State())
        && repository.roundTrips == old(repository.roundTrips)
      ensures Dtos.IsValid(dto) ==>
        var id := old(repository.nextId);
        && id !in old(repository.products)
        && repository.products == old(repository.products)[id := Product(id, dto.name, dto.price, dto.quantity)]
        && repository.order == old(repository.order) + [id]
        && r == CreatedAtAction("GetProduct", id, ProductDto(id, dto.name, dto.price, dto.quantity))
        && repository.roundTrips == old(repository.roundTrips) + 1
    {
      var errors := Violations(dto);
      if errors != [] {
        return BadRequest(ModelErrors(errors));
      }
      var product := ToNewProduct(dto);
      ValidityCarriesOver(dto, product);
      product := repository.AddProduct(product);
      var productDto := ToProductDto(product);
      r := CreatedAtAction("GetProduct", product.id, productDto);
    }

    /** PUT api/products/{id} */
    method UpdateProduct(id: int, dto: CreateProductDto) returns (r: ActionResult)
      requires Valid()
      modifies repository
      ensures Valid()
      ensures repository.order == old(repository.order) && repository.nextId == old(repository.nextId)
      ensures !Dtos.IsValid(dto) ==>
        && r == BadRequest(ModelErrors(Violations(dto)))
        && repository.State() == old(repository.State())
        && repository.roundTrips == old(repository.roundTrips)
      ensures Dtos.IsValid(dto) && id !in old(repository.products) ==>
        && r == NotFound
        && repository.State() == old(repository.State())
        && repository.roundTrips == old(repository.roundTrips) + 1
      ensures Dtos.IsValid(dto) && id in old(repository.products) ==>
        && r == NoContent
        && repository.products == old(repository.products)[id := MapOnto(dto, old(repository.products)[id])]
        && repository.products[id] == Product(id, dto.name, dto.price, dto.quantity)
        && repository.roundTrips == old(repository.roundTrips) + 2
    {
      var errors := Violations(dto);
      if errors != [] {
        return BadRequest(ModelErrors(errors));
      }
      var product := repository.GetProductById(id);
      if product.None? {
        return NotFound;
      }
      var updated := MapOnto(dto, product.value);
      ValidityCarriesOver(dto, product.value);
      repository.UpdateProduct(updated);
      r := NoContent;
    }

    /** DELETE api/products/{id} */
    method DeleteProduct(id: int) returns (r: ActionResult)
      requires Valid()
      modifies repository
      ensures Valid()
      ensures repository.nextId == old(repository.nextId)
      ensures id !in old(repository.products) ==>
        && r == NotFound
        && repository.State() == old(repository.State())
        && repository.roundTrips == old(repository.roundTrips) + 1
      ensures id in old(repository.products) ==>
        && r == NoContent
        && repository.products == old(repository.products) - {id}
        && id !in repository.products
        && repository.order == Without(old(repository.order), id)
        && repository.roundTrips == old(repository.roundTrips) + 2
    {
      var found := repository.ProductExists(id);
      if !found {
        return NotFound;
      }
      repository.DeleteProduct(id);
      r := NoContent;
    }
  }
}
