# Product management API — a Dafny model

The service is a small CRUD API over product records (name, price, quantity).
This project models its logic:

- `ProductsController`, with its five endpoints (paged listing, get by id,
  create, update, delete), as a class over an in-memory product store;
- the data-annotation validation of `CreateProductDto` and `Product`, one
  predicate per field plus the list of model-state errors;
- the AutoMapper profile, as three field-copy functions;
- `ExceptionHandlingMiddleware`, with its pure choice of status code and
  message and the try/catch wrapper around the rest of the pipeline.

Files and modules:

| file | module | models |
|---|---|---|
| `wrappers.dfy` | `Wrappers` | `Option`, which stands for a C# null or an omitted JSON property |
| `annotations.dfy` | `Annotations` | what `[Required]`, `[StringLength]` and `[Range]` accept; `char.IsWhiteSpace`; the C# `int` range |
| `models.dfy` | `Models` | `Product`, `ProductDto`, the entity's field invariant |
| `dtos.dfy` | `Dtos` | `CreateProductDto`, its field predicates, `Violations` (the model state), JSON binding defaults |
| `mapping.dfy` | `Mapping` | the two `CreateMap` rules and the in-place `Map(dto, product)` |
| `paging.dfy` | `Paging` | the page count, the page offset (exact and as computed in 32-bit `int`), `Skip`/`Take` |
| `repository.dfy` | `Repository` | an in-memory `ProductStore` behind the `IProductRepository` operations |
| `controllers.dfy` | `Controllers` | `ProductsController` and the action results |
| `middleware.dfy` | `Middleware` | `ExceptionHandlingMiddleware` |
| `scenarios.dfy` | `Scenarios` | request sequences: create then get, delete then get, the Widget and "AB" examples |

The repository is an interface over Entity Framework whose implementation is
not part of this model. `ProductStore` stands in for it. It holds a
`map<int, Product>` keyed by Id, the order in which an unordered query lists
the products (insertion order), and the next identity value. A ghost counter
`roundTrips` counts the calls into the store. The controller's contracts use
it to say that a rejected request reached the store no more often than the
code allows: never for invalid paging or an invalid DTO, and once for a
missing Id.

`Product` is modelled as a value. The source fetches a tracked entity,
overwrites it in place with `_mapper.Map(dto, product)` and saves it. The
model computes the overwritten value with `MapOnto` and writes it back to the
store. Entity Framework writes the generated Id into the caller's object.
The model's `AddProduct` returns that object with its Id set.

A model-state entry is modelled as the attribute that failed (`Dtos.FieldError`,
one constructor per attribute). Its property and its ErrorMessage are derived
from it by `Field()` and `Message()`.

Points where the attributes behave differently from what their messages suggest:

- The Price attribute's message says "greater than 0", but
  `[Range(0.01, double.MaxValue)]` is inclusive, so 0.01 is accepted
  (DTOs/CreateProductDto.cs:12).
- `[Required]` on the non-nullable `decimal` and `int` properties never
  fails. An omitted Price binds to 0 and fails the range check. An omitted
  Quantity binds to 0 and passes (`Dtos.Bind`).
- MVC evaluates every attribute of a property. A blank name of fewer than
  three characters therefore gets both Name messages.

## Model

| member | source | states |
|---|---|---|
| `Dtos.Violations` | DTOs/CreateProductDto.cs:7-17 | the error list is empty exactly when the DTO is valid; each attribute's own error is present exactly when that attribute fails; of the six attribute errors, never the vacuous "Price is required" or "Quantity is required", so nothing but the four constraining attributes' errors appears |
| `Dtos.ViolationsExact` | DTOs/CreateProductDto.cs:7-17 | no attribute's error appears twice in the model state: one entry per failing attribute |
| `Dtos.ReportsNoRepeats` | DTOs/CreateProductDto.cs:7-17 | the reports of the four constraining attributes, concatenated in declaration order, repeat nothing whichever of them fail |
| `Dtos.MessageIdentifiesError` | DTOs/CreateProductDto.cs:7-16 | the six ErrorMessages are pairwise different, so a model-state message names the attribute that failed |
| `Dtos.FieldReported` | DTOs/CreateProductDto.cs:7-17 | a field has an entry in the model state exactly when one of its constraints fails, so every violated field is reported and no valid one is |
| `Dtos.Bind` | DTOs/CreateProductDto.cs:11-17 | present values pass through; an omitted Name stays null, an omitted Price or Quantity becomes 0; so an omitted Price is rejected by the range, an omitted Quantity raises no error, and a null Name gets "Name is required" and not the length message |
| `Dtos.ShortBlankNameReportsBoth` | DTOs/CreateProductDto.cs:7-8 | every empty or whitespace-only name shorter than three characters fails `[Required]` and `[StringLength]` together, and both messages are reported |
| `Dtos.IsValid` | Controllers/ProductsController.cs:81 | `ModelState.IsValid`: the conjunction of the Name, Price and Quantity field predicates |
| `Dtos.NameRequired` | DTOs/CreateProductDto.cs:7 | `[Required]` on Name: the name is neither null nor empty nor whitespace-only |
| `Dtos.NameLengthInRange` | DTOs/CreateProductDto.cs:8 | `[StringLength(100, MinimumLength = 3)]` on Name: a null name passes, any other has 3 to 100 characters |
| `Dtos.PriceInRange` | DTOs/CreateProductDto.cs:12 | `[Range(0.01, double.MaxValue)]` on Price: the price is at least 0.01, inclusive |
| `Dtos.QuantityInRange` | DTOs/CreateProductDto.cs:16 | `[Range(0, int.MaxValue)]` on Quantity: the quantity is non-negative |
| `Dtos.NameValid` | DTOs/CreateProductDto.cs:7-9 | Name passes both of its attributes |
| `Dtos.PriceValid` | DTOs/CreateProductDto.cs:11-13 | Price passes its range; its `[Required]` cannot fail on a non-nullable decimal |
| `Dtos.QuantityValid` | DTOs/CreateProductDto.cs:15-17 | Quantity passes its range; its `[Required]` cannot fail on a non-nullable int |
| `Dtos.FieldError.Message` | DTOs/CreateProductDto.cs:7-16 | each attribute's ErrorMessage, verbatim: "Name is required", "Name must be between 3 and 100 characters", "Price is required", "Price must be greater than 0", "Quantity is required", "Quantity must be non-negative" |
| `Models.IsValid` | Models/Product.cs:9-19 | the entity invariant: Name required with length 3 to 100, Price at least 0.01, Quantity non-negative; Id unconstrained |
| `Models.NameValid` | Models/Product.cs:9-11 | `[Required]` and `[StringLength(100, MinimumLength = 3)]` on the entity's Name |
| `Models.PriceValid` | Models/Product.cs:13-15 | `[Range(0.01, double.MaxValue)]` on the entity's Price, inclusive; `[Required]` cannot fail on a decimal |
| `Models.QuantityValid` | Models/Product.cs:17-19 | `[Range(0, int.MaxValue)]` on the entity's Quantity; `[Required]` cannot fail on an int |
| `Annotations.IsWhiteSpace` | DTOs/CreateProductDto.cs:7 | the characters `char.IsWhiteSpace` accepts, which a `[Required]` string may not consist of alone |
| `Annotations.RequiredString` | DTOs/CreateProductDto.cs:7 | `[Required]` with empty strings disallowed: neither null nor whitespace-only |
| `Annotations.StringLength` | DTOs/CreateProductDto.cs:8 | `[StringLength(max, MinimumLength = min)]`: null passes, otherwise the length is within [min, max] |
| `Annotations.RangeRealFrom` | DTOs/CreateProductDto.cs:12 | `[Range(0.01, double.MaxValue)]` on a decimal: only the inclusive lower bound constrains |
| `Annotations.RangeInt` | DTOs/CreateProductDto.cs:16 | `[Range(min, max)]` on an int, both bounds inclusive |
| `Models.IsValidCharacterized` | Models/Product.cs:7-19 | the entity invariant does not depend on Id, and holds exactly for a non-null, non-blank name of length 3 to 100, a price of at least 0.01 and a non-negative quantity |
| `Mapping.ToProductDto` | Profiles/MappingProfile.cs:11 | the read DTO carries the product's Id, Name, Price and Quantity unchanged |
| `Mapping.ToNewProduct` | Profiles/MappingProfile.cs:12 | a new entity takes the DTO's Name, Price and Quantity, and its Id is the default 0 |
| `Mapping.MapOnto` | Profiles/MappingProfile.cs:12 | overwriting an existing product keeps its Id and replaces exactly Name, Price and Quantity with the DTO's |
| `Mapping.MapAll` | Controllers/ProductsController.cs:51 | mapping a product list preserves its length |
| `Mapping.MapAllAt` | Controllers/ProductsController.cs:51 | mapping a product list preserves order: the k-th DTO is the k-th product mapped |
| `Mapping.RoundTrip` | Profiles/MappingProfile.cs:11-12 | DTO to Product to ProductDto gives back the DTO's Name, Price and Quantity, with whatever Id the store assigned in between |
| `Mapping.ValidityCarriesOver` | Models/Product.cs:9-19 | the entity's annotations coincide with the DTO's: a product built from a DTO, or overwritten by one, is valid exactly when the DTO is |
| `Mapping.MapOntoLastWins` | Controllers/ProductsController.cs:112 | overwriting is idempotent, and after two overwrites only the last DTO's fields remain |
| `Paging.Wrap32` | Controllers/ProductsController.cs:41 | unchecked `int` arithmetic: the result is congruent to the exact value modulo 2^32, and equal to it when the exact value fits |
| `Paging.CeilDiv` | Controllers/ProductsController.cs:38 | the page count is the ceiling of items over page size: the least q with q * size >= items |
| `Paging.SkipTake` | Controllers/ProductsController.cs:40-43 | `Skip(n).Take(m)` gives min(m, max(0, length - n)) items, the i-th being the source's (n + i)-th; non-positive counts skip or take nothing |
| `Paging.PageOf` | Controllers/ProductsController.cs:40-43 | page p of size s has min(s, max(0, total - (p-1)*s)) items, contiguous from offset (p-1)*s, and is empty past the end |
| `Paging.SkipCountAsWritten` | Controllers/ProductsController.cs:41 | the page offset as the code computes it, `(pageNumber - 1) * pageSize` wrapped to 32 bits |
| `Paging.SkipCount` | Controllers/ProductsController.cs:41 | the exact offset `(pageNumber - 1) * pageSize`, the number of products on the earlier pages; it is never negative for a page number of at least 1 |
| `Paging.PageOfAsWritten` | Controllers/ProductsController.cs:40-43 | the page the code fetches: `Skip` at the wrapped offset, then `Take(pageSize)` |
| `Paging.AsWrittenAgreesWithoutOverflow` | Controllers/ProductsController.cs:41 | while (p-1)*s fits in an `int`, the page the code fetches is the exact page |
| `Paging.OverflowServesFirstPage` | Controllers/ProductsController.cs:41 | page 65537 of size 65536 is empty, but the 32-bit offset wraps to 0 and the code serves the first page |
| `Repository.ProductStore.QueryProducts` | Services/Repositories/IProductRepository.cs:13 | the query lists every stored product exactly once, and nothing else |
| `Repository.ProductStore.CountProducts` | Controllers/ProductsController.cs:37 | the count is the number of stored products, in one round trip |
| `Repository.ProductStore.ListProducts` | Controllers/ProductsController.cs:40-43 | the fetched list is the Skip/Take slice of the query, in one round trip |
| `Repository.ProductStore.GetProductById` | Services/Repositories/IProductRepository.cs:8 | the product stored under the Id, or null when there is none |
| `Repository.ProductStore.ProductExists` | Services/Repositories/IProductRepository.cs:12 | true exactly when a product has the Id |
| `Repository.ProductStore.AddProduct` | Services/Repositories/IProductRepository.cs:9 | the store assigns a fresh Id, adds exactly that product at the end of the order, and the caller's product carries the Id |
| `Repository.ProductStore.UpdateProduct` | Services/Repositories/IProductRepository.cs:10 | the row with the product's Id is overwritten and nothing else changes; without such a row nothing changes |
| `Repository.ProductStore.DeleteProduct` | Services/Repositories/IProductRepository.cs:11 | exactly the product with the Id is removed, from the map and from the order |
| `Repository.Without` | Services/Repositories/IProductRepository.cs:11 | removing an Id from the order keeps every other Id, keeps them distinct, and shortens the order by one when the Id was there |
| `Controllers.ListPage` | Controllers/ProductsController.cs:37-52 | the envelope: TotalItems is the product count, TotalPages its ceiling over the page size, CurrentPage and PageSize echo the request, and Items are the page's products mapped element by element |
| `Controllers.ActionResult.StatusCode` | Controllers/ProductsController.cs:32-133 | the status each result helper sends: `Ok` 200, `CreatedAtAction` 201, `NoContent` 204, `BadRequest` 400, `NotFound` 404 |
| `Controllers.ProductsController.constructor` | Controllers/ProductsController.cs:18-23 | the controller keeps the repository it is given |
| `Controllers.BindPaging` | Controllers/ProductsController.cs:27 | an absent pageNumber is 1 and an absent pageSize is 10; given values pass through |
| `Controllers.DefaultRequestListsFirstTen` | Controllers/ProductsController.cs:27-52 | a listing request without a query string returns the first ten products of the store's order, mapped |
| `Controllers.ProductsController.Valid` | Models/Product.cs:9-19 | the controller's invariant: the store is consistent and every stored product satisfies the entity's annotations; every endpoint preserves it |
| `Controllers.ProductsController.GetProducts` | Controllers/ProductsController.cs:27-58 | non-positive paging gives 400 with the fixed message before any query; otherwise 200 with the envelope over the store at the exact offset (p-1)*s, after exactly two queries |
| `Controllers.ProductsController.GetProduct` | Controllers/ProductsController.cs:62-76 | 404 when no product has the Id, otherwise 200 with the stored product's fields |
| `Controllers.ProductsController.CreateProduct` | Controllers/ProductsController.cs:79-94 | an invalid DTO gives 400 with all its violations and leaves the store alone; a valid one adds exactly one product with the DTO's fields under a fresh Id, and returns 201 naming GetProduct and that Id |
| `Controllers.ProductsController.UpdateProduct` | Controllers/ProductsController.cs:97-118 | an invalid DTO gives 400 before any lookup; a missing Id gives 404 and no change; otherwise only that product's Name, Price and Quantity change, its Id is kept, and the result is 204 |
| `Controllers.ProductsController.DeleteProduct` | Controllers/ProductsController.cs:121-134 | a missing Id gives 404 and no change; otherwise exactly that product is removed and the result is 204 |
| `Middleware.ChooseError` | Middleware/ExceptionHandlingMiddleware.cs:30-39 | an ApplicationException gives 400 with its own message; any other exception gives 500 with "An unexpected error occurred." |
| `Middleware.IsA` | Middleware/ExceptionHandlingMiddleware.cs:35 | the `is` test: the class is the target or derives from it through its chain of base classes |
| `Middleware.IsATransitive` | Middleware/ExceptionHandlingMiddleware.cs:35 | the `is` test follows the inheritance chain transitively |
| `Middleware.SubclassesAreClientErrors` | Middleware/ExceptionHandlingMiddleware.cs:35-39 | an exception of any class deriving from ApplicationException, at any depth, gives 400 and its own message |
| `Middleware.NoDetailLeaks` | Middleware/ExceptionHandlingMiddleware.cs:32-39 | the status is 400 or 500, and a 500 never carries the exception's message |
| `Middleware.ExceptionHandlingMiddleware.HandleException` | Middleware/ExceptionHandlingMiddleware.cs:41-52 | the response gets content type application/json and the chosen status, and the written body's StatusCode equals that status |
| `Middleware.ExceptionHandlingMiddleware.Invoke` | Middleware/ExceptionHandlingMiddleware.cs:17-28 | a pipeline that completes leaves the response and the log untouched; an exception is logged first, then translated and written |
| `Scenarios.CreateThenGet` | Controllers/ProductsController.cs:62-94 | creating a valid product and fetching the Id from the 201 gives 200 with the DTO's fields under that Id |
| `Scenarios.DeleteThenGet` | Controllers/ProductsController.cs:62-76 | deleting an existing product gives 204, and fetching it afterwards gives 404 |
| `Scenarios.RejectedUpdateChangesNothing` | Controllers/ProductsController.cs:97-118 | an update rejected with 400 or 404 leaves every stored product as it was |
| `Scenarios.WidgetIsValid` | DTOs/CreateProductDto.cs:7-17 | { Name: "Widget", Price: 9.99, Quantity: 5 } passes validation |
| `Scenarios.ShortNameRejected` | DTOs/CreateProductDto.cs:8 | { Name: "AB", Price: 9.99, Quantity: 5 } is rejected with exactly the Name length message |
| `Scenarios.WidgetScenario` | Controllers/ProductsController.cs:62-94 | creating the Widget gives 201, and fetching its Id gives 200 with Name "Widget", Price 9.99, Quantity 5 |

## Findings

| source | as written | input that shows it | evidently intended | confidence | as-written member | corrected member |
|---|---|---|---|---|---|---|
| Controllers/ProductsController.cs:41 | `(pageNumber - 1) * pageSize` is computed in unchecked 32-bit `int` and wraps | pageNumber = 65537, pageSize = 65536: the offset 2^32 wraps to 0, so a page far past the end returns the first 65536 products | the offset is exact, so a page past the end is empty | high; not executed | `Paging.OverflowServesFirstPage` | `Paging.PageOf` |

The controller model uses the corrected, exact offset (`Paging.SkipCount`).
`Paging.AsWrittenAgreesWithoutOverflow` shows that the two agree whenever the
offset fits in an `int`.

## Left out

- Controllers.ProductsController.GetProducts: models the corrected, exact page offset, not the code's 32-bit wrapped one. The two fetch the same page whenever (pageNumber - 1) * pageSize fits in an `int` (`Paging.AsWrittenAgreesWithoutOverflow`); beyond that the code serves another page (see "## Findings").

- Asynchrony, the request pipeline, `HttpContext` and JSON serialisation: each call is a sequential method, and a written body is kept as the record it serialises.
- The Entity Framework query execution and the repository implementation: `ProductStore` stands in for them. `GetAllProductsAsync` is never called by the controller and is not modelled. Store failures are not modelled; they surface as exceptions, which the middleware model covers.
- The store's default order: an unordered SQL query has no defined order. The model uses insertion order.
- Identity exhaustion: Ids are unbounded integers, while the column is a 32-bit `int`.
- `CountAsync` returning more than `int.MaxValue`: not modelled.
- `Paging.SkipTake`: a negative `Skip` count is treated as zero, as `Enumerable.Skip` does. A database provider may reject it instead. The finding above does not depend on this: its wrapped offset is exactly 0.
- `Paging.CeilDiv`: `Math.Ceiling` over a `double` quotient is modelled as exact integer ceiling. For operands below 2^31 the quotient is never rounded onto an integer it differs from.
- Price: the `decimal` is a `real`. The `double.MaxValue` upper bound lies beyond every `decimal` and is not modelled. `[Range]` converts the value to `double` before comparing, so a decimal a few ulps below 0.01 may be accepted; that rounding is not modelled.
- Name length: `[StringLength]` counts UTF-16 code units, and the model counts Unicode scalar values. They differ only for characters outside the Basic Multilingual Plane.
- With `[ApiController]`, an invalid model state is answered with 400 before the action runs, as a validation problem body. The result is the same as the action's own check: 400, the field errors, no store call. The model keeps the action's check.
- Logging content and the `[ResponseCache]` hints: not modelled. Only the fact that the middleware logs an exception before writing its response is kept, as a ghost event.
- The `[HttpGet("id")]` route template: routing is not modelled. `GetProduct` is a plain lookup by Id.
- A response that has already started when an exception escapes makes setting the status throw in ASP.NET Core. This is not modelled: the middleware always sets the status and writes its body.
