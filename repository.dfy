/** An in-memory stand-in for the product repository: the products by Id,
    the store's default enumeration order, and the next identity value. */
module Repository {
  import opened Wrappers
  import opened Models
  import opened Paging

  predicate Distinct(s: seq<int>) {
    forall i, j :: 0 <= i < j < |s| ==> s[i] != s[j]
  }

  /** `s` with every occurrence of `x` taken out, the rest in order. */
  function Without(s: seq<int>, x: int): (r: seq<int>)
    ensures forall y :: y in r <==> y in s && y != x
    ensures Distinct(s) ==> Distinct(r)
    ensures Distinct(s) && x in s ==> |r| == |s| - 1
    ensures x !in s ==> r == s
  {
    if s == [] then []
    else if s[0] == x then Without(s[1..], x)
    else
      var rest := Without(s[1..], x);
      assert Distinct(s) ==> s[0] !in s[1..] && Distinct(s[1..]);
      [s[0]] + rest
  }

  /** The products listed in the given order of Ids. */
  function InOrder(products: map<int, Product>, order: seq<int>): (all: seq<Product>)
    requires forall i :: 0 <= i < |order| ==> order[i] in products
    ensures |all| == |order|
    ensures forall i :: 0 <= i < |order| ==> all[i] == products[order[i]]
  {
    if order == [] then [] else [products[order[0]]] + InOrder(products, order[1..])
  }

  /** The persisted state, apart from the ghost count of round trips. */
  datatype StoreState = StoreState(products: map<int, Product>, order: seq<int>, nextId: int)

  class ProductStore {
    var products: map<int, Product>
    /** The order in which an unordered query enumerates the products: insertion order. */
    var order: seq<int>
    /** The value the identity column hands out next. */
    var nextId: int
    /** The number of calls into the store. */
    ghost var roundTrips: nat

    ghost predicate Valid()
      reads this`products, this`order, this`nextId
    {
      && nextId >= 1
      && (forall id :: id in products ==> products[id].id == id && 1 <= id < nextId)
      && (forall id :: id in order <==> id in products)
      && Distinct(order)
      && |order| == |products|
    }

    ghost function State(): StoreState
      reads this`products, this`order, this`nextId
    {
      StoreState(products, order, nextId)
    }

    constructor ()
      ensures Valid() && products == map[] && order == [] && nextId == 1 && roundTrips == 0
    {
      products, order, nextId := map[], [], 1;
      roundTrips := 0;
    }

    /** `QueryProducts()`: every product, in the store's order. */
    function QueryProducts(): (all: seq<Product>)
      requires Valid()
      reads this`products, this`order, this`nextId
      ensures |all| == |products|
      ensures forall p :: p in all ==> p.id in products && products[p.id] == p
      ensures forall id :: id in products ==> products[id] in all
      ensures forall i, j :: 0 <= i < j < |all| ==> all[i].id != all[j].id
    {
      assert forall i :: 0 <= i < |order| ==> order[i] in order;
      var all := InOrder(products, order);
      forall id | id in products
        ensures products[id] in all
      {
        var i :| 0 <= i < |order| && order[i] == id;
        assert all[i] == products[id];
      }
      all
    }

    /** `QueryProducts().CountAsync()` */
    method CountProducts() returns (n: nat)
      requires Valid()
      modifies this`roundTrips
      ensures n == |products|
      ensures roundTrips == old(roundTrips) + 1
    {
      n := |order|;
      roundTrips := roundTrips + 1;
    }

    /** `QueryProducts().Skip(skip).Take(take).ToListAsync()` */
    method ListProducts(skip: int, take: int) returns (ps: seq<Product>)
      requires Valid()
      modifies this`roundTrips
      ensures ps == SkipTake(QueryProducts(), skip, take)
      ensures roundTrips == old(roundTrips) + 1
    {
      ps := SkipTake(QueryProducts(), skip, take);
      roundTrips := roundTrips + 1;
    }

    /** `GetProductByIdAsync(id)`: null when no product has that Id. */
    method GetProductById(id: int) returns (r: Option<Product>)
      requires Valid()
      modifies this`roundTrips
      ensures r == if id in products then Some(products[id]) else None
      ensures roundTrips == old(roundTrips) + 1
    {
      r := if id in products then Some(products[id]) else None;
      roundTrips := roundTrips + 1;
    }

    /** `ProductExistsAsync(id)` */
    method ProductExists(id: int) returns (b: bool)
      requires Valid()
      modifies this`roundTrips
      ensures b <==> id in products
      ensures roundTrips == old(roundTrips) + 1
    {
      b := id in products;
      roundTrips := roundTrips + 1;
    }

    /** `AddProductAsync(product)`: the identity column assigns the Id, which
        the caller's object then carries; `stored` is that object. */
    method AddProduct(product: Product) returns (stored: Product)
      requires Valid()
      modifies this
      ensures Valid()
      ensures stored == product.(id := old(nextId))
      ensures stored.id !in old(products)
      ensures products == old(products)[stored.id := stored]
      ensures order == old(order) + [stored.id]
      ensures nextId == old(nextId) + 1
      ensures roundTrips == old(roundTrips) + 1
    {
      stored := product.(id := nextId);
      assert stored.id !in order;
      products := products[stored.id := stored];
      order := order + [stored.id];
      nextId := nextId + 1;
      roundTrips := roundTrips + 1;
    }

    /** `UpdateProductAsync(product)`: overwrites the row with the product's Id;
        a product with no row changes nothing. */
    method UpdateProduct(product: Product)
      requires Valid()
      modifies this
      ensures Valid()
      ensures products == if product.id in old(products) then old(products)[product.id := product] else old(products)
      ensures order == old(order) && nextId == old(nextId)
      ensures roundTrips == old(roundTrips) + 1
    {
      if product.id in products {
        products := products[product.id := product];
      }
      roundTrips := roundTrips + 1;
    }

    /** `DeleteProductAsync(id)`: removes the product with that Id, if any. */
    method DeleteProduct(id: int)
      requires Valid()
      modifies this
      ensures Valid()
      ensures products == old(products) - {id}
      ensures order == Without(old(order), id)
      ensures nextId == old(nextId)
      ensures roundTrips == old(roundTrips) + 1
    {
      if id in products {
        assert (products - {id}).Keys == products.Keys - {id};
      }
      products := products - {id};
      order := Without(order, id);
      roundTrips := roundTrips + 1;
    }
  }
}
