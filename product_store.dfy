/** The product service's request handlers (product-service/controllers/productController.js)
  * over its product collection, kept as a map from id to product. */
module ProductStore {
  import opened Outcomes
  import opened ProductModel

  /** The body of `POST /api/products`. A missing string is "", a missing number `None`. */
  datatype ProductRequest = ProductRequest(
    name: string,
    description: string,
    price: Option<int>,
    inventory: Option<int>,
    category: string,
    imageUrl: Option<string>)

  const PRODUCT_NOT_FOUND := "Product not found"
  const FIELDS_REQUIRED := "Please provide all required fields"

  /** The guard of `createProduct`: every required field truthy, except that an
    * inventory of 0 is accepted and only an undefined one is refused. */
  predicate HasRequiredFields(q: ProductRequest) {
    && q.name != ""
    && q.description != ""
    && q.price.Some? && q.price.value != 0
    && q.inventory.Some?
    && q.category != ""
  }

  /** What `createProduct` hands to `Product.create`. */
  function DraftOf(q: ProductRequest): Draft {
    Draft(Some(q.name), Some(q.description), q.price, q.inventory, Some(q.category),
          Some(q.imageUrl.GetOr("")), None)
  }

  predicate AllValid(products: map<ProductId, Product>) {
    forall id :: id in products ==> ValidProduct(products[id])
  }

  /** `Product.findById` as the handlers use it. */
  function Find(products: map<ProductId, Product>, id: ProductId): (r: Reply<Product>)
    ensures r.Ok? <==> id in products
    ensures r.Ok? ==> r.value == products[id]
    ensures r.Err? ==> r.error == Http(NOT_FOUND, PRODUCT_NOT_FOUND)
  {
    if id in products then Ok(products[id]) else Err(Http(NOT_FOUND, PRODUCT_NOT_FOUND))
  }

  /** `updateProduct` on the collection: the new collection and the reply.
    * An unknown id is a 404; otherwise the update is merged under the schema's
    * validators, and a refused update leaves the collection as it was. */
  function Update(products: map<ProductId, Product>, id: ProductId, u: Patch)
    : (r: (map<ProductId, Product>, Reply<Product>))
    ensures id !in products ==> r == (products, Err(Http(NOT_FOUND, PRODUCT_NOT_FOUND)))
    ensures id in products && r.1.Ok? ==>
      r.1.value == Merged(products[id], u) && r.0 == products[id := r.1.value]
    ensures r.1.Err? ==> r.0 == products
  {
    if id !in products then (products, Err(Http(NOT_FOUND, PRODUCT_NOT_FOUND)))
    else
      match Merge(products[id], u)
      case Ok(p) => (products[id := p], Ok(p))
      case Err(f) => (products, Err(f))
  }

  /** An update keeps the set of ids and touches no other product. */
  lemma UpdateFrame(products: map<ProductId, Product>, id: ProductId, u: Patch)
    ensures Update(products, id, u).0.Keys == products.Keys
    ensures forall k :: k in products && k != id ==> Update(products, id, u).0[k] == products[k]
  {
  }

  /** An update of a valid collection keeps it valid, and it is refused exactly when the
    * merged product would break the schema. */
  lemma UpdateKeepsValid(products: map<ProductId, Product>, id: ProductId, u: Patch)
    requires AllValid(products)
    ensures AllValid(Update(products, id, u).0)
    ensures id in products ==> (Update(products, id, u).1.Ok? <==> ValidProduct(Merged(products[id], u)))
  {
    if id in products {
      MergeValid(products[id], u);
    }
  }

  /** The product collection behind the handlers. */
  class Store {
    var products: map<ProductId, Product>
    var nextId: nat

    /** Every stored product passed the schema, and ids below `nextId` are the used ones. */
    ghost predicate Valid()
      reads this
    {
      && AllValid(products)
      && forall id :: id in products ==> id < nextId
    }

    constructor ()
      ensures Valid() && products == map[]
    {
      products := map[];
      nextId := 0;
    }

    /** `getProducts`: every stored product, unchanged. */
    method GetProducts() returns (r: map<ProductId, Product>)
      ensures r.Keys == products.Keys
      ensures forall id :: id in products ==> r[id] == products[id]
    {
      r := products;
    }

    /** `getProductById`: 404 for an unknown id, otherwise the stored product; changes nothing. */
    method GetProductById(id: ProductId) returns (r: Reply<Product>)
      ensures r == Find(products, id)
    {
      if id !in products {
        return Err(Http(NOT_FOUND, PRODUCT_NOT_FOUND));
      }
      r := Ok(products[id]);
    }

    /** `createProduct`: 400 when the guard fails, the schema's refusal when
      * `Product.create` refuses, otherwise a new product under a fresh id. */
    method CreateProduct(q: ProductRequest) returns (r: Reply<(ProductId, Product)>)
      requires Valid()
      modifies this
      ensures Valid()
      ensures !HasRequiredFields(q) ==> r == Err(Http(BAD_REQUEST, FIELDS_REQUIRED))
      ensures HasRequiredFields(q) && Create(DraftOf(q)).Err? ==> r == Err(Create(DraftOf(q)).error)
      ensures r.Ok? <==> HasRequiredFields(q) && Create(DraftOf(q)).Ok?
      ensures r.Err? ==> products == old(products) && nextId == old(nextId)
      ensures r.Ok? ==>
        && HasRequiredFields(q)
        && Create(DraftOf(q)) == Ok(r.value.1)
        && r.value.0 !in old(products)
        && products == old(products)[r.value.0 := r.value.1]
      ensures r.Ok? ==> r.value.1.imageUrl == q.imageUrl.GetOr("") && r.value.1.isActive
    {
      if !HasRequiredFields(q) {
        return Err(Http(BAD_REQUEST, FIELDS_REQUIRED));
      }
      var created := Create(DraftOf(q));
      if created.Err? {
        return Err(created.error);
      }
      var id := nextId;
      products := products[id := created.value];
      nextId := nextId + 1;
      r := Ok((id, created.value));
    }

    /** `updateProduct`: the collection and the reply are those of `Update`. */
    method UpdateProduct(id: ProductId, u: Patch) returns (r: Reply<Product>)
      requires Valid()
      modifies this
      ensures Valid() && nextId == old(nextId)
      ensures (products, r) == Update(old(products), id, u)
    {
      if id !in products {
        return Err(Http(NOT_FOUND, PRODUCT_NOT_FOUND));
      }
      var merged := Merge(products[id], u);
      if merged.Err? {
        return Err(merged.error);
      }
      MergeValid(products[id], u);
      products := products[id := merged.value];
      r := Ok(merged.value);
    }

    /** `deleteProduct`: 404 for an unknown id, otherwise only that product is removed
      * and its id returned. */
    method DeleteProduct(id: ProductId) returns (r: Reply<ProductId>)
      requires Valid()
      modifies this
      ensures Valid() && nextId == old(nextId)
      ensures id !in old(products) ==> r == Err(Http(NOT_FOUND, PRODUCT_NOT_FOUND)) && products == old(products)
      ensures id in old(products) ==> r == Ok(id) && products == old(products) - {id}
    {
      if id !in products {
        return Err(Http(NOT_FOUND, PRODUCT_NOT_FOUND));
      }
      products := products - {id};
      r := Ok(id);
    }
  }

  /** A zero price is refused by `createProduct` even though the schema allows it,
    * while a zero inventory is accepted. */
  lemma ZeroPriceRefusedZeroInventoryAccepted(q: ProductRequest)
    requires q.name != "" && q.description != "" && q.category != ""
    ensures q.price == Some(0) ==> !HasRequiredFields(q)
    ensures q.price.Some? && q.price.value > 0 && q.inventory == Some(0) ==> HasRequiredFields(q)
    ensures q.inventory == None ==> !HasRequiredFields(q)
  {
  }
}
