/** The product document of the product service (product-service/models/Product.js):
  * its fields, the schema's defaults, the `trim` setter on `name`, and the
  * validators (`required` on name, description, price, inventory and category;
  * `min: 0` on price and inventory). Prices are integer cents. */
module ProductModel {
  import opened Outcomes
  import opened Text

  type ProductId = nat

  datatype Product = Product(
    name: string,
    description: string,
    price: int,
    inventory: int,
    category: string,
    imageUrl: string,
    isActive: bool)

  /** What the schema guarantees of every stored product. */
  predicate ValidProduct(p: Product) {
    && p.name != "" && Trimmed(p.name)
    && p.description != ""
    && p.price >= 0
    && p.inventory >= 0
    && p.category != ""
  }

  /** The fields handed to `Product.create`; `None` is a field left undefined. */
  datatype Draft = Draft(
    name: Option<string>,
    description: Option<string>,
    price: Option<int>,
    inventory: Option<int>,
    category: Option<string>,
    imageUrl: Option<string>,
    isActive: Option<bool>)

  /** The fields of an update (`findByIdAndUpdate` with `req.body`); `None` leaves a field alone. */
  datatype Patch = Patch(
    name: Option<string>,
    description: Option<string>,
    price: Option<int>,
    inventory: Option<int>,
    category: Option<string>,
    imageUrl: Option<string>,
    isActive: Option<bool>)

  /** The update the order service sends: `{ inventory: v }`. */
  function InventoryPatch(v: int): Patch {
    Patch(None, None, None, Some(v), None, None, None)
  }

  const NAME_REQUIRED := "Please add a product name"
  const DESCRIPTION_REQUIRED := "Please add a product description"
  const PRICE_REQUIRED := "Please add a product price"
  const PRICE_NEGATIVE := "Price cannot be negative"
  const INVENTORY_NEGATIVE := "Inventory cannot be negative"
  const CATEGORY_REQUIRED := "Please add a product category"

  /** The first validator, in schema order, that `p` fails; `None` when it passes them all.
    * (Mongoose collects every failing path into one message; the model keeps the first.) */
  function FirstViolation(p: Product): (r: Option<string>)
    ensures r == None <==> (p.name != "" && p.description != "" && p.price >= 0 && p.inventory >= 0 && p.category != "")
  {
    if p.name == "" then Some(NAME_REQUIRED)
    else if p.description == "" then Some(DESCRIPTION_REQUIRED)
    else if p.price < 0 then Some(PRICE_NEGATIVE)
    else if p.inventory < 0 then Some(INVENTORY_NEGATIVE)
    else if p.category == "" then Some(CATEGORY_REQUIRED)
    else None
  }

  /** `Product.create(d)`: defaults (inventory 0, imageUrl '', isActive true), the trim
    * setter on name, then the validators. */
  function Create(d: Draft): (r: Result<Product, Failure>)
    ensures r.Ok? <==>
      && d.name.Some? && Trim(d.name.value) != ""
      && d.description.Some? && d.description.value != ""
      && d.price.Some? && d.price.value >= 0
      && d.inventory.GetOr(0) >= 0
      && d.category.Some? && d.category.value != ""
    ensures r.Ok? ==> ValidProduct(r.value)
    ensures r.Ok? ==>
      && r.value.name == Trim(d.name.value)
      && r.value.description == d.description.value
      && r.value.price == d.price.value
      && r.value.inventory == d.inventory.GetOr(0)
      && r.value.category == d.category.value
      && r.value.imageUrl == d.imageUrl.GetOr("")
      && r.value.isActive == d.isActive.GetOr(true)
    ensures r.Err? ==> r.error.Schema?
  {
    if d.name.None? then Err(Schema(NAME_REQUIRED))
    else if d.description.None? then Err(Schema(DESCRIPTION_REQUIRED))
    else if d.price.None? then Err(Schema(PRICE_REQUIRED))
    else if d.category.None? then Err(Schema(CATEGORY_REQUIRED))
    else
      var p := Product(Trim(d.name.value), d.description.value, d.price.value,
                       d.inventory.GetOr(0), d.category.value, d.imageUrl.GetOr(""), d.isActive.GetOr(true));
      match FirstViolation(p)
      case Some(m) => Err(Schema(m))
      case None => Ok(p)
  }

  /** The product `u` describes when applied to `p` (the trim setter runs on a new name). */
  function Merged(p: Product, u: Patch): Product {
    Product(
      if u.name.Some? then Trim(u.name.value) else p.name,
      u.description.GetOr(p.description),
      u.price.GetOr(p.price),
      u.inventory.GetOr(p.inventory),
      u.category.GetOr(p.category),
      u.imageUrl.GetOr(p.imageUrl),
      u.isActive.GetOr(p.isActive))
  }

  /** The first update validator that fails. With `runValidators: true` Mongoose
    * validates only the paths the update sets. */
  function PatchViolation(u: Patch): Option<string> {
    if u.name.Some? && Trim(u.name.value) == "" then Some(NAME_REQUIRED)
    else if u.description.Some? && u.description.value == "" then Some(DESCRIPTION_REQUIRED)
    else if u.price.Some? && u.price.value < 0 then Some(PRICE_NEGATIVE)
    else if u.inventory.Some? && u.inventory.value < 0 then Some(INVENTORY_NEGATIVE)
    else if u.category.Some? && u.category.value == "" then Some(CATEGORY_REQUIRED)
    else None
  }

  /** Applying an update: the merged product when the written paths pass their
    * validators, and the validator's message otherwise. */
  function Merge(p: Product, u: Patch): (r: Result<Product, Failure>)
    ensures r.Ok? ==> r.value == Merged(p, u)
    ensures r.Err? ==> r.error.Schema?
    ensures u.inventory.Some? && u.inventory.value < 0 ==> r.Err?
    ensures u.price.Some? && u.price.value < 0 ==> r.Err?
  {
    match PatchViolation(u)
    case Some(m) => Err(Schema(m))
    case None => Ok(Merged(p, u))
  }

  /** On a valid product, checking only the written paths is the same as checking the
    * whole merged product. */
  lemma MergeValid(p: Product, u: Patch)
    requires ValidProduct(p)
    ensures Merge(p, u).Ok? <==> ValidProduct(Merged(p, u))
  {
  }

  /** The order service's write `{ inventory: v }` with `v >= 0` changes the
    * inventory of a valid product and nothing else; with `v < 0` it is refused
    * with the schema's message. */
  lemma InventoryPatchEffect(p: Product, v: int)
    requires ValidProduct(p)
    ensures v >= 0 ==> Merge(p, InventoryPatch(v)) == Ok(p.(inventory := v))
    ensures v < 0 ==> Merge(p, InventoryPatch(v)) == Err(Schema(INVENTORY_NEGATIVE))
  {
  }
}
