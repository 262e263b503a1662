/**
 * The product resolvers: a firm's catalogue, read and written only by callers
 * of that firm.
 */
module ProductResolvers {
  import opened Wrappers
  import opened RequestContext
  import opened GraphQLErrors
  import opened Store
  import Seqs

  const ProductNotFound := Plain("Product not found")

  /** `product(id)`: the product, if it is the caller's firm's. */
  function ProductQuery(t: Tables, user: Option<ContextUser>, id: string): (r: Result<Product, GraphQLError>)
    ensures r.Ok? <==> user.Some? && id in t.products && t.products[id].firmId == user.value.firmId
    ensures r.Ok? ==> r.value == t.products[id]
    ensures user.None? ==> r == Err(NotAuthenticatedError)
    ensures user.Some? && id !in t.products ==> r == Err(ProductNotFound)
    ensures user.Some? && id in t.products && t.products[id].firmId != user.value.firmId ==>
      r == Err(Plain("Not authorized to view this product"))
  {
    if user.None? then Err(NotAuthenticatedError)
    else if id !in t.products then Err(ProductNotFound)
    else if t.products[id].firmId != user.value.firmId then Err(Plain("Not authorized to view this product"))
    else Ok(t.products[id])
  }

  function CreatedAt(p: Product): int {
    p.createdAt
  }

  /** `products`: exactly the caller's firm's products, newest first. */
  method ProductsQuery(db: Database, user: Option<ContextUser>) returns (r: Result<seq<Product>, GraphQLError>)
    ensures r.Err? <==> user.None?
    ensures r.Err? ==> r == Err(NotAuthenticatedError)
    ensures r.Ok? ==>
      && (forall p :: multiset(r.value)[p] == if p in db.products.Values && p.firmId == user.value.firmId then 1 else 0)
      && Seqs.SortedDesc(r.value, CreatedAt)
  {
    if user.None? {
      return Err(NotAuthenticatedError);
    }
    var firmId := user.value.firmId;
    var rows := Seqs.OrderedRows(db.products, (p: Product) => p.firmId == firmId, CreatedAt);
    return Ok(rows);
  }

  /** `createProduct` as one transition; `newId` and `now` are the store's fresh id and clock. */
  function CreateProductStep(t: Tables, user: Option<ContextUser>, name: string, price: int, newId: string, now: int): (Result<Product, GraphQLError>, Tables) {
    if user.None? then (Err(NotAuthenticatedError), t)
    else
      var product := Product(newId, name, price, user.value.firmId, now);
      (Ok(product), t.(products := t.products[newId := product]))
  }

  /** `updateProduct` as one transition. */
  function UpdateProductStep(t: Tables, user: Option<ContextUser>, id: string, name: string, price: int): (Result<Product, GraphQLError>, Tables) {
    if user.None? then (Err(NotAuthenticatedError), t)
    else if id !in t.products then (Err(ProductNotFound), t)
    else if t.products[id].firmId != user.value.firmId then (Err(Plain("Not authorized to update this product")), t)
    else
      var product := t.products[id].(name := name, price := price);
      (Ok(product), t.(products := t.products[id := product]))
  }

  /** `deleteProduct` as one transition. */
  function DeleteProductStep(t: Tables, user: Option<ContextUser>, id: string): (Result<bool, GraphQLError>, Tables) {
    if user.None? then (Err(NotAuthenticatedError), t)
    else if id !in t.products then (Err(ProductNotFound), t)
    else if t.products[id].firmId != user.value.firmId then (Err(Plain("Not authorized to delete this product")), t)
    else (Ok(true), t.(products := t.products - {id}))
  }

  /** A created product carries the given name and price and the caller's firm;
      no other table and no other product changes. */
  lemma CreateProductEffect(t: Tables, user: Option<ContextUser>, name: string, price: int, newId: string, now: int)
    requires newId !in t.products
    ensures var (r, after) := CreateProductStep(t, user, name, price, newId, now);
      && (r.Err? <==> user.None?)
      && (r.Err? ==> r == Err(NotAuthenticatedError) && after == t)
      && (r.Ok? ==>
            && r.value.name == name && r.value.price == price && r.value.firmId == user.value.firmId
            && after.products == t.products[newId := r.value]
            && after.products.Keys == t.products.Keys + {newId}
            && after.bills == t.bills && after.billItems == t.billItems && after.users == t.users && after.firms == t.firms)
  {
  }

  /** An update changes only the target's name and price, and only when the
      target belongs to the caller's firm; anything else changes nothing. */
  lemma UpdateProductEffect(t: Tables, user: Option<ContextUser>, id: string, name: string, price: int)
    ensures var (r, after) := UpdateProductStep(t, user, id, name, price);
      && (r.Ok? <==> user.Some? && id in t.products && t.products[id].firmId == user.value.firmId)
      && (r.Err? ==> after == t)
      && (user.None? ==> r == Err(NotAuthenticatedError))
      && (user.Some? && id !in t.products ==> r == Err(ProductNotFound))
      && (user.Some? && id in t.products && t.products[id].firmId != user.value.firmId ==>
            r == Err(Plain("Not authorized to update this product")))
      && (r.Ok? ==>
            var before := t.products[id];
            && r.value.name == name && r.value.price == price
            && r.value.id == before.id && r.value.firmId == before.firmId && r.value.createdAt == before.createdAt
            && after.products.Keys == t.products.Keys
            && (forall k | k in t.products && k != id :: after.products[k] == t.products[k])
            && after.bills == t.bills && after.billItems == t.billItems && after.users == t.users && after.firms == t.firms)
  {
  }

  /** A delete removes only the target, only when it belongs to the caller's firm,
      and answers `true`. */
  lemma DeleteProductEffect(t: Tables, user: Option<ContextUser>, id: string)
    ensures var (r, after) := DeleteProductStep(t, user, id);
      && (r.Ok? <==> user.Some? && id in t.products && t.products[id].firmId == user.value.firmId)
      && (r.Ok? ==> r.value == true && after.products.Keys == t.products.Keys - {id} &&
                    (forall k | k in after.products :: after.products[k] == t.products[k]) &&
                    after.bills == t.bills && after.billItems == t.billItems &&
                    after.users == t.users && after.firms == t.firms)
      && (user.None? ==> r == Err(NotAuthenticatedError))
      && (user.Some? && id !in t.products ==> r == Err(ProductNotFound))
      && (user.Some? && id in t.products && t.products[id].firmId != user.value.firmId ==>
            r == Err(Plain("Not authorized to delete this product")))
      && (r.Err? ==> after == t)
  {
  }

  /** Bill rows keep the price they were billed at: changing or deleting a
      product leaves every bill, every row and every total as it was. */
  lemma PriceSnapshot(t: Tables, user: Option<ContextUser>, id: string, name: string, price: int, billId: string)
    requires Consistent(t) && billId in t.bills
    ensures var after := UpdateProductStep(t, user, id, name, price).1;
      after.bills[billId] == t.bills[billId] && ItemsOf(after.billItems, billId) == ItemsOf(t.billItems, billId) &&
      after.bills[billId].totalAmount == TotalOf(ItemsOf(after.billItems, billId))
    ensures var after := DeleteProductStep(t, user, id).1;
      after.bills[billId] == t.bills[billId] && ItemsOf(after.billItems, billId) == ItemsOf(t.billItems, billId)
  {
  }

  /** Every product write keeps the database consistent. */
  lemma ProductWritesConsistent(t: Tables, user: Option<ContextUser>, id: string, name: string, price: int, newId: string, now: int)
    requires Consistent(t)
    ensures newId !in t.products ==> Consistent(CreateProductStep(t, user, name, price, newId, now).1)
    ensures Consistent(UpdateProductStep(t, user, id, name, price).1)
    ensures Consistent(DeleteProductStep(t, user, id).1)
  {
  }

  /** No product write touches a product of another firm. */
  lemma ProductTenantIsolation(t: Tables, user: ContextUser, id: string, name: string, price: int, newId: string, now: int, k: string)
    requires newId !in t.products
    requires k in t.products && t.products[k].firmId != user.firmId
    ensures var after := CreateProductStep(t, Some(user), name, price, newId, now).1;
      k in after.products && after.products[k] == t.products[k]
    ensures var after := UpdateProductStep(t, Some(user), id, name, price).1;
      k in after.products && after.products[k] == t.products[k]
    ensures var after := DeleteProductStep(t, Some(user), id).1;
      k in after.products && after.products[k] == t.products[k]
  {
  }

  /** `createProduct` on the database. */
  method CreateProduct(db: Database, user: Option<ContextUser>, name: string, price: int, newId: string, now: int) returns (r: Result<Product, GraphQLError>)
    requires db.Valid()
    requires newId !in db.products
    modifies db
    ensures (r, db.Snapshot()) == CreateProductStep(old(db.Snapshot()), user, name, price, newId, now)
    ensures db.Valid()
  {
    ProductWritesConsistent(db.Snapshot(), user, "", name, price, newId, now);
    if user.None? {
      return Err(NotAuthenticatedError);
    }
    var product := Product(newId, name, price, user.value.firmId, now);
    db.products := db.products[newId := product];
    return Ok(product);
  }

  /** `updateProduct` on the database. */
  method UpdateProduct(db: Database, user: Option<ContextUser>, id: string, name: string, price: int) returns (r: Result<Product, GraphQLError>)
    requires db.Valid()
    modifies db
    ensures (r, db.Snapshot()) == UpdateProductStep(old(db.Snapshot()), user, id, name, price)
    ensures db.Valid()
  {
    ProductWritesConsistent(db.Snapshot(), user, id, name, price, "", 0);
    if user.None? {
      return Err(NotAuthenticatedError);
    }
    if id !in db.products {
      return Err(ProductNotFound);
    }
    var existing := db.products[id];
    if existing.firmId != user.value.firmId {
      return Err(Plain("Not authorized to update this product"));
    }
    var product := existing.(name := name, price := price);
    db.products := db.products[id := product];
    return Ok(product);
  }

  /** `deleteProduct` on the database. */
  method DeleteProduct(db: Database, user: Option<ContextUser>, id: string) returns (r: Result<bool, GraphQLError>)
    requires db.Valid()
    modifies db
    ensures (r, db.Snapshot()) == DeleteProductStep(old(db.Snapshot()), user, id)
    ensures db.Valid()
  {
    ProductWritesConsistent(db.Snapshot(), user, id, "", 0, "", 0);
    if user.None? {
      return Err(NotAuthenticatedError);
    }
    if id !in db.products {
      return Err(ProductNotFound);
    }
    if db.products[id].firmId != user.value.firmId {
      return Err(Plain("Not authorized to delete this product"));
    }
    db.products := db.products - {id};
    return Ok(true);
  }
}
