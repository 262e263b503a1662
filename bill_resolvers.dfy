/**
 * The bill resolvers: three firm-scoped reads and three writes. A write checks
 * the caller, the target bill and the items, prices every item at its product's
 * current price, and then changes the bill and bill-item tables in one
 * transaction, modelled as one step.
 */
module BillResolvers {
  import opened Wrappers
  import opened RequestContext
  import opened GraphQLErrors
  import opened Store
  import Seqs

  datatype BillItemInput = BillItemInput(productId: string, quantity: int)

  /** An optional argument: left out (`undefined`), given as `null`, or given a value. */
  datatype OptionalArg = Omitted | Null | Given(value: string)

  datatype BillInput = BillInput(title: string, customerName: OptionalArg, customerPhone: OptionalArg, items: seq<BillItemInput>)

  /** A line computed before the bill exists: `billItemsData`. */
  datatype PricedItem = PricedItem(productId: string, quantity: int, price: int, total: int)

  const EmptyBill := Plain("Bill must have at least one item")
  const ProductsNotAccessible := Plain("Some products not found or not accessible")
  const BillNotFound := Plain("Bill not found")

  /** The column a `create` stores: both `undefined` and `null` leave it null. */
  function Stored(arg: OptionalArg): Option<string> {
    if arg.Given? then Some(arg.value) else None
  }

  /** The column an `update` stores: `undefined` is ignored and keeps the old value. */
  function Patched(previous: Option<string>, arg: OptionalArg): Option<string> {
    match arg
    case Omitted => previous
    case Null => None
    case Given(v) => Some(v)
  }

  /** `items.map((item) => item.productId)`. */
  function ProductIds(items: seq<BillItemInput>): (ids: seq<string>)
    ensures |ids| == |items| && forall i | 0 <= i < |items| :: ids[i] == items[i].productId
  {
    seq(|items|, i requires 0 <= i < |items| => items[i].productId)
  }

  /** The ids of the rows `product.findMany({ where: { id: { in: ids }, firmId } })` returns. */
  function FoundIds(products: map<string, Product>, ids: seq<string>, firmId: string): set<string> {
    set k | k in products && k in ids && products[k].firmId == firmId
  }

  /** `products.length === productIds.length`. */
  predicate AllProductsFound(products: map<string, Product>, ids: seq<string>, firmId: string) {
    |FoundIds(products, ids, firmId)| == |ids|
  }

  /** Every id names a product of the firm. */
  predicate AllOfFirm(products: map<string, Product>, ids: seq<string>, firmId: string) {
    forall i | 0 <= i < |ids| :: ids[i] in products && products[ids[i]].firmId == firmId
  }

  /** The count check passes exactly when every id names a product of the
      caller's firm and no id is repeated: a duplicated product id is refused
      even though the product exists. */
  lemma ProductCheckIff(products: map<string, Product>, ids: seq<string>, firmId: string)
    ensures AllProductsFound(products, ids, firmId) <==> Seqs.Distinct(ids) && AllOfFirm(products, ids, firmId)
  {
    var found := FoundIds(products, ids, firmId);
    var named := set x | x in ids;
    Seqs.CardinalityOfElements(ids);
    assert found <= named;
    if AllOfFirm(products, ids, firmId) {
      assert named <= found by {
        forall x | x in named ensures x in found {
          var i :| 0 <= i < |ids| && ids[i] == x;
        }
      }
      assert found == named;
    }
    if AllProductsFound(products, ids, firmId) {
      assert |named| == |found| + |named - found|;
      assert named - found == {};
      forall i | 0 <= i < |ids| ensures ids[i] in products && products[ids[i]].firmId == firmId {
        assert ids[i] in named;
      }
    }
  }

  function PriceOf(item: BillItemInput, product: Product): PricedItem {
    PricedItem(item.productId, item.quantity, product.price, product.price * item.quantity)
  }

  /** Every item priced at its product's current price. */
  function Priced(items: seq<BillItemInput>, products: map<string, Product>): (r: seq<PricedItem>)
    requires forall i | 0 <= i < |items| :: items[i].productId in products
    ensures |r| == |items| && forall i | 0 <= i < |items| :: r[i] == PriceOf(items[i], products[items[i].productId])
  {
    seq(|items|, i requires 0 <= i < |items| => PriceOf(items[i], products[items[i].productId]))
  }

  function PricedSum(priced: seq<PricedItem>): int {
    if priced == [] then 0 else priced[0].total + PricedSum(priced[1..])
  }

  lemma {:induction false} PricedSumAppend(xs: seq<PricedItem>, ys: seq<PricedItem>)
    ensures PricedSum(xs + ys) == PricedSum(xs) + PricedSum(ys)
  {
    if xs == [] {
      assert xs + ys == ys;
    } else {
      assert (xs + ys)[1..] == xs[1..] + ys;
      PricedSumAppend(xs[1..], ys);
    }
  }

  /** `billItemsData.map((item) => ({ ...item, billId }))`. */
  function AttachBill(billId: string, priced: seq<PricedItem>): (rows: seq<BillItem>)
    ensures |rows| == |priced|
    ensures forall i | 0 <= i < |priced| ::
      rows[i] == BillItem(billId, priced[i].productId, priced[i].quantity, priced[i].price, priced[i].total)
  {
    seq(|priced|, i requires 0 <= i < |priced| =>
      BillItem(billId, priced[i].productId, priced[i].quantity, priced[i].price, priced[i].total))
  }

  /** The stored rows add up to the amount computed before storing them. */
  lemma {:induction false} AttachTotal(billId: string, priced: seq<PricedItem>)
    ensures TotalOf(AttachBill(billId, priced)) == PricedSum(priced)
  {
    if priced != [] {
      AttachTotal(billId, priced[1..]);
      assert AttachBill(billId, priced)[1..] == AttachBill(billId, priced[1..]);
    }
  }

  /** The loop of `items.map` with `totalAmount += itemTotal`. */
  method PriceItems(items: seq<BillItemInput>, products: map<string, Product>) returns (priced: seq<PricedItem>, totalAmount: int)
    requires forall i | 0 <= i < |items| :: items[i].productId in products
    ensures priced == Priced(items, products)
    ensures totalAmount == PricedSum(priced)
  {
    priced, totalAmount := [], 0;
    for k := 0 to |items|
      invariant priced == Priced(items[..k], products)
      invariant totalAmount == PricedSum(priced)
    {
      var product := products[items[k].productId];
      var line := PriceOf(items[k], product);
      PricedSumAppend(priced, [line]);
      totalAmount := totalAmount + line.total;
      priced := priced + [line];
      assert items[..k + 1] == items[..k] + [items[k]];
    }
    assert items[..|items|] == items;
  }

  /** The item checks shared by `createBill` and `updateBill`, in their order. */
  function ValidateItems(t: Tables, firmId: string, items: seq<BillItemInput>): (r: Result<seq<PricedItem>, GraphQLError>)
    ensures r.Ok? ==> AllOfFirm(t.products, ProductIds(items), firmId)
  {
    if |items| == 0 then Err(EmptyBill)
    else if !AllProductsFound(t.products, ProductIds(items), firmId) then Err(ProductsNotAccessible)
    else
      ProductCheckIff(t.products, ProductIds(items), firmId);
      Ok(Priced(items, t.products))
  }

  /** The items are accepted exactly when there is at least one, each names a
      product of the caller's firm, and no product is named twice; accepted
      items are priced at the current product prices. */
  lemma ValidateItemsIff(t: Tables, firmId: string, items: seq<BillItemInput>)
    ensures ValidateItems(t, firmId, items).Ok? <==>
      |items| > 0 && Seqs.Distinct(ProductIds(items)) && AllOfFirm(t.products, ProductIds(items), firmId)
    ensures |items| == 0 ==> ValidateItems(t, firmId, items) == Err(EmptyBill)
    ensures |items| > 0 && !(Seqs.Distinct(ProductIds(items)) && AllOfFirm(t.products, ProductIds(items), firmId)) ==>
      ValidateItems(t, firmId, items) == Err(ProductsNotAccessible)
    ensures ValidateItems(t, firmId, items).Ok? ==>
      var priced := ValidateItems(t, firmId, items).value;
      |priced| == |items| &&
      forall i | 0 <= i < |items| ::
        priced[i].productId == items[i].productId && priced[i].quantity == items[i].quantity &&
        priced[i].price == t.products[items[i].productId].price &&
        priced[i].total == priced[i].price * priced[i].quantity
  {
    ProductCheckIff(t.products, ProductIds(items), firmId);
  }

  /** `createBill` as one transition: the result and the tables afterwards. */
  function CreateBillStep(t: Tables, user: Option<ContextUser>, input: BillInput, newId: string, now: int): (Result<Bill, GraphQLError>, Tables)
    requires newId !in t.bills
  {
    if user.None? then (Err(NotAuthenticatedError), t)
    else
      match ValidateItems(t, user.value.firmId, input.items)
      case Err(e) => (Err(e), t)
      case Ok(priced) =>
        var bill := Bill(newId, input.title, Stored(input.customerName), Stored(input.customerPhone),
                         PricedSum(priced), user.value.userId, user.value.firmId, now);
        (Ok(bill), t.(bills := t.bills[newId := bill], billItems := t.billItems + AttachBill(newId, priced)))
  }

  /** `updateBill` as one transition. */
  function UpdateBillStep(t: Tables, user: Option<ContextUser>, id: string, input: BillInput): (Result<Bill, GraphQLError>, Tables) {
    if user.None? then (Err(NotAuthenticatedError), t)
    else if id !in t.bills then (Err(BillNotFound), t)
    else if t.bills[id].firmId != user.value.firmId then (Err(Plain("Not authorized to update this bill")), t)
    else
      match ValidateItems(t, user.value.firmId, input.items)
      case Err(e) => (Err(e), t)
      case Ok(priced) =>
        var before := t.bills[id];
        var bill := before.(title := input.title,
                         customerName := Patched(before.customerName, input.customerName),
                         customerPhone := Patched(before.customerPhone, input.customerPhone),
                         totalAmount := PricedSum(priced));
        (Ok(bill), t.(bills := t.bills[id := bill], billItems := WithoutBill(t.billItems, id) + AttachBill(id, priced)))
  }

  /** `deleteBill` as one transition. */
  function DeleteBillStep(t: Tables, user: Option<ContextUser>, id: string): (Result<bool, GraphQLError>, Tables) {
    if user.None? then (Err(NotAuthenticatedError), t)
    else if id !in t.bills then (Err(BillNotFound), t)
    else if t.bills[id].firmId != user.value.firmId then (Err(Plain("Not authorized to delete this bill")), t)
    else (Ok(true), t.(bills := t.bills - {id}, billItems := WithoutBill(t.billItems, id)))
  }

  /** A new bill gets exactly the priced rows; every other bill keeps its rows. */
  lemma NewBillRows(items: seq<BillItem>, bills: map<string, Bill>, newId: string, priced: seq<PricedItem>, other: string)
    requires forall i | 0 <= i < |items| :: items[i].billId in bills
    requires newId !in bills && other != newId
    ensures ItemsOf(items + AttachBill(newId, priced), newId) == AttachBill(newId, priced)
    ensures ItemsOf(items + AttachBill(newId, priced), other) == ItemsOf(items, other)
  {
    var rows := AttachBill(newId, priced);
    ItemsOfAppend(items, rows, newId);
    ItemsOfAppend(items, rows, other);
    ItemsOfAbsent(items, newId);
    ItemsOfUniform(rows, newId, other);
  }

  /** Replacing a bill's rows gives it exactly the new rows; every other bill keeps its rows. */
  lemma ReplacedBillRows(items: seq<BillItem>, id: string, priced: seq<PricedItem>, other: string)
    requires other != id
    ensures ItemsOf(WithoutBill(items, id) + AttachBill(id, priced), id) == AttachBill(id, priced)
    ensures ItemsOf(WithoutBill(items, id) + AttachBill(id, priced), other) == ItemsOf(items, other)
  {
    var rows := AttachBill(id, priced);
    ItemsOfAppend(WithoutBill(items, id), rows, id);
    ItemsOfAppend(WithoutBill(items, id), rows, other);
    WithoutBillEffect(items, id, other);
    ItemsOfUniform(rows, id, other);
  }

  /** Every row left by `deleteMany` was a row before. */
  lemma {:induction false} WithoutBillRowsFrom(items: seq<BillItem>, id: string)
    ensures forall i | 0 <= i < |WithoutBill(items, id)| :: WithoutBill(items, id)[i] in items
  {
    if items != [] {
      WithoutBillRowsFrom(items[1..], id);
    }
  }

  /** `createBill` is accepted exactly when there is a caller, at least one item,
      and every item names a distinct product of the caller's firm; a refused
      call changes nothing. */
  lemma CreateBillAccepts(t: Tables, user: Option<ContextUser>, input: BillInput, newId: string, now: int)
    requires newId !in t.bills
    ensures var (r, after) := CreateBillStep(t, user, input, newId, now);
      && (r.Ok? <==> user.Some? && |input.items| > 0 && Seqs.Distinct(ProductIds(input.items)) &&
                     AllOfFirm(t.products, ProductIds(input.items), user.value.firmId))
      && (user.None? ==> r == Err(NotAuthenticatedError))
      && (user.Some? && |input.items| == 0 ==> r == Err(EmptyBill))
      && (user.Some? && |input.items| > 0 && r.Err? ==> r == Err(ProductsNotAccessible))
      && (r.Err? ==> after == t)
  {
    if user.Some? {
      ValidateItemsIff(t, user.value.firmId, input.items);
    }
  }

  /** A created bill is stamped with the caller's user and firm, its rows are the
      items at the products' current prices with `total = price * quantity`,
      its amount is the sum of its rows, and every other bill, product, user and
      firm is as it was. */
  lemma CreateBillEffect(t: Tables, user: Option<ContextUser>, input: BillInput, newId: string, now: int)
    requires Consistent(t) && newId !in t.bills
    ensures var (r, after) := CreateBillStep(t, user, input, newId, now);
      r.Ok? ==>
        && r.value.userId == user.value.userId && r.value.firmId == user.value.firmId
        && r.value.id == newId && r.value.title == input.title && after.bills[newId] == r.value
        && r.value.customerName == Stored(input.customerName) && r.value.customerPhone == Stored(input.customerPhone)
        && r.value.createdAt == now
        && after.bills.Keys == t.bills.Keys + {newId}
        && |ItemsOf(after.billItems, newId)| == |input.items|
        && (forall i | 0 <= i < |input.items| ::
              var row := ItemsOf(after.billItems, newId)[i];
              var product := t.products[input.items[i].productId];
              row.billId == newId && row.productId == input.items[i].productId && product.firmId == user.value.firmId &&
              row.quantity == input.items[i].quantity && row.price == product.price && row.total == row.price * row.quantity)
        && r.value.totalAmount == TotalOf(ItemsOf(after.billItems, newId))
        && (forall k | k in t.bills :: k in after.bills && after.bills[k] == t.bills[k] &&
                                       ItemsOf(after.billItems, k) == ItemsOf(t.billItems, k))
        && after.products == t.products && after.users == t.users && after.firms == t.firms
  {
    var (r, after) := CreateBillStep(t, user, input, newId, now);
    if r.Ok? {
      ValidateItemsIff(t, user.value.firmId, input.items);
      var priced := ValidateItems(t, user.value.firmId, input.items).value;
      NewBillRows(t.billItems, t.bills, newId, priced, newId + "'");
      AttachTotal(newId, priced);
      forall k | k in t.bills ensures ItemsOf(after.billItems, k) == ItemsOf(t.billItems, k) {
        NewBillRows(t.billItems, t.bills, newId, priced, k);
      }
    }
  }

  /** `createBill` keeps the database consistent. */
  lemma CreateBillConsistent(t: Tables, user: Option<ContextUser>, input: BillInput, newId: string, now: int)
    requires Consistent(t) && newId !in t.bills
    ensures Consistent(CreateBillStep(t, user, input, newId, now).1)
  {
    var (r, after) := CreateBillStep(t, user, input, newId, now);
    if r.Ok? {
      var priced := ValidateItems(t, user.value.firmId, input.items).value;
      var rows := AttachBill(newId, priced);
      assert after.billItems == t.billItems + rows;
      forall k | k in after.bills ensures after.bills[k].totalAmount == TotalOf(ItemsOf(after.billItems, k)) {
        if k == newId {
          NewBillRows(t.billItems, t.bills, newId, priced, newId + "'");
          AttachTotal(newId, priced);
        } else {
          NewBillRows(t.billItems, t.bills, newId, priced, k);
        }
      }
    }
  }

  /** `updateBill` refuses, without changing anything: a missing caller; a
      missing bill with "Bill not found"; another firm's bill with "Not
      authorized", before the items are looked at; then the item checks. */
  lemma UpdateBillRefusals(t: Tables, user: Option<ContextUser>, id: string, input: BillInput)
    ensures var (r, after) := UpdateBillStep(t, user, id, input);
      && (r.Err? ==> after == t)
      && (user.None? ==> r == Err(NotAuthenticatedError))
      && (user.Some? && id !in t.bills ==> r == Err(BillNotFound))
      && (user.Some? && id in t.bills && t.bills[id].firmId != user.value.firmId ==>
            r == Err(Plain("Not authorized to update this bill")))
      && (user.Some? && id in t.bills && t.bills[id].firmId == user.value.firmId && |input.items| == 0 ==>
            r == Err(EmptyBill))
      && (user.Some? && id in t.bills && t.bills[id].firmId == user.value.firmId && |input.items| > 0 && r.Err? ==>
            r == Err(ProductsNotAccessible))
      && (r.Ok? <==> user.Some? && id in t.bills && t.bills[id].firmId == user.value.firmId &&
                     |input.items| > 0 && Seqs.Distinct(ProductIds(input.items)) &&
                     AllOfFirm(t.products, ProductIds(input.items), user.value.firmId))
  {
    if user.Some? {
      ValidateItemsIff(t, user.value.firmId, input.items);
    }
  }

  /** An accepted update replaces the bill's rows with the newly priced ones,
      rewrites title, customer fields and amount, keeps its id, creator, firm
      and creation time, and leaves every other bill and its rows alone. */
  lemma UpdateBillEffect(t: Tables, user: Option<ContextUser>, id: string, input: BillInput)
    requires Consistent(t)
    ensures var (r, after) := UpdateBillStep(t, user, id, input);
      r.Ok? ==>
        var before := t.bills[id];
        && after.bills[id] == r.value
        && r.value.id == id && r.value.userId == before.userId && r.value.firmId == before.firmId && r.value.createdAt == before.createdAt
        && r.value.title == input.title
        && r.value.customerName == (if input.customerName.Omitted? then before.customerName else Stored(input.customerName))
        && r.value.customerPhone == (if input.customerPhone.Omitted? then before.customerPhone else Stored(input.customerPhone))
        && |ItemsOf(after.billItems, id)| == |input.items|
        && (forall i | 0 <= i < |input.items| ::
              var row := ItemsOf(after.billItems, id)[i];
              row.productId == input.items[i].productId && row.quantity == input.items[i].quantity &&
              row.price == t.products[input.items[i].productId].price && row.total == row.price * row.quantity)
        && r.value.totalAmount == TotalOf(ItemsOf(after.billItems, id))
        && after.bills.Keys == t.bills.Keys
        && (forall k | k in t.bills && k != id :: after.bills[k] == t.bills[k] && ItemsOf(after.billItems, k) == ItemsOf(t.billItems, k))
        && after.products == t.products && after.users == t.users && after.firms == t.firms
  {
    var (r, after) := UpdateBillStep(t, user, id, input);
    if r.Ok? {
      ValidateItemsIff(t, user.value.firmId, input.items);
      var priced := ValidateItems(t, user.value.firmId, input.items).value;
      ReplacedBillRows(t.billItems, id, priced, id + "'");
      AttachTotal(id, priced);
      forall k | k in t.bills && k != id ensures ItemsOf(after.billItems, k) == ItemsOf(t.billItems, k) {
        ReplacedBillRows(t.billItems, id, priced, k);
      }
    }
  }

  /** `updateBill` keeps the database consistent. */
  lemma UpdateBillConsistent(t: Tables, user: Option<ContextUser>, id: string, input: BillInput)
    requires Consistent(t)
    ensures Consistent(UpdateBillStep(t, user, id, input).1)
  {
    var (r, after) := UpdateBillStep(t, user, id, input);
    if r.Ok? {
      var priced := ValidateItems(t, user.value.firmId, input.items).value;
      var kept := WithoutBill(t.billItems, id);
      var rows := AttachBill(id, priced);
      assert after.billItems == kept + rows;
      WithoutBillRowsFrom(t.billItems, id);
      forall i | 0 <= i < |after.billItems|
        ensures after.billItems[i].billId in after.bills
        ensures after.billItems[i].total == after.billItems[i].price * after.billItems[i].quantity
      {
        if i < |kept| {
          assert after.billItems[i] == kept[i];
          var j :| 0 <= j < |t.billItems| && t.billItems[j] == kept[i];
        } else {
          assert after.billItems[i] == rows[i - |kept|];
        }
      }
      forall k | k in after.bills ensures after.bills[k].totalAmount == TotalOf(ItemsOf(after.billItems, k)) {
        if k == id {
          ReplacedBillRows(t.billItems, id, priced, id + "'");
          AttachTotal(id, priced);
        } else {
          ReplacedBillRows(t.billItems, id, priced, k);
        }
      }
    }
  }

  /** An accepted delete removes the bill and exactly its rows, leaves every
      other bill and its rows intact, and answers `true`; a refused one changes
      nothing. */
  lemma DeleteBillEffect(t: Tables, user: Option<ContextUser>, id: string)
    ensures var (r, after) := DeleteBillStep(t, user, id);
      && (r.Ok? <==> user.Some? && id in t.bills && t.bills[id].firmId == user.value.firmId)
      && (r.Ok? ==> r.value == true)
      && (r.Err? ==> after == t)
      && (user.None? ==> r == Err(NotAuthenticatedError))
      && (user.Some? && id !in t.bills ==> r == Err(BillNotFound))
      && (user.Some? && id in t.bills && t.bills[id].firmId != user.value.firmId ==>
            r == Err(Plain("Not authorized to delete this bill")))
      && (r.Ok? ==>
            && after.bills.Keys == t.bills.Keys - {id}
            && (forall k | k in after.bills :: after.bills[k] == t.bills[k] && ItemsOf(after.billItems, k) == ItemsOf(t.billItems, k))
            && ItemsOf(after.billItems, id) == []
            && multiset(after.billItems) + multiset(ItemsOf(t.billItems, id)) == multiset(t.billItems)
            && after.products == t.products && after.users == t.users && after.firms == t.firms)
  {
    var (r, after) := DeleteBillStep(t, user, id);
    if r.Ok? {
      WithoutBillEffect(t.billItems, id, id + "'");
      forall k | k in after.bills ensures ItemsOf(after.billItems, k) == ItemsOf(t.billItems, k) {
        WithoutBillEffect(t.billItems, id, k);
      }
      SplitByBill(t.billItems, id);
    }
  }

  /** `deleteBill` keeps the database consistent. */
  lemma DeleteBillConsistent(t: Tables, user: Option<ContextUser>, id: string)
    requires Consistent(t)
    ensures Consistent(DeleteBillStep(t, user, id).1)
  {
    var (r, after) := DeleteBillStep(t, user, id);
    if r.Ok? {
      WithoutBillRowsFrom(t.billItems, id);
      forall i | 0 <= i < |after.billItems| ensures after.billItems[i].billId in after.bills {
        var j :| 0 <= j < |t.billItems| && t.billItems[j] == after.billItems[i];
      }
      forall k | k in after.bills ensures after.bills[k].totalAmount == TotalOf(ItemsOf(after.billItems, k)) {
        WithoutBillEffect(t.billItems, id, k);
      }
    }
  }

  /** No bill write touches another firm's bills or their rows. */
  lemma TenantIsolation(t: Tables, user: ContextUser, id: string, input: BillInput, newId: string, now: int, k: string)
    requires Consistent(t) && newId !in t.bills
    requires k in t.bills && t.bills[k].firmId != user.firmId
    ensures var after := CreateBillStep(t, Some(user), input, newId, now).1;
      k in after.bills && after.bills[k] == t.bills[k] && ItemsOf(after.billItems, k) == ItemsOf(t.billItems, k)
    ensures var after := UpdateBillStep(t, Some(user), id, input).1;
      k in after.bills && after.bills[k] == t.bills[k] && ItemsOf(after.billItems, k) == ItemsOf(t.billItems, k)
    ensures var after := DeleteBillStep(t, Some(user), id).1;
      k in after.bills && after.bills[k] == t.bills[k] && ItemsOf(after.billItems, k) == ItemsOf(t.billItems, k)
  {
    CreateBillEffect(t, Some(user), input, newId, now);
    UpdateBillEffect(t, Some(user), id, input);
    DeleteBillEffect(t, Some(user), id);
  }

  /** `bill(id)`: the bill, if it is the caller's firm's. */
  function BillQuery(t: Tables, user: Option<ContextUser>, id: string): (r: Result<Bill, GraphQLError>)
    ensures r.Ok? <==> user.Some? && id in t.bills && t.bills[id].firmId == user.value.firmId
    ensures r.Ok? ==> r.value == t.bills[id]
    ensures user.None? ==> r == Err(NotAuthenticatedError)
    ensures user.Some? && id !in t.bills ==> r == Err(BillNotFound)
    ensures user.Some? && id in t.bills && t.bills[id].firmId != user.value.firmId ==>
      r == Err(Plain("Not authorized to view this bill"))
  {
    if user.None? then Err(NotAuthenticatedError)
    else if id !in t.bills then Err(BillNotFound)
    else if t.bills[id].firmId != user.value.firmId then Err(Plain("Not authorized to view this bill"))
    else Ok(t.bills[id])
  }

  function CreatedAt(b: Bill): int {
    b.createdAt
  }

  /** `bills`: every bill of the caller's firm, newest first, for a caller whose
      stored role is ADMIN. */
  method BillsQuery(db: Database, user: Option<ContextUser>) returns (r: Result<seq<Bill>, GraphQLError>)
    ensures user.None? ==> r == Err(NotAuthenticatedError)
    ensures r.Ok? <==> user.Some? && user.value.userId in db.users && db.users[user.value.userId].role == Admin
    ensures user.Some? && r.Err? ==> r == Err(Plain("Only ADMIN can view all bills"))
    ensures r.Ok? ==>
      && (forall b :: multiset(r.value)[b] == if b in db.bills.Values && b.firmId == user.value.firmId then 1 else 0)
      && Seqs.SortedDesc(r.value, CreatedAt)
  {
    if user.None? {
      return Err(NotAuthenticatedError);
    }
    var caller := user.value;
    if caller.userId !in db.users || db.users[caller.userId].role != Admin {
      return Err(Plain("Only ADMIN can view all bills"));
    }
    var rows := Seqs.OrderedRows(db.bills, (b: Bill) => b.firmId == caller.firmId, CreatedAt);
    return Ok(rows);
  }

  /** `myBills`: the bills the caller created in the caller's firm, newest first. */
  method MyBillsQuery(db: Database, user: Option<ContextUser>) returns (r: Result<seq<Bill>, GraphQLError>)
    ensures r.Err? <==> user.None?
    ensures r.Err? ==> r == Err(NotAuthenticatedError)
    ensures r.Ok? ==>
      && (forall b :: multiset(r.value)[b] ==
            if b in db.bills.Values && b.userId == user.value.userId && b.firmId == user.value.firmId then 1 else 0)
      && Seqs.SortedDesc(r.value, CreatedAt)
  {
    if user.None? {
      return Err(NotAuthenticatedError);
    }
    var caller := user.value;
    var rows := Seqs.OrderedRows(db.bills, (b: Bill) => b.userId == caller.userId && b.firmId == caller.firmId, CreatedAt);
    return Ok(rows);
  }

  /** `createBill` on the database. */
  method CreateBill(db: Database, user: Option<ContextUser>, input: BillInput, newId: string, now: int) returns (r: Result<Bill, GraphQLError>)
    requires newId !in db.bills
    requires db.Valid()
    modifies db
    ensures (r, db.Snapshot()) == CreateBillStep(old(db.Snapshot()), user, input, newId, now)
    ensures db.Valid()
  {
    CreateBillConsistent(db.Snapshot(), user, input, newId, now);
    if user.None? {
      return Err(NotAuthenticatedError);
    }
    var caller := user.value;
    if |input.items| == 0 {
      return Err(EmptyBill);
    }
    var ids := ProductIds(input.items);
    if |FoundIds(db.products, ids, caller.firmId)| != |ids| {
      return Err(ProductsNotAccessible);
    }
    ProductCheckIff(db.products, ids, caller.firmId);
    var priced, totalAmount := PriceItems(input.items, db.products);
    var bill := Bill(newId, input.title, Stored(input.customerName), Stored(input.customerPhone),
                     totalAmount, caller.userId, caller.firmId, now);
    db.bills := db.bills[newId := bill];
    db.billItems := db.billItems + AttachBill(newId, priced);
    return Ok(bill);
  }

  /** `updateBill` on the database. */
  method UpdateBill(db: Database, user: Option<ContextUser>, id: string, input: BillInput) returns (r: Result<Bill, GraphQLError>)
    requires db.Valid()
    modifies db
    ensures (r, db.Snapshot()) == UpdateBillStep(old(db.Snapshot()), user, id, input)
    ensures db.Valid()
  {
    UpdateBillConsistent(db.Snapshot(), user, id, input);
    if user.None? {
      return Err(NotAuthenticatedError);
    }
    var caller := user.value;
    if id !in db.bills {
      return Err(BillNotFound);
    }
    var existing := db.bills[id];
    if existing.firmId != caller.firmId {
      return Err(Plain("Not authorized to update this bill"));
    }
    if |input.items| == 0 {
      return Err(EmptyBill);
    }
    var ids := ProductIds(input.items);
    if |FoundIds(db.products, ids, caller.firmId)| != |ids| {
      return Err(ProductsNotAccessible);
    }
    ProductCheckIff(db.products, ids, caller.firmId);
    var priced, totalAmount := PriceItems(input.items, db.products);
    db.billItems := WithoutBill(db.billItems, id);
    var bill := existing.(title := input.title,
                          customerName := Patched(existing.customerName, input.customerName),
                          customerPhone := Patched(existing.customerPhone, input.customerPhone),
                          totalAmount := totalAmount);
    db.bills := db.bills[id := bill];
    db.billItems := db.billItems + AttachBill(id, priced);
    return Ok(bill);
  }

  /** `deleteBill` on the database. */
  method DeleteBill(db: Database, user: Option<ContextUser>, id: string) returns (r: Result<bool, GraphQLError>)
    requires db.Valid()
    modifies db
    ensures (r, db.Snapshot()) == DeleteBillStep(old(db.Snapshot()), user, id)
    ensures db.Valid()
  {
    DeleteBillConsistent(db.Snapshot(), user, id);
    if user.None? {
      return Err(NotAuthenticatedError);
    }
    if id !in db.bills {
      return Err(BillNotFound);
    }
    if db.bills[id].firmId != user.value.firmId {
      return Err(Plain("Not authorized to delete this bill"));
    }
    db.billItems := WithoutBill(db.billItems, id);
    db.bills := db.bills - {id};
    return Ok(true);
  }
}
