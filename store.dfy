/**
 * The database the resolvers read and write: firms, users, products, bills and
 * bill items. Tables of records with an id are maps keyed by that id; bill items
 * are kept as the sequence of rows in insertion order (their own ids are not
 * modelled). Timestamps and fresh ids are supplied by the caller.
 */
module Store {
  import opened Wrappers

  const Admin := "ADMIN"
  const Staff := "STAFF"

  /** `address` and `phone` are optional at sign-up and stored as given. */
  datatype Firm = Firm(id: string, name: string, email: string, address: Option<string>, phone: Option<string>, createdAt: int)

  /** `password` holds the stored hash. */
  datatype User = User(id: string, name: string, email: string, password: string, role: string, firmId: string, createdAt: int)

  /** `price` in minor currency units. */
  datatype Product = Product(id: string, name: string, price: int, firmId: string, createdAt: int)

  datatype Bill = Bill(
    id: string, title: string, customerName: Option<string>, customerPhone: Option<string>,
    totalAmount: int, userId: string, firmId: string, createdAt: int)

  /** One line of a bill: the product's price at the time of billing, not a reference to it. */
  datatype BillItem = BillItem(billId: string, productId: string, quantity: int, price: int, total: int)

  /** The contents of every table at one moment. */
  datatype Tables = Tables(
    firms: map<string, Firm>,
    users: map<string, User>,
    products: map<string, Product>,
    bills: map<string, Bill>,
    billItems: seq<BillItem>)

  const EmptyTables := Tables(map[], map[], map[], map[], [])

  /** The rows of bill `billId`, in table order (`where: { billId }`). */
  function ItemsOf(items: seq<BillItem>, billId: string): (r: seq<BillItem>)
    ensures |r| <= |items|
    ensures forall i | 0 <= i < |r| :: r[i].billId == billId
  {
    if items == [] then []
    else if items[0].billId == billId then [items[0]] + ItemsOf(items[1..], billId)
    else ItemsOf(items[1..], billId)
  }

  /** The table after `billItem.deleteMany({ where: { billId } })`. */
  function WithoutBill(items: seq<BillItem>, billId: string): (r: seq<BillItem>)
    ensures |r| <= |items|
    ensures forall i | 0 <= i < |r| :: r[i].billId != billId
  {
    if items == [] then []
    else if items[0].billId == billId then WithoutBill(items[1..], billId)
    else [items[0]] + WithoutBill(items[1..], billId)
  }

  /** The sum of the totals of some rows. */
  function TotalOf(items: seq<BillItem>): int {
    if items == [] then 0 else items[0].total + TotalOf(items[1..])
  }

  /** Every row belongs to a stored bill, every row's total is its price times
      its quantity, and every bill's amount is the sum of its rows' totals. */
  predicate TotalsConsistent(bills: map<string, Bill>, items: seq<BillItem>) {
    && (forall i | 0 <= i < |items| :: items[i].billId in bills && items[i].total == items[i].price * items[i].quantity)
    && (forall id | id in bills :: bills[id].totalAmount == TotalOf(ItemsOf(items, id)))
  }

  predicate UserEmailsUnique(users: map<string, User>) {
    forall a, b | a in users && b in users && users[a].email == users[b].email :: a == b
  }

  predicate FirmEmailsUnique(firms: map<string, Firm>) {
    forall a, b | a in firms && b in firms && firms[a].email == firms[b].email :: a == b
  }

  /** What the database keeps true: each record sits under its own id, the
      unique e-mail columns are unique, and the bill totals add up. */
  predicate Consistent(t: Tables) {
    && (forall k | k in t.firms :: t.firms[k].id == k)
    && (forall k | k in t.users :: t.users[k].id == k)
    && (forall k | k in t.products :: t.products[k].id == k)
    && (forall k | k in t.bills :: t.bills[k].id == k)
    && UserEmailsUnique(t.users)
    && FirmEmailsUnique(t.firms)
    && TotalsConsistent(t.bills, t.billItems)
  }

  /** The stored role of every user, by id: what the `hasRole` gate consults. */
  function RoleMap(users: map<string, User>): (roles: map<string, string>)
    ensures roles.Keys == users.Keys
    ensures forall id | id in users :: roles[id] == users[id].role
  {
    map id | id in users :: users[id].role
  }

  /** The Prisma client: one field per table. */
  class Database {
    var firms: map<string, Firm>
    var users: map<string, User>
    var products: map<string, Product>
    var bills: map<string, Bill>
    var billItems: seq<BillItem>

    constructor ()
      ensures Snapshot() == EmptyTables && Valid()
    {
      EmptyConsistent();
      firms, users, products, bills, billItems := map[], map[], map[], map[], [];
    }

    function Snapshot(): Tables
      reads this
    {
      Tables(firms, users, products, bills, billItems)
    }

    predicate Valid()
      reads this
    {
      Consistent(Snapshot())
    }
  }

  /** The empty database is consistent. */
  lemma EmptyConsistent()
    ensures Consistent(EmptyTables)
  {
  }

  lemma {:induction false} TotalOfAppend(xs: seq<BillItem>, ys: seq<BillItem>)
    ensures TotalOf(xs + ys) == TotalOf(xs) + TotalOf(ys)
  {
    if xs == [] {
      assert xs + ys == ys;
    } else {
      assert (xs + ys)[1..] == xs[1..] + ys;
      TotalOfAppend(xs[1..], ys);
    }
  }

  lemma {:induction false} ItemsOfAppend(xs: seq<BillItem>, ys: seq<BillItem>, billId: string)
    ensures ItemsOf(xs + ys, billId) == ItemsOf(xs, billId) + ItemsOf(ys, billId)
  {
    if xs == [] {
      assert xs + ys == ys;
    } else {
      assert (xs + ys)[1..] == xs[1..] + ys;
      ItemsOfAppend(xs[1..], ys, billId);
    }
  }

  lemma {:induction false} WithoutBillAppend(xs: seq<BillItem>, ys: seq<BillItem>, billId: string)
    ensures WithoutBill(xs + ys, billId) == WithoutBill(xs, billId) + WithoutBill(ys, billId)
  {
    if xs == [] {
      assert xs + ys == ys;
    } else {
      assert (xs + ys)[1..] == xs[1..] + ys;
      WithoutBillAppend(xs[1..], ys, billId);
    }
  }

  /** Rows all of one bill are exactly that bill's rows; rows of no bill `b` give
      `b` nothing. */
  lemma {:induction false} ItemsOfUniform(items: seq<BillItem>, billId: string, other: string)
    requires forall i | 0 <= i < |items| :: items[i].billId == billId
    requires other != billId
    ensures ItemsOf(items, billId) == items
    ensures ItemsOf(items, other) == []
  {
    if items != [] {
      ItemsOfUniform(items[1..], billId, other);
    }
  }

  /** A bill no row refers to has no rows. */
  lemma {:induction false} ItemsOfAbsent(items: seq<BillItem>, billId: string)
    requires forall i | 0 <= i < |items| :: items[i].billId != billId
    ensures ItemsOf(items, billId) == []
  {
    if items != [] {
      ItemsOfAbsent(items[1..], billId);
    }
  }

  /** Removing one bill's rows leaves it none and leaves every other bill's rows as they were. */
  lemma {:induction false} WithoutBillEffect(items: seq<BillItem>, billId: string, other: string)
    requires other != billId
    ensures ItemsOf(WithoutBill(items, billId), billId) == []
    ensures ItemsOf(WithoutBill(items, billId), other) == ItemsOf(items, other)
  {
    if items != [] {
      WithoutBillEffect(items[1..], billId, other);
    }
  }

  /** The removed rows and the kept rows together are the old table: a cascade
      deletes exactly the bill's rows. */
  lemma {:induction false} SplitByBill(items: seq<BillItem>, billId: string)
    ensures multiset(ItemsOf(items, billId)) + multiset(WithoutBill(items, billId)) == multiset(items)
  {
    if items != [] {
      var head, rest := items[0], items[1..];
      SplitByBill(rest, billId);
      var mine, others := ItemsOf(rest, billId), WithoutBill(rest, billId);
      assert multiset(items) == multiset{head} + multiset(rest) by {
        assert items == [head] + rest;
      }
      if head.billId == billId {
        assert ItemsOf(items, billId) == [head] + mine;
        assert multiset([head] + mine) == multiset{head} + multiset(mine);
        assert WithoutBill(items, billId) == others;
      } else {
        assert ItemsOf(items, billId) == mine;
        assert WithoutBill(items, billId) == [head] + others;
        assert multiset([head] + others) == multiset{head} + multiset(others);
      }
    }
  }
}
