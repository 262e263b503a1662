/**
 * The draft lines of a bill being composed on the client. Prices and
 * quantities are whole numbers here (amounts in the smallest currency unit);
 * an item's id is the decimal rendering of the clock reading at which it was
 * added, and the clock is a parameter.
 */
module UseBillItems {
  import opened Strings
  import Seqs

  datatype DraftItem = DraftItem(id: string, productId: string, productName: string, price: int, quantity: int, total: int)

  function ItemTotal(item: DraftItem): int {
    item.total
  }

  /** The item built by `addItem` at clock reading `now`. */
  function NewItem(productId: string, productName: string, price: int, quantity: int, now: int): DraftItem {
    DraftItem(IntToDecimal(now), productId, productName, price, quantity, price * quantity)
  }

  /** The predicate of `removeItem(id)`'s filter. */
  function KeepOther(id: string): DraftItem -> bool {
    (item: DraftItem) => item.id != id
  }

  /** `calculateTotal`: the sum of the item totals. */
  function CalculateTotal(items: seq<DraftItem>): int {
    Seqs.SumOf(ItemTotal, items)
  }

  /** The hook's state: the list of draft items. */
  class BillItems {
    var billItems: seq<DraftItem>

    constructor()
      ensures billItems == []
    {
      billItems := [];
    }

    /** `addItem`: one item at the end, the rest unchanged; the total grows by
        exactly `price * quantity`. */
    method AddItem(productId: string, productName: string, price: int, quantity: int, now: int)
      modifies this
      ensures billItems == old(billItems) + [NewItem(productId, productName, price, quantity, now)]
      ensures CalculateTotal(billItems) == CalculateTotal(old(billItems)) + price * quantity
    {
      var total := price * quantity;
      var newItem := DraftItem(IntToDecimal(now), productId, productName, price, quantity, total);
      AddRaisesTotal(billItems, newItem);
      billItems := billItems + [newItem];
    }

    /** `removeItem`: every item with that id goes, the others stay in order. */
    method RemoveItem(id: string)
      modifies this
      ensures billItems == Seqs.Filter(KeepOther(id), old(billItems))
      ensures forall i | 0 <= i < |billItems| :: billItems[i].id != id
      ensures (forall i | 0 <= i < |old(billItems)| :: old(billItems)[i].id != id) ==> billItems == old(billItems)
    {
      RemoveSpec(billItems, id);
      billItems := Seqs.Filter(KeepOther(id), billItems);
    }

    /** `clearAll`. */
    method ClearAll()
      modifies this
      ensures billItems == [] && CalculateTotal(billItems) == 0
    {
      billItems := [];
    }
  }

  /** Appending an item raises the total by that item's total, and the empty list totals 0. */
  lemma AddRaisesTotal(items: seq<DraftItem>, item: DraftItem)
    ensures CalculateTotal(items + [item]) == CalculateTotal(items) + item.total
    ensures CalculateTotal([]) == 0
  {
    Seqs.SumOfAppend(ItemTotal, items, [item]);
  }

  /** What `removeItem` keeps: an ordered sublist holding no item with the id
      and every item without it; an id no item has changes nothing. */
  lemma RemoveSpec(items: seq<DraftItem>, id: string)
    ensures var r := Seqs.Filter(KeepOther(id), items);
      && Seqs.IsSublist(r, items)
      && (forall i | 0 <= i < |r| :: r[i].id != id)
      && (forall i | 0 <= i < |items| && items[i].id != id :: items[i] in r)
      && ((forall i | 0 <= i < |items| :: items[i].id != id) ==> r == items)
  {
    Seqs.FilterIsSublist(KeepOther(id), items);
    if forall i | 0 <= i < |items| :: items[i].id != id {
      Seqs.FilterAll(KeepOther(id), items);
    }
  }

  /** Removing what was just added under a fresh id gives the list back. */
  lemma AddThenRemove(items: seq<DraftItem>, productId: string, productName: string, price: int, quantity: int, now: int)
    requires forall i | 0 <= i < |items| :: items[i].id != IntToDecimal(now)
    ensures var item := NewItem(productId, productName, price, quantity, now);
      Seqs.Filter(KeepOther(item.id), items + [item]) == items
  {
    var item := NewItem(productId, productName, price, quantity, now);
    Seqs.FilterAppend(KeepOther(item.id), items, [item]);
    Seqs.FilterAll(KeepOther(item.id), items);
    assert Seqs.Filter(KeepOther(item.id), [item]) == [];
  }

  /** Two items added at the same clock reading share an id, so removing one removes both. */
  lemma SameInstantRemovesBoth(items: seq<DraftItem>, p: string, n: string, price: int, quantity: int,
                               p2: string, n2: string, price2: int, quantity2: int, now: int)
    ensures var a := NewItem(p, n, price, quantity, now);
      var b := NewItem(p2, n2, price2, quantity2, now);
      Seqs.Filter(KeepOther(a.id), items + [a, b]) == Seqs.Filter(KeepOther(a.id), items)
  {
    var a := NewItem(p, n, price, quantity, now);
    var b := NewItem(p2, n2, price2, quantity2, now);
    Seqs.FilterAppend(KeepOther(a.id), items, [a, b]);
    assert Seqs.Filter(KeepOther(a.id), [a, b]) == [];
  }

  /** Removing an id lowers the total by exactly the totals of the items with that id. */
  lemma RemoveLowersTotal(items: seq<DraftItem>, id: string)
    ensures CalculateTotal(Seqs.Filter(KeepOther(id), items)) ==
            CalculateTotal(items) - Seqs.SumOf(ItemTotal, Seqs.Filter(Seqs.Not(KeepOther(id)), items))
  {
    Seqs.SumOfFilterSplit(ItemTotal, KeepOther(id), items);
  }
}
