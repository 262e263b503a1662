/**
 * The search boxes of the two bill lists: the STAFF member's own bills, and
 * the ADMIN's view of every bill of the firm. Both keep, in order, the bills
 * whose lower-cased id or customer name, or whose phone as stored, includes
 * the lower-cased query; the ADMIN's also looks at the creator's name and
 * e-mail.
 */
module ListedBills {
  import opened Wrappers
  import opened Strings

  /** The fields of a listed bill the pages read. */
  datatype ListedBill = ListedBill(
    id: string, customerName: Option<string>, customerPhone: Option<string>,
    totalAmount: int, creatorName: string, creatorEmail: string)

  function TotalAmount(bill: ListedBill): int {
    bill.totalAmount
  }

  /** `t` occurs somewhere in `s`. */
  ghost predicate Occurs(s: string, t: string) {
    exists i :: OccursAt(s, t, i)
  }

  /** `field?.includes(query)` on an optional field, read off directly. */
  ghost predicate OccursIn(field: Option<string>, query: string) {
    field.Some? && Occurs(field.value, query)
  }
}

module StaffBillsList {
  import opened Wrappers
  import opened Strings
  import opened ListedBills
  import Seqs

  /** The predicate of `filteredBills`. The phone is compared as stored, not lower-cased. */
  function Matches(searchQuery: string): ListedBill -> bool {
    var query := ToLower(searchQuery);
    (bill: ListedBill) =>
      Contains(ToLower(bill.id), query) ||
      (bill.customerName.Some? && Contains(ToLower(bill.customerName.value), query)) ||
      (bill.customerPhone.Some? && Contains(bill.customerPhone.value, query))
  }

  /** `filteredBills`. */
  function FilteredBills(bills: seq<ListedBill>, searchQuery: string): seq<ListedBill> {
    Seqs.Filter(Matches(searchQuery), bills)
  }

  /** Which bills the search means to keep. */
  ghost predicate Mentions(bill: ListedBill, searchQuery: string) {
    var q := ToLower(searchQuery);
    Occurs(ToLower(bill.id), q) ||
    (bill.customerName.Some? && Occurs(ToLower(bill.customerName.value), q)) ||
    OccursIn(bill.customerPhone, q)
  }

  lemma MatchesIffMentions(bill: ListedBill, searchQuery: string)
    ensures Matches(searchQuery)(bill) <==> Mentions(bill, searchQuery)
  {
    var q := ToLower(searchQuery);
    ContainsIff(ToLower(bill.id), q);
    if bill.customerName.Some? {
      ContainsIff(ToLower(bill.customerName.value), q);
    }
    if bill.customerPhone.Some? {
      ContainsIff(bill.customerPhone.value, q);
    }
  }

  /** The list shows, in their original order, exactly the bills that mention the query. */
  lemma FilteredBillsSpec(bills: seq<ListedBill>, searchQuery: string)
    ensures var r := FilteredBills(bills, searchQuery);
      && Seqs.IsSublist(r, bills)
      && (forall i | 0 <= i < |r| :: Mentions(r[i], searchQuery))
      && (forall i | 0 <= i < |bills| && Mentions(bills[i], searchQuery) :: bills[i] in r)
  {
    var r := FilteredBills(bills, searchQuery);
    Seqs.FilterIsSublist(Matches(searchQuery), bills);
    forall i | 0 <= i < |r| ensures Mentions(r[i], searchQuery) {
      MatchesIffMentions(r[i], searchQuery);
    }
    forall i | 0 <= i < |bills| && Mentions(bills[i], searchQuery) ensures bills[i] in r {
      MatchesIffMentions(bills[i], searchQuery);
    }
  }

  /** An empty search box shows every bill. */
  lemma EmptyQueryKeepsAll(bills: seq<ListedBill>)
    ensures FilteredBills(bills, "") == bills
  {
    forall i | 0 <= i < |bills| ensures Matches("")(bills[i]) {
      ContainsEmpty(ToLower(bills[i].id));
    }
    Seqs.FilterAll(Matches(""), bills);
  }

  /** "Showing X of Y": X never exceeds Y, and the shown total plus the total of
      the hidden bills is the total of all the bills. */
  lemma SummarySpec(bills: seq<ListedBill>, searchQuery: string)
    ensures |FilteredBills(bills, searchQuery)| <= |bills|
    ensures Seqs.SumOf(TotalAmount, FilteredBills(bills, searchQuery)) +
            Seqs.SumOf(TotalAmount, Seqs.Filter(Seqs.Not(Matches(searchQuery)), bills)) ==
            Seqs.SumOf(TotalAmount, bills)
  {
    Seqs.SumOfFilterSplit(TotalAmount, Matches(searchQuery), bills);
  }
}

module AdminBillsList {
  import opened Wrappers
  import opened Strings
  import opened ListedBills
  import Seqs
  import StaffBillsList

  /** The predicate of `filteredBills`: the STAFF fields, then the creator's name and e-mail. */
  function Matches(searchQuery: string): ListedBill -> bool {
    var query := ToLower(searchQuery);
    (bill: ListedBill) =>
      Contains(ToLower(bill.id), query) ||
      (bill.customerName.Some? && Contains(ToLower(bill.customerName.value), query)) ||
      (bill.customerPhone.Some? && Contains(bill.customerPhone.value, query)) ||
      Contains(ToLower(bill.creatorName), query) ||
      Contains(ToLower(bill.creatorEmail), query)
  }

  /** `filteredBills`. */
  function FilteredBills(bills: seq<ListedBill>, searchQuery: string): seq<ListedBill> {
    Seqs.Filter(Matches(searchQuery), bills)
  }

  /** Which bills the search means to keep. */
  ghost predicate Mentions(bill: ListedBill, searchQuery: string) {
    var q := ToLower(searchQuery);
    StaffBillsList.Mentions(bill, searchQuery) ||
    Occurs(ToLower(bill.creatorName), q) || Occurs(ToLower(bill.creatorEmail), q)
  }

  lemma MatchesIffMentions(bill: ListedBill, searchQuery: string)
    ensures Matches(searchQuery)(bill) <==> Mentions(bill, searchQuery)
  {
    var q := ToLower(searchQuery);
    StaffBillsList.MatchesIffMentions(bill, searchQuery);
    ContainsIff(ToLower(bill.creatorName), q);
    ContainsIff(ToLower(bill.creatorEmail), q);
  }

  /** The list shows, in their original order, exactly the bills that mention the query. */
  lemma FilteredBillsSpec(bills: seq<ListedBill>, searchQuery: string)
    ensures var r := FilteredBills(bills, searchQuery);
      && Seqs.IsSublist(r, bills)
      && |r| <= |bills|
      && (forall i | 0 <= i < |r| :: Mentions(r[i], searchQuery))
      && (forall i | 0 <= i < |bills| && Mentions(bills[i], searchQuery) :: bills[i] in r)
  {
    var r := FilteredBills(bills, searchQuery);
    Seqs.FilterIsSublist(Matches(searchQuery), bills);
    forall i | 0 <= i < |r| ensures Mentions(r[i], searchQuery) {
      MatchesIffMentions(r[i], searchQuery);
    }
    forall i | 0 <= i < |bills| && Mentions(bills[i], searchQuery) ensures bills[i] in r {
      MatchesIffMentions(bills[i], searchQuery);
    }
  }

  /** An empty search box shows every bill: the STAFF search already keeps them
      all, and the ADMIN search keeps at least as much, in order. */
  lemma EmptyQueryKeepsAll(bills: seq<ListedBill>)
    ensures FilteredBills(bills, "") == bills
  {
    var shown := FilteredBills(bills, "");
    StaffBillsList.EmptyQueryKeepsAll(bills);
    AdminFindsMore(bills, "");
    Seqs.FilterIsSublist(Matches(""), bills);
    Seqs.SublistLength(bills, shown);
    Seqs.SublistLength(shown, bills);
  }

  /** On the same bills and query, the ADMIN's search keeps everything the
      STAFF search keeps, in the same order. */
  lemma AdminFindsMore(bills: seq<ListedBill>, searchQuery: string)
    ensures Seqs.IsSublist(StaffBillsList.FilteredBills(bills, searchQuery), FilteredBills(bills, searchQuery))
  {
    Seqs.FilterMonotone(StaffBillsList.Matches(searchQuery), Matches(searchQuery), bills);
  }
}
