/**
 * The product picker of the bill form: a text box whose dropdown lists the
 * catalogue entries whose name includes the typed text, case-insensitively,
 * and which reports a custom product when nothing matches.
 */
module ProductSearchInput {
  import opened Strings
  import Seqs

  datatype SearchProduct = SearchProduct(id: string, name: string, price: int)

  /** The predicate of `filteredProducts` and of `hasMatch`. */
  function NameIncludes(value: string): SearchProduct -> bool {
    var query := ToLower(value);
    (product: SearchProduct) => Contains(ToLower(product.name), query)
  }

  /** `filteredProducts`. */
  function FilteredProducts(products: seq<SearchProduct>, value: string): seq<SearchProduct> {
    Seqs.Filter(NameIncludes(value), products)
  }

  /** `products.some(...)`. */
  function HasMatch(products: seq<SearchProduct>, value: string): (r: bool)
    ensures r <==> exists i | 0 <= i < |products| :: NameIncludes(value)(products[i])
  {
    if products == [] then false
    else NameIncludes(value)(products[0]) || HasMatch(products[1..], value)
  }

  /** Some product matches exactly when the filtered list is not empty. */
  lemma HasMatchIffFiltered(products: seq<SearchProduct>, value: string)
    ensures HasMatch(products, value) <==> |FilteredProducts(products, value)| > 0
  {
  }

  /** The filtered list is the ordered sublist of matching products; an empty
      value keeps them all. */
  lemma FilteredProductsSpec(products: seq<SearchProduct>, value: string)
    ensures var r := FilteredProducts(products, value);
      && Seqs.IsSublist(r, products)
      && (forall i | 0 <= i < |r| :: Contains(ToLower(r[i].name), ToLower(value)))
      && (forall i | 0 <= i < |products| && Contains(ToLower(products[i].name), ToLower(value)) :: products[i] in r)
    ensures FilteredProducts(products, "") == products
  {
    Seqs.FilterIsSublist(NameIncludes(value), products);
    forall i | 0 <= i < |products| ensures NameIncludes("")(products[i]) {
      ContainsEmpty(ToLower(products[i].name));
    }
    Seqs.FilterAll(NameIncludes(""), products);
  }

  /** The component's own state: whether the dropdown is open. */
  class SearchInput {
    var showDropdown: bool

    constructor()
      ensures !showDropdown
    {
      showDropdown := false;
    }

    /** The results list is on screen. */
    predicate ShowsResults(products: seq<SearchProduct>, value: string)
      reads this
    {
      showDropdown && value != "" && |FilteredProducts(products, value)| > 0
    }

    /** The "No products found" message is on screen. */
    predicate ShowsNoProducts(products: seq<SearchProduct>, value: string)
      reads this
    {
      showDropdown && value != "" && |FilteredProducts(products, value)| == 0
    }

    /** `handleChange`: forwards the new text, opens the dropdown, and reports
        a custom product exactly when no name includes the text and the text
        is not blank. */
    method HandleChange(products: seq<SearchProduct>, newValue: string) returns (forwarded: string, customProduct: bool)
      modifies this
      ensures forwarded == newValue && showDropdown
      ensures customProduct <==>
        (forall i | 0 <= i < |products| :: !Contains(ToLower(products[i].name), ToLower(newValue))) && !IsBlank(newValue)
    {
      forwarded := newValue;
      showDropdown := true;
      var hasMatch := HasMatch(products, newValue);
      var blank := TrimIsEmpty(newValue);
      customProduct := !hasMatch && !blank;
    }

    /** `handleSelect`: forwards the chosen product and closes the dropdown. */
    method HandleSelect(product: SearchProduct) returns (selected: SearchProduct)
      modifies this
      ensures selected == product && !showDropdown
    {
      selected := product;
      showDropdown := false;
    }

    /** The box's `onFocus`: opens the dropdown. */
    method HandleFocus()
      modifies this
      ensures showDropdown
    {
      showDropdown := true;
    }
  }

  /** The results list and the "No products found" message are never both on screen. */
  lemma NeverBoth(input: SearchInput, products: seq<SearchProduct>, value: string)
    ensures !(input.ShowsResults(products, value) && input.ShowsNoProducts(products, value))
  {
  }

  /** Once the parent passes the new text back, a reported custom product
      comes with the "No products found" message and no results list. */
  lemma CustomProductShowsNoProducts(input: SearchInput, products: seq<SearchProduct>, value: string)
    requires input.showDropdown && !HasMatch(products, value) && !IsBlank(value)
    ensures input.ShowsNoProducts(products, value) && !input.ShowsResults(products, value)
  {
    HasMatchIffFiltered(products, value);
  }
}
