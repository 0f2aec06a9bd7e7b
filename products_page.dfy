/** The product-list page: the two chained filters (category, then gender) over the
    catalog, and the labels a product card shows. */
module ProductsPage {
  import opened Common
  import opened ProductsData

  /** A gender-filter value: "ALL" or one gender. */
  datatype GenderFilterId = ALL_GENDERS | GenderIs(gender: Gender)

  predicate InCategory(p: Product, filter: CategoryFilterId) {
    filter == ALL || p.category == filter.category
  }

  predicate OfGender(p: Product, filter: GenderFilterId) {
    filter == ALL_GENDERS || p.gender == filter.gender
  }

  /** `filteredProducts`: start from the whole list, filter by category unless it is "ALL",
      then by gender unless it is "ALL". */
  function FilteredProducts(products: seq<Product>, category: CategoryFilterId, gender: GenderFilterId): (r: seq<Product>)
    ensures forall p :: p in r <==> p in products && InCategory(p, category) && OfGender(p, gender)
  {
    var byCategory :=
      if category != ALL then Filter(products, (p: Product) => p.category == category.category)
      else products;
    if gender != ALL_GENDERS then Filter(byCategory, (p: Product) => p.gender == gender.gender)
    else byCategory
  }

  /** The list the page shows and whose length it displays as the item count. */
  function ShownProducts(category: CategoryFilterId, gender: GenderFilterId): seq<Product> {
    FilteredProducts(PRODUCTS, category, gender)
  }

  /** With both filters at "ALL" the page shows the whole catalog. */
  lemma BothAllShowsEverything(products: seq<Product>)
    ensures FilteredProducts(products, ALL, ALL_GENDERS) == products
  {
  }

  /** A category filter alone keeps exactly the products of that category, in catalog order. */
  lemma {:induction false} CategoryFilterExact(products: seq<Product>, c: Category)
    ensures FilteredProducts(products, CategoryIs(c), ALL_GENDERS) == Filter(products, (p: Product) => p.category == c)
    ensures forall p :: p in FilteredProducts(products, CategoryIs(c), ALL_GENDERS) <==> p in products && p.category == c
    ensures IsSubsequence(FilteredProducts(products, CategoryIs(c), ALL_GENDERS), products)
  {
    FilterIsSubsequence(products, (p: Product) => p.category == c);
  }

  /** A gender filter alone keeps exactly the products of that gender, in catalog order. */
  lemma {:induction false} GenderFilterExact(products: seq<Product>, g: Gender)
    ensures FilteredProducts(products, ALL, GenderIs(g)) == Filter(products, (p: Product) => p.gender == g)
    ensures forall p :: p in FilteredProducts(products, ALL, GenderIs(g)) <==> p in products && p.gender == g
    ensures IsSubsequence(FilteredProducts(products, ALL, GenderIs(g)), products)
  {
    FilterIsSubsequence(products, (p: Product) => p.gender == g);
  }

  /** Whatever the filters, the result is an order-preserving subsequence of the input, so the
      displayed count never exceeds the catalog size. */
  lemma {:induction false} FilteredIsSubsequence(products: seq<Product>, category: CategoryFilterId, gender: GenderFilterId)
    ensures IsSubsequence(FilteredProducts(products, category, gender), products)
    ensures |FilteredProducts(products, category, gender)| <= |products|
  {
    var byCategory :=
      if category != ALL then Filter(products, (p: Product) => p.category == category.category)
      else products;
    if category != ALL {
      FilterIsSubsequence(products, (p: Product) => p.category == category.category);
    } else {
      SubsequenceReflexive(products);
    }
    if gender != ALL_GENDERS {
      FilterIsSubsequence(byCategory, (p: Product) => p.gender == gender.gender);
      SubsequenceTransitive(FilteredProducts(products, category, gender), byCategory, products);
    }
  }

  // ---------------------------------------------------------------------------
  // Product card

  /** `categoryLabel` on a product card. The source's final "Item" branch is unreachable:
      a product's category is never "ALL". */
  function CategoryLabel(c: Category): string {
    match c
    case TOPS => "Tops"
    case JACKETS => "Outer"
    case PANTS => "Bottoms"
    case ACCESSORIES => "Accessory"
  }

  /** `genderLabel` on a product card: MEN and WOMEN by name, everything else "Unisex". */
  function GenderLabel(g: Gender): string {
    if g == MEN then "Men" else if g == WOMEN then "Women" else "Unisex"
  }

  /** `isSoon`: the product is tagged "Soon". */
  predicate IsSoon(p: Product) {
    p.tag == Some(Soon)
  }

  /** The text of the card's image placeholder. */
  function PlaceholderText(p: Product): (r: string)
    ensures r == "SOON" <==> IsSoon(p)
  {
    if IsSoon(p) then "SOON" else "ERA"
  }

  /** Different categories get different card labels, and the card label agrees with the
      filter bar's label for every category except ACCESSORIES ("Accessory" on the card,
      "Accessories" on the bar). */
  lemma CategoryLabelsDistinct(c1: Category, c2: Category)
    ensures CategoryLabel(c1) == CategoryLabel(c2) ==> c1 == c2
    ensures forall k :: 1 <= k < |CATEGORY_FILTERS| && CATEGORY_FILTERS[k].id == CategoryIs(c1) ==>
              (CATEGORY_FILTERS[k].labelText == CategoryLabel(c1) <==> c1 != ACCESSORIES)
  {
  }

  /** Different genders get different card labels, the same ones the gender-filter buttons show. */
  lemma GenderLabelsDistinct(g1: Gender, g2: Gender)
    ensures GenderLabel(g1) == GenderLabel(g2) ==> g1 == g2
    ensures GenderLabel(g1) in {"Men", "Women", "Unisex"}
  {
  }
}
