/** The product catalog of the storefront: the product record, the category and gender
    enumerations, the category-filter bar and the constant list of products. */
module ProductsData {
  import opened Common

  /** The four real categories; the filter value "ALL" is not one of them. */
  datatype Category = TOPS | JACKETS | PANTS | ACCESSORIES

  /** A category-filter value: "ALL" or one category. */
  datatype CategoryFilterId = ALL | CategoryIs(category: Category)

  datatype Gender = MEN | WOMEN | UNISEX

  datatype SubCategory =
    | TEE | HOODIE | SWEATSHIRT | JACKET | COAT | PANTS_SUB | SOCKS | UNDERWEAR | CAP | OTHER

  datatype Tag = New | Soon | Limited

  /** A product. `ratingTenths` is the rating times ten (4.7 is 47), since the catalog only
      holds ratings with one decimal. */
  datatype Product = Product(
    id: string,
    name: string,
    price: int,
    category: Category,
    tag: Option<Tag>,
    gender: Gender,
    subCategory: SubCategory,
    ratingTenths: nat,
    reviewCount: nat,
    isPrimeEligible: Option<bool>)

  datatype CategoryFilter = CategoryFilter(id: CategoryFilterId, labelText: string)

  /** The category-filter bar: "ALL" first, then the four categories. */
  const CATEGORY_FILTERS: seq<CategoryFilter> := [
    CategoryFilter(ALL, "All"),
    CategoryFilter(CategoryIs(TOPS), "Tops"),
    CategoryFilter(CategoryIs(JACKETS), "Outer"),
    CategoryFilter(CategoryIs(PANTS), "Bottoms"),
    CategoryFilter(CategoryIs(ACCESSORIES), "Accessories")
  ]

  /** The catalog. */
  const PRODUCTS: seq<Product> := [
    // TOPS
    Product("era-essential-tee-white", "ERA Essential Tee / White", 8800, TOPS, Some(New), UNISEX, TEE, 47, 32, Some(true)),
    Product("era-essential-tee-black", "ERA Essential Tee / Black", 8800, TOPS, None, UNISEX, TEE, 49, 54, Some(true)),
    Product("era-heavy-hoodie-black", "ERA Heavy Hoodie / Black", 19800, TOPS, Some(Limited), UNISEX, HOODIE, 50, 18, Some(true)),
    Product("era-crew-sweat-grey", "ERA Crew Sweat / Grey", 17600, TOPS, None, UNISEX, SWEATSHIRT, 46, 21, Some(true)),
    // JACKETS
    Product("era-gabardine-trench-black", "ERA Gabardine Trench / Black", 132000, JACKETS, Some(Soon), MEN, COAT, 0, 0, Some(false)),
    Product("era-gabardine-trench-camel", "ERA Gabardine Trench / Camel", 132000, JACKETS, Some(Soon), WOMEN, COAT, 0, 0, Some(false)),
    // PANTS
    Product("era-wide-sweatpant-black", "ERA Wide Sweatpant / Black", 19800, PANTS, None, UNISEX, PANTS_SUB, 48, 27, Some(true)),
    Product("era-tailored-trouser-black", "ERA Tailored Trouser / Black", 27500, PANTS, None, MEN, PANTS_SUB, 45, 12, Some(true)),
    // SOCKS / UNDERWEAR
    Product("era-logo-socks-black", "ERA Logo Socks / Black", 2200, ACCESSORIES, Some(New), MEN, SOCKS, 49, 41, Some(true)),
    Product("era-logo-socks-white", "ERA Logo Socks / White", 2200, ACCESSORIES, None, WOMEN, SOCKS, 47, 23, Some(true)),
    Product("era-brief-black", "ERA Essential Brief / Black", 3300, ACCESSORIES, Some(New), MEN, UNDERWEAR, 48, 35, Some(true)),
    Product("era-bikini-brief-sand", "ERA Bikini Brief / Sand", 3300, ACCESSORIES, None, WOMEN, UNDERWEAR, 46, 19, Some(true)),
    // OTHER ACCESSORIES
    Product("era-cap-black-e", "ERA Cap / Black — E Symbol", 9900, ACCESSORIES, None, UNISEX, CAP, 49, 48, Some(true)),
    Product("era-leather-belt-black", "ERA Leather Belt / Black", 16500, ACCESSORIES, None, MEN, OTHER, 44, 9, Some(true))
  ]

  /** Every rating in the catalog lies between 0.0 and 5.0, and every price is positive. */
  lemma CatalogRatingsAndPrices()
    ensures forall p :: p in PRODUCTS ==> p.ratingTenths <= 50 && p.price > 0
  {
  }

  /** The filter bar starts with "ALL" and then names each category exactly once. */
  lemma CategoryFiltersShape()
    ensures |CATEGORY_FILTERS| == 5 && CATEGORY_FILTERS[0].id == ALL
    ensures forall c: Category :: exists k :: 1 <= k < |CATEGORY_FILTERS| && CATEGORY_FILTERS[k].id == CategoryIs(c)
    ensures forall j, k :: 1 <= j < k < |CATEGORY_FILTERS| ==> CATEGORY_FILTERS[j].id != CATEGORY_FILTERS[k].id
  {
    forall c: Category
      ensures exists k :: 1 <= k < |CATEGORY_FILTERS| && CATEGORY_FILTERS[k].id == CategoryIs(c)
    {
      var k := match c case TOPS => 1 case JACKETS => 2 case PANTS => 3 case ACCESSORIES => 4;
      assert CATEGORY_FILTERS[k].id == CategoryIs(c);
    }
  }
}
