/** The home-screen preview: products fetched once, grouped by category with
    at most two products kept per category, each shown with an image chosen
    by a three-tier fallback. */
module ElectronicsSection {
  import opened Wrappers

  /** Placeholder picture shown when a product has no usable image. */
  const Fallback: string := "https://cdn-icons-png.flaticon.com/512/869/869636.png"

  /** How many products of one category the preview keeps. */
  const PerCategory: nat := 2

  /** The fields of a server product that the preview reads. */
  datatype Product = Product(
    id: string,
    title: string,
    price: real,
    category: string,
    thumbnail: Option<string>,
    images: Option<seq<string>>)

  // ---------------------------------------------------------------------
  // Image fallback
  // ---------------------------------------------------------------------

  /** JavaScript truthiness of a possibly missing string: present and not empty. */
  predicate Usable(v: Option<string>) {
    v.Some? && v.value != ""
  }

  /** `v || other` for a possibly missing string `v`. */
  function OrElse(v: Option<string>, other: string): string {
    if Usable(v) then v.value else other
  }

  /** `images?.[0]`: missing when there is no gallery or the gallery is empty. */
  function FirstImage(p: Product): Option<string> {
    match p.images
    case Some(gallery) => if |gallery| > 0 then Some(gallery[0]) else None
    case None => None
  }

  /** The card's image URL: the thumbnail, else the first gallery image, else
      the placeholder. The result is never empty, so a card never shows a
      broken image. */
  function ImageUrl(p: Product): (url: string)
    ensures url != ""
    ensures Usable(p.thumbnail) ==> url == p.thumbnail.value
    ensures !Usable(p.thumbnail) && Usable(FirstImage(p)) ==> url == FirstImage(p).value
    ensures !Usable(p.thumbnail) && !Usable(FirstImage(p)) ==> url == Fallback
  {
    OrElse(p.thumbnail, OrElse(FirstImage(p), Fallback))
  }

  /** The image URL is always one of the three candidates. */
  lemma ImageUrlIsCandidate(p: Product)
    ensures ImageUrl(p) == Fallback
         || Some(ImageUrl(p)) == p.thumbnail
         || Some(ImageUrl(p)) == FirstImage(p)
  {
  }

  // ---------------------------------------------------------------------
  // Grouping: the specification
  // ---------------------------------------------------------------------

  /** The products of `ps` whose category is `c`, in input order. */
  function InCategory(ps: seq<Product>, c: string): (r: seq<Product>)
    ensures |r| <= |ps|
    ensures forall q :: q in r <==> q in ps && q.category == c
  {
    if ps == [] then []
    else
      var init, last := ps[..|ps| - 1], ps[|ps| - 1];
      assert ps == init + [last];
      InCategory(init, c) + (if last.category == c then [last] else [])
  }

  /** The categories that occur in `ps`. */
  function CategoriesOf(ps: seq<Product>): set<string> {
    set q | q in ps :: q.category
  }

  /** The first min(PerCategory, |s|) elements of `s`. */
  function Capped(s: seq<Product>): (r: seq<Product>)
    ensures |r| == if |s| < PerCategory then |s| else PerCategory
    ensures r <= s
  {
    if |s| <= PerCategory then s else s[..PerCategory]
  }

  /** What the preview holds for the product list `ps`: a key for every
      category in `ps`, each holding the first products of that category,
      in input order, up to the cap. */
  function Grouped(ps: seq<Product>): map<string, seq<Product>> {
    map c | c in CategoriesOf(ps) :: Capped(InCategory(ps, c))
  }

  // ---------------------------------------------------------------------
  // Grouping: the loop
  // ---------------------------------------------------------------------

  /** The callback of the `forEach` in `load`, applied to one product: create
      an empty list the first time its category is seen, then append the
      product while that list holds fewer than PerCategory products. The
      function AddToGroups states the same step as a value, so that the lemma
      GroupedSnoc can relate it to the reference grouping Grouped. */
  method AddProduct(m0: map<string, seq<Product>>, p: Product) returns (m: map<string, seq<Product>>)
    ensures m == AddToGroups(m0, p)
  {
    m := m0;
    if p.category !in m {
      m := m[p.category := []];
    }
    if |m[p.category]| < PerCategory {
      m := m[p.category := m[p.category] + [p]];
    }
  }

  /** The grouping of `load`: walk the products in order, applying the
      callback to each. */
  method GroupByCategory(products: seq<Product>) returns (m: map<string, seq<Product>>)
    ensures m.Keys == CategoriesOf(products)
    ensures forall c :: c in m ==> m[c] == Capped(InCategory(products, c))
  {
    m := map[];
    for i := 0 to |products|
      invariant m == Grouped(products[..i])
    {
      m := AddProduct(m, products[i]);
      GroupedSnoc(products[..i], products[i]);
      assert products[..i + 1] == products[..i] + [products[i]];
    }
    assert products[..|products|] == products;
  }

  // ---------------------------------------------------------------------
  // Grouping: lemmas
  // ---------------------------------------------------------------------

  /** Appending a product extends the list of its own category by it and
      leaves every other category's list as it was. */
  lemma InCategorySnoc(ps: seq<Product>, p: Product, d: string)
    ensures InCategory(ps + [p], d) == InCategory(ps, d) + (if p.category == d then [p] else [])
  {
  }

  /** Appending a product adds exactly its category to the categories seen. */
  lemma CategoriesSnoc(ps: seq<Product>, p: Product)
    ensures CategoriesOf(ps + [p]) == CategoriesOf(ps) + {p.category}
  {
  }

  /** A category that does not occur has no products. */
  lemma AbsentCategoryEmpty(ps: seq<Product>, c: string)
    requires c !in CategoriesOf(ps)
    ensures InCategory(ps, c) == []
  {
  }

  /** One step of the `forEach`: create the product's list if its category has
      none, then append the product while the list is below the cap. */
  function AddToGroups(g: map<string, seq<Product>>, p: Product): map<string, seq<Product>> {
    var cur := if p.category in g then g[p.category] else [];
    g[p.category := if |cur| < PerCategory then cur + [p] else cur]
  }

  /** Appending one product to the input only touches that product's
      category's entry, as one loop step does. */
  lemma GroupedSnoc(ps: seq<Product>, p: Product)
    ensures Grouped(ps + [p]) == AddToGroups(Grouped(ps), p)
  {
    var g, h := Grouped(ps), Grouped(ps + [p]);
    var rhs := AddToGroups(g, p);
    CategoriesSnoc(ps, p);
    assert h.Keys == rhs.Keys;
    forall d | d in h.Keys
      ensures h[d] == rhs[d]
    {
      GroupedSnocAt(ps, p, d);
    }
  }

  /** GroupedSnoc for one key. */
  lemma GroupedSnocAt(ps: seq<Product>, p: Product, d: string)
    requires d in CategoriesOf(ps + [p])
    ensures d in AddToGroups(Grouped(ps), p)
    ensures Grouped(ps + [p])[d] == AddToGroups(Grouped(ps), p)[d]
  {
    var g := Grouped(ps);
    CategoriesSnoc(ps, p);
    InCategorySnoc(ps, p, d);
    if d == p.category {
      if d !in g {
        AbsentCategoryEmpty(ps, d);
      }
      CappedSnoc(InCategory(ps, d), p);
    }
  }

  /** Capping a list extended by one element equals appending that element to
      the capped list when the capped list is still below the cap. */
  lemma CappedSnoc(s: seq<Product>, p: Product)
    ensures Capped(s + [p]) == if |Capped(s)| < PerCategory then Capped(s) + [p] else Capped(s)
  {
  }

  /** An empty product list yields an empty preview. */
  lemma GroupedEmpty()
    ensures Grouped([]) == map[]
  {
  }

  /** Every category of the input has a key, and every key holds at least one
      and at most PerCategory products. */
  lemma GroupedSize(ps: seq<Product>)
    ensures forall q :: q in ps ==> q.category in Grouped(ps)
    ensures forall c :: c in Grouped(ps) ==> 1 <= |Grouped(ps)[c]| <= PerCategory
  {
  }

  /** Every stored product comes from the input and is stored under its own
      category. */
  lemma GroupedSound(ps: seq<Product>)
    ensures forall c, q :: c in Grouped(ps) && q in Grouped(ps)[c] ==> q in ps && q.category == c
  {
  }

  /** The list under `c` is an in-order prefix of the products of category
      `c`, as long as the cap allows, and a product of category `c` is left
      out only when PerCategory products of that category were kept before it. */
  lemma GroupedPrefix(ps: seq<Product>, c: string)
    requires c in CategoriesOf(ps)
    ensures Grouped(ps)[c] <= InCategory(ps, c)
    ensures |InCategory(ps, c)| <= PerCategory ==> Grouped(ps)[c] == InCategory(ps, c)
    ensures |InCategory(ps, c)| > PerCategory ==> |Grouped(ps)[c]| == PerCategory
  {
  }

  // ---------------------------------------------------------------------
  // The component's state
  // ---------------------------------------------------------------------

  /** The component's two state fields. `loading` is true until `load` has
      stored the grouped map; `shown` is the product list that map was built
      from. */
  class Section {
    var grouped: map<string, seq<Product>>
    var loading: bool
    ghost var shown: seq<Product>

    ghost predicate Valid()
      reads this
    {
      && (loading ==> grouped == map[])
      && (!loading ==> grouped == Grouped(shown))
    }

    /** `useState({})` and `useState(true)`. */
    constructor ()
      ensures Valid()
      ensures grouped == map[] && loading
    {
      grouped := map[];
      loading := true;
      shown := [];
    }

    /** `load`: on a fulfilled request the grouped map is stored and only then
        `loading` is cleared; a rejected request is not caught, so neither
        setter runs and the spinner stays. */
    method Load(response: Response<seq<Product>>)
      requires Valid()
      modifies this
      ensures Valid()
      ensures response.Fulfilled? ==> grouped == Grouped(response.payload) && !loading
      ensures response.Fulfilled? ==> shown == response.payload
      ensures response.Rejected? ==> grouped == old(grouped) && loading == old(loading)
      ensures response.Rejected? ==> shown == old(shown)
    {
      match response {
        case Fulfilled(products) =>
          var m := GroupByCategory(products);
          assert m == Grouped(products);
          grouped := m;
          shown := products;
          loading := false;
        case Rejected =>
      }
    }

    /** Once loading is over, every category the preview shows holds one or two
        products, all of them from the fetched list and of that category. */
    lemma LoadedPreviewCapped()
      requires Valid() && !loading
      ensures forall c :: c in grouped ==> 1 <= |grouped[c]| <= PerCategory
      ensures forall c, q :: c in grouped && q in grouped[c] ==> q in shown && q.category == c
    {
      GroupedSize(shown);
      GroupedSound(shown);
    }
  }
}
