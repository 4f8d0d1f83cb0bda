# Storefront preview and category provider, in Dafny

This project models the two pieces of logic in a React Native storefront that
do more than fetch and render:

- **The electronics preview** (`components/ElectronicsSection.jsx`). It fetches
  a page of products once. It groups them by category, keeping at most the
  first two products of each category in arrival order. It shows each kept
  product with an image chosen by a three-tier fallback: thumbnail, then first
  gallery image, then a fixed placeholder. A `loading` flag hides the section
  until the grouped map is stored.
- **The category provider** (`app/context/Category.jsx`). It fetches the
  category names once and turns the name at position i into the record
  `{id: i + 1, name, image}`. The image comes from a fixed eight-entry table,
  with a generic picture for any other name. It exposes `categories` (initially
  empty) and `loading` (initially true). `categories` is replaced only on
  success, and the `finally` block always clears `loading`.

Files:

- `wrappers.dfy`: `Option` (a possibly missing field) and `Response` (how an
  awaited request settles: `Fulfilled(payload)` or `Rejected`).
- `electronics_section.dfy`, module `ElectronicsSection`. The reference
  function `Grouped` says what the preview holds for a product list: for each
  category in the list, the first `min(2, n)` products of that category. The
  method `GroupByCategory` is the `forEach` loop over a `map<string,
  seq<Product>>`, proved equal to `Grouped`. `ImageUrl` is the fallback
  expression. The class `Section` holds the component's `grouped` and
  `loading` state.
- `category.dfy`, module `CategoryContext`. The table `CategoryImages`, the
  lookup `ImageFor`, the formatting `Format`, and the class `Provider` with its
  `categories` and `loading` state.

The HTTP request is a parameter of type `Response`. A rejection covers both a
transport failure and an exception thrown while the payload is taken apart,
because both go down the same path in the source. JavaScript truthiness of a
possibly missing string is modelled as "present and not empty" (`Usable`).

All eight table pictures are non-empty. So `CATEGORY_IMAGES[name] || generic`
gives the table's picture exactly when the name is a table key. `ImageFor`
keeps the `||` test, and its contract states that consequence.

On failure the code keeps the previous value of `categories`. That value is
the initial empty list, because the fetch runs once. `Provider.FetchCategories`
keeps the previous value.

## Model

| member | source | states |
|---|---|---|
| `ElectronicsSection.ImageUrl` | components/ElectronicsSection.jsx:52-54 | The card image is the thumbnail when it is present and non-empty. Otherwise it is the first gallery image when that exists and is non-empty. Otherwise it is the placeholder. The result is never empty. |
| `ElectronicsSection.ImageUrlIsCandidate` | components/ElectronicsSection.jsx:52-54 | The card image is always the placeholder, the thumbnail or the first gallery image. |
| `ElectronicsSection.InCategory` | components/ElectronicsSection.jsx:27-29 | The products of one category, in input order: a product is in it exactly when it is in the input and has that category. |
| `ElectronicsSection.Capped` | components/ElectronicsSection.jsx:29 | The kept part of a list is a prefix of it, of length min(2, n). |
| `ElectronicsSection.AddProduct` | components/ElectronicsSection.jsx:27-30 | One callback of the `forEach` gives the product's category a key if it had none. It then appends the product only while that list holds fewer than 2 products, and touches no other key (`AddToGroups`). |
| `ElectronicsSection.GroupByCategory` | components/ElectronicsSection.jsx:26-30 | The loop's map has exactly the categories of the input as keys. Under each category it holds the first min(2, n) products of that category, in input order. |
| `ElectronicsSection.InCategorySnoc` | components/ElectronicsSection.jsx:29 | Processing one more product extends only its own category's list, by that product. |
| `ElectronicsSection.CategoriesSnoc` | components/ElectronicsSection.jsx:28 | Processing one more product adds exactly its category to the key set. |
| `ElectronicsSection.AbsentCategoryEmpty` | components/ElectronicsSection.jsx:28 | A category with no key yet has no products so far, so its list starts empty. |
| `ElectronicsSection.GroupedSnoc` | components/ElectronicsSection.jsx:27-29 | One callback step turns the grouping of a prefix of the input into the grouping of the prefix extended by one product. |
| `ElectronicsSection.GroupedSnocAt` | components/ElectronicsSection.jsx:28-29 | The single-key part of `GroupedSnoc`: after one more product, the list under any key equals what the callback step leaves under that key. |
| `ElectronicsSection.CappedSnoc` | components/ElectronicsSection.jsx:29 | Appending to a list below the cap extends the kept prefix. Appending to a full list leaves it unchanged. |
| `ElectronicsSection.GroupedEmpty` | components/ElectronicsSection.jsx:26-30 | An empty product list yields an empty map. |
| `ElectronicsSection.GroupedSize` | components/ElectronicsSection.jsx:28-29 | Every product's category gets a key, and every key holds at least 1 and at most 2 products. |
| `ElectronicsSection.GroupedSound` | components/ElectronicsSection.jsx:29 | Every stored product appears in the input and is stored under its own category. |
| `ElectronicsSection.GroupedPrefix` | components/ElectronicsSection.jsx:27-29 | The list under a category is a prefix of that category's products. It is all of them when there are at most 2, and exactly 2 otherwise. |
| `ElectronicsSection.Section.constructor` | components/ElectronicsSection.jsx:18-19 | The preview starts with an empty map and `loading` true. |
| `ElectronicsSection.Section.Load` | components/ElectronicsSection.jsx:22-34 | On success the map becomes the grouping of the fetched products, and only then is `loading` cleared. On a rejection nothing is caught, so the map and `loading` stay as they were. The product list the map was built from is recorded. |
| `ElectronicsSection.Section.LoadedPreviewCapped` | components/ElectronicsSection.jsx:32-33 | Once not loading, every shown category holds 1 or 2 products. All of them come from the fetched list and have that category. |
| `CategoryContext.ImageFor` | app/context/Category.jsx:32-34 | A name that is a key of the eight-entry table gets the table's picture. Any other name gets the generic picture. The result is never empty. |
| `CategoryContext.FormatFrom` | app/context/Category.jsx:29-35 | Records numbered from a start id: as many as names, and record i carries id start + i, name i and that name's picture. |
| `CategoryContext.Format` | app/context/Category.jsx:29-35 | The formatted list has the input's length. Record i has id i + 1, the input name at i unchanged, and that name's picture. |
| `CategoryContext.FormatFromKeepsNames` | app/context/Category.jsx:31 | Reading the names back from records numbered from any start gives the input names. |
| `CategoryContext.FormatKeepsNames` | app/context/Category.jsx:29-31 | Reading the names back from the formatted list gives the fetched names, in order. |
| `CategoryContext.FormatFromIds` | app/context/Category.jsx:29-30 | Records numbered from a start id carry the consecutive ids start, start + 1, and so on. |
| `CategoryContext.FormatIds` | app/context/Category.jsx:29-30 | The ids of the formatted list are exactly 1, 2, ..., n in order. |
| `CategoryContext.FormatTwoKnownNames` | app/context/Category.jsx:29-35 | `["smartphones", "gaming"]` becomes ids 1 and 2 with their table pictures. |
| `CategoryContext.Provider.constructor` | app/context/Category.jsx:21-22 | The provider starts with no categories and `loading` true. |
| `CategoryContext.Provider.FetchCategories` | app/context/Category.jsx:24-43 | Afterwards `loading` is false whether the fetch succeeded or failed. On success `categories` is the formatted list. On failure `categories` keeps its previous value. Nothing else changes. |
| `CategoryContext.Provider.ExposedCategoriesNumbered` | app/context/Category.jsx:37 | The exposed categories are always numbered 1..n in order and carry the fetched names unchanged. |

## Left out

- The HTTP requests and the API base URL. They are network I/O. The settled request is a `Response` parameter.
- Property lookup through `Object.prototype`. Keys such as `"constructor"` or `"toString"` would find inherited members in the grouping map and in the picture table. The model uses plain maps, with no inherited keys.
- Coercion of a non-string `category` to a property-name string (a missing category would become the key `"undefined"`). Categories are modelled as strings.
- Non-string thumbnails and gallery entries. Image fields are modelled as possibly missing strings.
- The order of `Object.keys` when the preview renders its groups. It is an engine detail of rendering order, not of the grouping.
- Rendering: JSX, styles, the spinner, the static quantity stepper fixed at 1, and the React hook lifecycle. `useEffect` runs each fetch once. The model's `Load` and `FetchCategories` may be called any number of times.
- `console.log` in the category provider's catch block. It is logging only.
- The session store, the flat product list, the product detail screen and the app layout are not part of this model.
