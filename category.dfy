/** The category provider: fetches the category names once, turns each into a
    record with a 1-based id and a picture from a fixed table, and exposes the
    list with a loading flag. */
module CategoryContext {
  import opened Wrappers

  /** Picture for a category name that is not in the table. */
  const GenericImage: string := "https://cdn-icons-png.flaticon.com/512/1828/1828817.png"

  /** The fixed table from category name to picture. */
  const CategoryImages: map<string, string> := map[
    "smartphones" := "https://i.pinimg.com/736x/83/39/82/8339823656ee1fb3d5487e9ecd86c971.jpg",
    "laptops" := "https://i.pinimg.com/736x/ae/73/2e/ae732ecfef3e2a6c6d6d19b73d080ca6.jpg",
    "audio" := "https://i.pinimg.com/736x/1f/d1/6a/1fd16aaad2f9150a6425876d26ff4c06.jpg",
    "footwear" := "https://i.pinimg.com/1200x/ab/94/77/ab9477826708ce854e4e5b08cc7df193.jpg",
    "gaming" := "https://i.pinimg.com/474x/c1/f6/5d/c1f65d71c68a5191d7280a50fff4cdc9.jpg",
    "televisions" := "https://i.pinimg.com/1200x/70/db/b7/70dbb78aa32eaddd440250833661b086.jpg",
    "home-appliances" := "https://i.pinimg.com/736x/9c/9c/9a/9c9c9af5b47d23db3ee71fbc32575dd3.jpg",
    "cameras" := "https://i.pinimg.com/736x/8b/6b/3d/8b6b3d9602fa5c34422d4bf4f78a8989.jpg"
  ]

  /** A category as the screens see it. */
  datatype Category = Category(id: int, name: string, image: string)

  /** `CATEGORY_IMAGES[name] || generic`: the table's picture for a listed
      name, the generic picture for any other name. */
  function ImageFor(name: string): (url: string)
    ensures name in CategoryImages ==> url == CategoryImages[name]
    ensures name !in CategoryImages ==> url == GenericImage
    ensures url != ""
  {
    if name in CategoryImages && CategoryImages[name] != "" then CategoryImages[name] else GenericImage
  }

  /** The records for `names`, numbered from `first` on. */
  function FormatFrom(names: seq<string>, first: int): (r: seq<Category>)
    ensures |r| == |names|
    ensures forall i :: 0 <= i < |r| ==> r[i] == Category(first + i, names[i], ImageFor(names[i]))
  {
    if names == [] then []
    else [Category(first, names[0], ImageFor(names[0]))] + FormatFrom(names[1..], first + 1)
  }

  /** The `formatted` list of `fetchCategories`: one record per name, in order,
      the record at position i having id i + 1, the name unchanged and the
      name's picture. */
  function Format(names: seq<string>): (r: seq<Category>)
    ensures |r| == |names|
    ensures forall i :: 0 <= i < |r| ==> r[i].id == i + 1 && r[i].name == names[i]
    ensures forall i :: 0 <= i < |r| ==> r[i].image == ImageFor(names[i])
  {
    FormatFrom(names, 1)
  }

  /** The names of a list of records, in order. */
  function Names(cs: seq<Category>): (ns: seq<string>)
    ensures |ns| == |cs|
  {
    if cs == [] then [] else [cs[0].name] + Names(cs[1..])
  }

  /** Formatting loses no name and reorders none: reading the names back gives
      the fetched list. */
  lemma {:induction false} FormatFromKeepsNames(names: seq<string>, first: int)
    ensures Names(FormatFrom(names, first)) == names
  {
    if names != [] {
      FormatFromKeepsNames(names[1..], first + 1);
    }
  }

  /** The formatted list read back by name is the fetched list. */
  lemma FormatKeepsNames(names: seq<string>)
    ensures Names(Format(names)) == names
  {
    FormatFromKeepsNames(names, 1);
  }

  /** The ids of a list of records, in order. */
  function Ids(cs: seq<Category>): (ids: seq<int>)
    ensures |ids| == |cs|
  {
    if cs == [] then [] else [cs[0].id] + Ids(cs[1..])
  }

  /** The integers lo, lo + 1, ..., hi - 1. */
  function Range(lo: int, hi: int): (r: seq<int>)
    decreases hi - lo
  {
    if lo >= hi then [] else [lo] + Range(lo + 1, hi)
  }

  /** Records numbered from `first` carry the consecutive ids
      first, first + 1, ..., first + |names| - 1. */
  lemma {:induction false} FormatFromIds(names: seq<string>, first: int)
    ensures Ids(FormatFrom(names, first)) == Range(first, first + |names|)
  {
    if names != [] {
      FormatFromIds(names[1..], first + 1);
    }
  }

  /** The ids of the formatted list are exactly 1, 2, ..., n in order. */
  lemma FormatIds(names: seq<string>)
    ensures Ids(Format(names)) == Range(1, |names| + 1)
  {
    FormatFromIds(names, 1);
  }

  /** Two fetched names, both in the table, become ids 1 and 2 with their
      table pictures. */
  lemma FormatTwoKnownNames()
    ensures Format(["smartphones", "gaming"]) == [
      Category(1, "smartphones", CategoryImages["smartphones"]),
      Category(2, "gaming", CategoryImages["gaming"])]
  {
  }

  /** The provider's two state fields; `names` is the fetched list the shown
      categories were formatted from (empty before a successful fetch). */
  class Provider {
    var categories: seq<Category>
    var loading: bool
    ghost var names: seq<string>

    ghost predicate Valid()
      reads this
    {
      categories == Format(names)
    }

    /** `useState([])` and `useState(true)`. */
    constructor ()
      ensures Valid()
      ensures categories == [] && loading
    {
      categories := [];
      loading := true;
      names := [];
    }

    /** `fetchCategories`: on a fulfilled request the formatted list replaces
        the categories; on a rejection the catch only logs, so the categories
        stay as they were; in both cases the finally block clears `loading`. */
    method FetchCategories(response: Response<seq<string>>)
      requires Valid()
      modifies this
      ensures Valid()
      ensures !loading
      ensures response.Fulfilled? ==> categories == Format(response.payload)
      ensures response.Rejected? ==> categories == old(categories)
    {
      match response {
        case Fulfilled(data) =>
          var formatted := Format(data);
          categories := formatted;
          names := data;
        case Rejected =>
      }
      loading := false;
    }

    /** Whatever the provider exposes is numbered 1..n in order and carries the
        fetched names unchanged. */
    lemma ExposedCategoriesNumbered()
      requires Valid()
      ensures Ids(categories) == Range(1, |categories| + 1)
      ensures Names(categories) == names
    {
      FormatIds(names);
      FormatKeepsNames(names);
    }
  }
}
