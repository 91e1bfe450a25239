/**
 * The shop's `Product` model: its categories, kept as one comma-joined text
 * column, and its metadata, kept as JSON text. The getters fall back to an
 * empty list or dict instead of raising.
 */
module Product {
  import opened Wrappers
  import opened JsonData
  import opened Text

  /**
   * `get_categories` on a stored value (`None` standing for Python's `None`):
   * an empty or missing value gives `[]`, anything else its comma-separated parts.
   */
  function ParseCategories(stored: Option<string>): (parts: seq<string>)
    ensures stored.None? || stored == Some("") ==> parts == []
    ensures stored.Some? && stored.value != "" ==> |parts| == Count(stored.value, ',') + 1
    ensures stored.Some? && stored.value != "" ==> Join(parts, ',') == stored.value
  {
    match stored
    case None => []
    case Some(text) =>
      if text == "" then []
      else
        JoinSplit(text, ',');
        Split(text, ',')
  }

  /** `','.join(xs)` is empty only for `[]` and `['']`. */
  lemma JoinEmpty(xs: seq<string>)
    ensures Join(xs, ',') == "" <==> xs == [] || xs == [""]
  {
    if |xs| > 1 {
      assert Join(xs, ',')[|xs[0]|] == ',';
    }
  }

  /**
   * Setting then getting the categories gives them back, provided no category
   * holds a comma and the list is not `['']` (which reads back as `[]`).
   */
  lemma CategoriesRoundTrip(xs: seq<string>)
    requires forall i :: 0 <= i < |xs| ==> ',' !in xs[i]
    requires xs != [""]
    ensures ParseCategories(Some(Join(xs, ','))) == xs
  {
    JoinEmpty(xs);
    if xs != [] {
      SplitJoin(xs, ',');
    }
  }

  /** `['']` is the one comma-free list that does not survive the round trip. */
  lemma SingleEmptyCategoryLost()
    ensures ParseCategories(Some(Join([""], ','))) == []
  {
  }

  /**
   * `get_metadata` on a stored value: an empty or missing value, or text that
   * is not JSON, gives `{}`; `decode` stands for `json.loads`, and `None`
   * means its other exception (nesting too deep) escapes, as only
   * `JSONDecodeError` is caught.
   */
  function ParseMetadata(stored: Option<string>, decode: string -> Loaded): (r: Option<Json>)
    ensures stored.None? || stored == Some("") ==> r == Some(JObject([]))
    ensures r.None? <==> stored.Some? && stored.value != "" && decode(stored.value).OtherError?
    ensures stored.Some? && stored.value != "" && decode(stored.value).DecodeError? ==> r == Some(JObject([]))
    ensures stored.Some? && stored.value != "" && decode(stored.value).Parsed? ==> r == Some(decode(stored.value).value)
  {
    match stored
    case None => Some(JObject([]))
    case Some(text) =>
      if text == "" then Some(JObject([]))
      else
        match decode(text)
        case Parsed(v) => Some(v)
        case DecodeError => Some(JObject([]))
        case OtherError => None
  }

  /**
   * Setting then getting the metadata gives it back whenever the JSON codec
   * round-trips it (`json.dumps` never yields empty text).
   */
  lemma MetadataRoundTrip(m: Json, encode: Json -> string, decode: string -> Loaded)
    requires encode(m) != "" && decode(encode(m)) == Parsed(m)
    ensures ParseMetadata(Some(encode(m)), decode) == Some(m)
  {
  }

  /** A product row. `price` is a decimal kept as it is; `created_at` is not modelled. */
  class Product {
    var name: string
    var description: string
    var price: real
    var stock: int
    var categories: Option<string>
    var metadata: Option<string>

    /** `Product(name=..., description=..., price=..., stock=...)`: no categories, no metadata. */
    constructor(name: string, description: string, price: real, stock: int)
      ensures this.name == name && this.description == description && this.price == price && this.stock == stock
      ensures categories == Some("") && metadata.None?
      ensures GetCategories() == [] && forall decode: string -> Loaded :: GetMetadata(decode) == Some(JObject([]))
    {
      this.name := name;
      this.description := description;
      this.price := price;
      this.stock := stock;
      categories := Some("");
      metadata := None;
    }

    /** `__str__`: the product's name. */
    function ToString(): (r: string)
      reads this
      ensures r == name
    {
      name
    }

    /** `get_categories()`. */
    function GetCategories(): seq<string>
      reads this
    {
      ParseCategories(categories)
    }

    /** `set_categories(xs)`: stores the categories joined with commas; nothing else changes. */
    method SetCategories(xs: seq<string>)
      modifies this
      ensures categories == Some(Join(xs, ','))
      ensures name == old(name) && description == old(description) && price == old(price)
      ensures stock == old(stock) && metadata == old(metadata)
      ensures (forall i :: 0 <= i < |xs| ==> ',' !in xs[i]) && xs != [""] ==> GetCategories() == xs
    {
      categories := Some(Join(xs, ','));
      if (forall i :: 0 <= i < |xs| ==> ',' !in xs[i]) && xs != [""] {
        CategoriesRoundTrip(xs);
      }
    }

    /** `get_metadata()`. */
    function GetMetadata(decode: string -> Loaded): Option<Json>
      reads this
    {
      ParseMetadata(metadata, decode)
    }

    /** `set_metadata(m)`: stores the encoded dict; nothing else changes. */
    method SetMetadata(m: Json, encode: Json -> string)
      modifies this
      ensures metadata == Some(encode(m))
      ensures name == old(name) && description == old(description) && price == old(price)
      ensures stock == old(stock) && categories == old(categories)
    {
      metadata := Some(encode(m));
    }
  }
}
