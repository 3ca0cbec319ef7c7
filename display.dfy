/**
 * The small display rules of the storefront's cards and category list:
 * the shortened card description, the category label, the fallback price
 * and the category chosen by a category button.
 */
module Display {
  import opened Wrappers

  const DescriptionLimit: nat := 100
  const Ellipsis: string := "..."
  const NoDescription: string := "No description available"
  const DefaultPrice: int := 500
  const FallbackPrefix: string := "Category "

  /**
   * A card's description: the first 100 characters and "..." when longer,
   * the description itself when it has 1 to 100 characters, and the
   * fallback text when it is missing or empty.
   */
  function ShortDescription(description: Option<string>): (r: string)
    ensures description.Some? && |description.value| > DescriptionLimit ==>
      && |r| == DescriptionLimit + |Ellipsis|
      && r[..DescriptionLimit] == description.value[..DescriptionLimit]
      && r[DescriptionLimit..] == Ellipsis
    ensures description.Some? && 0 < |description.value| <= DescriptionLimit ==> r == description.value
    ensures description.None? || description.value == [] ==> r == NoDescription
    ensures 0 < |r| <= DescriptionLimit + |Ellipsis|
  {
    if description.Some? && |description.value| > DescriptionLimit then
      description.value[..DescriptionLimit] + Ellipsis
    else if description.Some? && description.value != [] then
      description.value
    else
      NoDescription
  }

  /** The plant's price when it is present and non-zero (JavaScript truthiness), else 500. */
  function PriceOrDefault(price: Option<int>): (r: int)
    ensures r != 0
    ensures price.Some? && price.value != 0 ==> r == price.value
    ensures price.None? || price.value == 0 ==> r == DefaultPrice
  {
    if price.Some? && price.value != 0 then price.value else DefaultPrice
  }

  /** A category as the category list receives it: its id and, possibly, a name. */
  datatype Category = Category(id: int, name: Option<string>)

  /** The fixed id-to-name table of the ten known categories. */
  const CategoryNameMapping: map<int, string> := map[
    1 := "Fruit Trees",
    2 := "Flowering Trees",
    3 := "Shade Trees",
    4 := "Medicinal Trees",
    5 := "Timber Trees",
    6 := "Evergreen Trees",
    7 := "Ornamental Plants",
    8 := "Bamboo",
    9 := "Climbers",
    10 := "Aquatic Plants"
  ]

  /** The categories the page lists, supplied locally instead of by the remote catalog. */
  const PredefinedCategories: seq<Category> := [
    Category(1, Some("Fruit Trees")),
    Category(2, Some("Flowering Trees")),
    Category(3, Some("Shade Trees")),
    Category(4, Some("Medicinal Trees")),
    Category(5, Some("Timber Trees")),
    Category(6, Some("Evergreen Trees")),
    Category(7, Some("Ornamental Plants")),
    Category(8, Some("Bamboo")),
    Category(9, Some("Climbers")),
    Category(10, Some("Aquatic Plants"))
  ]

  /** The table covers exactly the ids 1 to 10, and every name in it is non-empty. */
  lemma MappingDomain(id: int)
    ensures id in CategoryNameMapping <==> 1 <= id <= 10
    ensures id in CategoryNameMapping ==> |CategoryNameMapping[id]| >= 2
    ensures id in CategoryNameMapping ==> !(CategoryNameMapping[id][0] == 'C' && CategoryNameMapping[id][1] == 'a')
  {
    if id == 1 {} else if id == 2 {} else if id == 3 {} else if id == 4 {} else if id == 5 {}
    else if id == 6 {} else if id == 7 {} else if id == 8 {} else if id == 9 {} else if id == 10 {}
  }

  /** The decimal digits of a natural number, most significant first. */
  function NatDigits(n: nat): (r: string)
    ensures r != []
    ensures forall i :: 0 <= i < |r| ==> '0' <= r[i] <= '9'
    decreases n
  {
    if n < 10 then [DigitChar(n)] else NatDigits(n / 10) + [DigitChar(n % 10)]
  }

  function DigitChar(d: nat): (c: char)
    requires d < 10
    ensures '0' <= c <= '9'
  {
    "0123456789"[d]
  }

  function DigitValue(c: char): nat {
    if '0' <= c <= '9' then (c as int - '0' as int) as nat else 0
  }

  /** Reads a string of decimal digits back as a number. */
  function ParseDigits(s: string): nat {
    if s == [] then 0 else 10 * ParseDigits(s[..|s| - 1]) + DigitValue(s[|s| - 1])
  }

  /** Number-to-text conversion of a JavaScript template literal, for integers. */
  function Decimal(i: int): (r: string)
    ensures r != []
  {
    if i < 0 then "-" + NatDigits(-i) else NatDigits(i)
  }

  /** The digits read back give the number they were written from. */
  lemma {:induction false} ParseNatDigits(n: nat)
    ensures ParseDigits(NatDigits(n)) == n
    decreases n
  {
    if n < 10 {
      assert DigitValue(DigitChar(n)) == n;
    } else {
      var s := NatDigits(n);
      assert s[..|s| - 1] == NatDigits(n / 10);
      ParseNatDigits(n / 10);
      assert DigitValue(DigitChar(n % 10)) == n % 10;
    }
  }

  /** Reads a decimal integer, with an optional leading minus sign. */
  function ParseDecimal(s: string): int {
    if s != [] && s[0] == '-' then -(ParseDigits(s[1..]) as int) else ParseDigits(s)
  }

  /** Decimal and ParseDecimal round-trip, so distinct ids are written differently. */
  lemma DecimalRoundTrip(i: int)
    ensures ParseDecimal(Decimal(i)) == i
  {
    if i < 0 {
      var d := NatDigits(-i);
      assert Decimal(i) == "-" + d;
      assert ("-" + d)[0] == '-' && ("-" + d)[1..] == d;
      ParseNatDigits(-i);
    } else {
      var d := NatDigits(i);
      assert Decimal(i) == d;
      assert d[0] != '-';
      ParseNatDigits(i);
    }
  }

  /**
   * The label of a category button: the category's own name when non-empty,
   * then the fixed table's name for its id, then "Category <id>".
   */
  function CategoryName(c: Category): (r: string)
    ensures c.name.Some? && c.name.value != [] ==> r == c.name.value
    ensures (c.name.None? || c.name.value == []) && 1 <= c.id <= 10 ==> r == CategoryNameMapping[c.id]
    ensures (c.name.None? || c.name.value == []) && !(1 <= c.id <= 10) ==> r == FallbackPrefix + Decimal(c.id)
    ensures r != []
  {
    MappingDomain(c.id);
    if c.name.Some? && c.name.value != [] then c.name.value
    else if c.id in CategoryNameMapping && CategoryNameMapping[c.id] != [] then CategoryNameMapping[c.id]
    else FallbackPrefix + Decimal(c.id)
  }

  /**
   * The listed categories are labelled consistently with the fixed table,
   * whatever name a category carries: each one's label is the table's name for its id.
   */
  lemma PredefinedLabelsMatchMapping()
    ensures forall i :: 0 <= i < |PredefinedCategories| ==>
      && PredefinedCategories[i].id == i + 1
      && CategoryName(PredefinedCategories[i]) == CategoryNameMapping[i + 1]
  {
  }

  /** Labels never collide: distinct ids without a (non-empty) name of their own get distinct labels. */
  lemma UnnamedLabelsDistinct(a: Category, b: Category)
    requires a.name.None? || a.name.value == []
    requires b.name.None? || b.name.value == []
    requires a.id != b.id
    ensures CategoryName(a) != CategoryName(b)
  {
    MappingDomain(a.id);
    MappingDomain(b.id);
    var n := |FallbackPrefix|;
    if 1 <= a.id <= 10 && 1 <= b.id <= 10 {
      assert CategoryName(a) == CategoryNameMapping[a.id];
    } else if !(1 <= a.id <= 10) && !(1 <= b.id <= 10) {
      if CategoryName(a) == CategoryName(b) {
        assert Decimal(a.id) == CategoryName(a)[n..];
        assert Decimal(b.id) == CategoryName(b)[n..];
        DecimalRoundTrip(a.id);
        DecimalRoundTrip(b.id);
      }
    } else if 1 <= a.id <= 10 {
      assert CategoryName(b)[0] == 'C' && CategoryName(b)[1] == 'a';
    } else {
      assert CategoryName(a)[0] == 'C' && CategoryName(a)[1] == 'a';
    }
  }

  /** The id a category button carries: the text "all" or a category number. */
  datatype CategoryKey = Text(s: string) | Number(n: int)

  const AllKey: CategoryKey := Text("all")

  /** The current category after clicking a button: none for "all", else the button's own id. */
  function SelectedCategory(key: CategoryKey): (current: Option<CategoryKey>)
    ensures current.None? <==> key == AllKey
    ensures current.Some? ==> current.value == key
  {
    if key == AllKey then None else Some(key)
  }
}
