/**
 * The categories page's display data: an icon and a colour class looked up
 * by category name with a default for unknown names, and the description
 * shown when a category has none.
 */
module CategoriesPage {
  import opened Text
  import opened Entities

  const IconMap: map<string, string> := map[
    "Electronics" := "📱",
    "Books" := "📚",
    "Fashion" := "👕",
    "Home & Kitchen" := "🏠",
    "Sports" := "⚽",
    "Beauty" := "💄"
  ]

  const ColorMap: map<string, string> := map[
    "Electronics" := "bg-blue-100 text-blue-600 border-blue-200",
    "Books" := "bg-purple-100 text-purple-600 border-purple-200",
    "Fashion" := "bg-pink-100 text-pink-600 border-pink-200",
    "Home & Kitchen" := "bg-green-100 text-green-600 border-green-200",
    "Sports" := "bg-orange-100 text-orange-600 border-orange-200",
    "Beauty" := "bg-rose-100 text-rose-600 border-rose-200"
  ]

  const DefaultIcon := "📦"
  const DefaultColor := "bg-gray-100 text-gray-600 border-gray-200"

  datatype DisplayData = DisplayData(icon: string, colorClass: string)

  /** `iconMap[name] || '📦'` */
  function IconFor(name: string): (icon: string)
    ensures name in IconMap ==> icon == IconMap[name]
    ensures name !in IconMap ==> icon == DefaultIcon
  {
    if name in IconMap && IconMap[name] != "" then IconMap[name] else DefaultIcon
  }

  /** `colorMap[name] || 'bg-gray-100 ...'` */
  function ColorFor(name: string): (color: string)
    ensures name in ColorMap ==> color == ColorMap[name]
    ensures name !in ColorMap ==> color == DefaultColor
  {
    if name in ColorMap && ColorMap[name] != "" then ColorMap[name] else DefaultColor
  }

  /** `getCategoryDisplayData(category)` */
  function GetCategoryDisplayData(category: Category): (d: DisplayData)
    ensures d.icon == IconFor(category.name) && d.colorClass == ColorFor(category.name)
  {
    DisplayData(IconFor(category.name), ColorFor(category.name))
  }

  /**
   * The two maps name the same six categories, so a category gets a custom
   * icon exactly when it gets a custom colour.
   */
  lemma CustomIconIffCustomColor(name: string)
    ensures IconMap.Keys == ColorMap.Keys
    ensures (IconFor(name) != DefaultIcon) <==> (ColorFor(name) != DefaultColor)
  {
    assert IconMap.Keys == ColorMap.Keys;
    if name in IconMap {
      assert IconMap[name] != DefaultIcon;
      assert ColorMap[name] != DefaultColor;
    }
  }

  /** Electronics gets its own icon and colour; Groceries, which neither map names, gets both defaults. */
  lemma SeedAndUnknownDisplay()
    ensures GetCategoryDisplayData(Category(1, "Electronics", "")) == DisplayData("📱", "bg-blue-100 text-blue-600 border-blue-200")
    ensures GetCategoryDisplayData(Category(9, "Groceries", "")) == DisplayData(DefaultIcon, DefaultColor)
  {
  }

  /** `category.description || \`Explore our ${category.name.toLowerCase()} collection\`` */
  function Description(category: Category): (text: string)
    ensures category.description != "" ==> text == category.description
    ensures category.description == "" ==> text == "Explore our " + ToLower(category.name) + " collection"
  {
    if category.description != "" then category.description
    else "Explore our " + ToLower(category.name) + " collection"
  }

  /** The fallback description does not depend on the letter case of the name. */
  lemma DescriptionIgnoresCase(a: Category, b: Category)
    requires a.description == "" && b.description == "" && ToLower(a.name) == ToLower(b.name)
    ensures Description(a) == Description(b)
  {
  }

  /** A category without a description, e.g. "Books", is described in lower case. */
  lemma LowerCaseFallback()
    ensures Description(Category(2, "Books", "")) == "Explore our books collection"
  {
    assert ToLower("Books") == "books";
  }
}
