/** The records exchanged with the recipe backend (src/types/recipe.ts). */
module RecipeTypes {
  import opened Wrappers

  /** The four dish categories; on the wire they are their own names. */
  datatype TypeOfDish = BREAKFAST | DINNER | DESSERT | DRINK

  /** The order in which both selectors list the categories. */
  const DishTypes: seq<TypeOfDish> := [BREAKFAST, DINNER, DESSERT, DRINK]

  /** The JSON string of a category. */
  function DishTypeName(t: TypeOfDish): string {
    match t
    case BREAKFAST => "BREAKFAST"
    case DINNER => "DINNER"
    case DESSERT => "DESSERT"
    case DRINK => "DRINK"
  }

  /** Reads a JSON string back as a category; any other string is not one. */
  function ParseDishType(s: string): (r: Option<TypeOfDish>)
    ensures r.Some? ==> DishTypeName(r.value) == s
  {
    if s == "BREAKFAST" then Some(BREAKFAST)
    else if s == "DINNER" then Some(DINNER)
    else if s == "DESSERT" then Some(DESSERT)
    else if s == "DRINK" then Some(DRINK)
    else None
  }

  /** Every category has a name that reads back as itself, and the selector lists each once. */
  lemma DishTypeNames(t: TypeOfDish)
    ensures ParseDishType(DishTypeName(t)) == Some(t)
    ensures t in DishTypes
    ensures |DishTypes| == 4
  {
  }

  /** One ingredient row: both fields are required strings. */
  datatype Ingredient = Ingredient(ingredient: string, amount: string)

  /** The optional `type` tag of a serialised binary: a number or a string. */
  datatype BinaryType = NumericType(code: int) | NamedType(name: string)

  /** Base64 image data: one string, or an ordered list of string chunks. */
  datatype BinaryData = Base64(text: string) | Chunks(parts: seq<string>)

  /** A serialised image blob; both fields are optional. */
  datatype Binary = Binary(binaryType: Option<BinaryType>, data: Option<BinaryData>)

  /**
   * A recipe. `uuid` and `title` are required; every other field may be absent.
   * `cookCount` is read by the detail page although the TypeScript type does not declare it.
   */
  datatype Recipe = Recipe(
    uuid: string,
    title: string,
    content: Option<string>,
    ingredients: Option<seq<Ingredient>>,
    typeOfDish: Option<TypeOfDish>,
    tags: Option<seq<string>>,
    images: Option<seq<Binary>>,
    cookCount: Option<nat>)
}
