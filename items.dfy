/** The engine's view of a wardrobe item. Every attribute is a string, and the
    empty string stands for any falsy JavaScript value (absent, `null`,
    `undefined` or `''`): the engine only ever tests attributes for truthiness
    or compares them with fixed labels, so the three cannot be told apart. */
module Items {

  datatype Item = Item(
    id: string,
    name: string,
    category: string,   // "Top", "Bottom", "Shoes", "Outerwear" or "Full Body"
    fit: string,        // "Tight", "Regular", "Oversized"
    colour: string,
    formality: string,  // "Casual", "Everyday", "Smart", "Athletic"
    warmth: string,     // "Cold", "Transitional", "Warm"
    length: string,     // "Cropped", "Regular", "Long"
    imageUri: string)

  const Top := "Top"
  const Bottom := "Bottom"
  const Shoes := "Shoes"
  const Outerwear := "Outerwear"
  const FullBody := "Full Body"

  /** `value || 'Regular'`: the default the fit and length scorers use. */
  function OrRegular(value: string): (r: string)
    ensures value != "" ==> r == value
    ensures value == "" ==> r == "Regular"
  {
    if value == "" then "Regular" else value
  }
}
