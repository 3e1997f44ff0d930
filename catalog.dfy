/** Types shared by the endpoint, the store and the dashboard. */
module Catalog {

  datatype Option<T> = None | Some(value: T)

  /** A product document as the dashboard reads it. Every field is an opaque
      display string except the five that the search predicate inspects
      (category, subCategory, title, description, brand) and the two lists
      whose length the product card looks at (images, productDetails). */
  datatype Product = Product(
    id: string,
    title: string,
    images: seq<string>,
    productDetails: seq<map<string, string>>,
    sellingPrice: string,
    actualPrice: string,
    discount: string,
    url: string,
    category: string,
    subCategory: string,
    brand: string,
    description: string)
}
