/**
 * The product record as the cart and the listing page hold it: the
 * catalogue document fetched from the content store, copied whole into
 * the cart. Prices and quantities are whole numbers here.
 */
module Catalog {

  datatype Category = Category(name: string, slug: string)

  datatype Dimensions = Dimensions(width: string, height: string, depth: string)

  datatype Product = Product(
    name: string,
    description: string,
    image: string,
    id: string,
    features: seq<string>,
    dimensions: Dimensions,
    category: Category,
    price: int,
    tags: seq<string>,
    quantity: int)
}
