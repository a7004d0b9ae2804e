/** The records exchanged with the remote product service. */
module Catalog {

  /** A product as the service returns it. Prices and ratings are decimals
      that the dashboard only compares; stock is a whole count. */
  datatype Product = Product(
    id: int,
    title: string,
    category: string,
    price: real,
    rating: real,
    stock: int,
    thumbnail: string,
    sku: string)

  /** The body of a listing reply: one page of products and the size of the
      whole collection. */
  datatype PageResult = PageResult(products: seq<Product>, total: int, skip: int, limit: int)
}
