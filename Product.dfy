/**
 * A catalog product as the listing works with it: the catalog record
 * (id, title, price, category, image) plus the stock ceiling the client adds
 * to each record after fetching. Prices are whole amounts of the smallest
 * currency unit.
 */
module Product {

  datatype Product = Product(
    id: int,
    title: string,
    price: int,
    category: string,
    image: string,
    stock: int)
}
