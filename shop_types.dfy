/** The client's shared record types (the interfaces of the client's type
    declarations): money is an exact `real`, quantities are integers. */
module ShopTypes {
  import opened Options

  datatype Product = Product(id: string, name: string, price: real, category: string, image: string)

  /** One cart line: the product as it was added, and a quantity. */
  datatype CartItem = CartItem(product: Product, quantity: int)

  /** A line of a placed order, with the name and unit price copied at order time. */
  datatype OrderItem = OrderItem(productId: string, productName: string, quantity: int, price: real, total: real)

  datatype OrderStatus = Processing | Shipped | Delivered | Cancelled

  datatype Order = Order(
    id: string,
    userId: Option<int>,
    items: seq<OrderItem>,
    total: real,
    status: OrderStatus,
    createdAt: string)
}
