/** The records the checkout works on (types/types.go) and the errors it reports.
    Prices are whole cents, so that sums of prices are exact. */
module Types {

  /** Bounds of Go's `int`, which is 64 bits wide on the platforms the service targets. */
  const Int64Min: int := -0x8000_0000_0000_0000
  const Int64Max: int := 0x7FFF_FFFF_FFFF_FFFF
  const TwoTo64: int := 0x1_0000_0000_0000_0000

  predicate IsInt64(x: int) {
    Int64Min <= x <= Int64Max
  }

  /** The value Go's two's-complement `int` arithmetic yields for the exact result `x`. */
  function Wrap64(x: int): (r: int)
    ensures IsInt64(r)
    ensures IsInt64(x) ==> r == x
    ensures (x - r) % TwoTo64 == 0
  {
    var k := (x - Int64Min) % TwoTo64;
    assert x - (k + Int64Min) == ((x - Int64Min) / TwoTo64) * TwoTo64;
    k + Int64Min
  }

  datatype Product = Product(
    id: int,
    name: string,
    description: string,
    image: string,
    price: int,       // unit price in cents
    quantity: int,    // units in stock
    createdAt: string)

  /** Go's zero value of Product: what indexing a map at a missing key yields. */
  const ZeroProduct: Product := Product(0, "", "", "", 0, 0, "")

  /** One requested product and how many units of it. Transient, never stored. */
  datatype CartItem = CartItem(productId: int, quantity: int)

  datatype Order = Order(
    id: int,
    userId: int,
    total: int,       // in cents
    status: string,
    address: string,
    createdAt: string)

  datatype OrderItem = OrderItem(
    id: int,
    orderId: int,
    productId: int,
    quantity: int,
    price: int,       // unit price in cents, copied at purchase time
    createdAt: string)

  /** The errors of the checkout core; the product IDs are the ones its messages name. */
  datatype CartError =
    | InvalidQuantity(productId: int)   // "invalid quantity for product %d"
    | EmptyCart                         // "cart is empty"
    | ProductNotFound(productId: int)   // "product %d not found in store"
    | OutOfStock(productId: int)        // "product %d out of stock"
    | StoreFailure                      // an error returned by a store

  /** A Go `error` result: `nil` is Pass. */
  datatype Outcome = Pass | Fail(error: CartError)

  /** A Go `(T, error)` pair in which the value matters only when the error is `nil`. */
  datatype Result<T> = Success(value: T) | Failure(error: CartError)
}
