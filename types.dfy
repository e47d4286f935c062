/** The record shapes shared by the store and the storefront (types.ts). */
module Types {

  datatype Option<T> = None | Some(value: T)

  /** The fixed catalogue categories. */
  datatype ProductCategory = Steam | Email | Currency | Accounts | Keys

  /** A catalogue entry. `price` is in cents; `stock` counts purchasable units. */
  datatype Product = Product(
    id: string,
    title: string,
    description: string,
    price: int,
    category: ProductCategory,
    stock: int,
    imageUrl: string,
    region: Option<string>,
    autoDeliveryData: Option<string>)

  /** The single current user; `balance` is in cents. */
  datatype User = User(
    id: string,
    username: string,
    balance: int,
    isAdmin: bool,
    avatarUrl: string)

  datatype OrderStatus = Completed | Pending

  /** An order snapshots the product's title, price and delivery payload at the moment of sale. */
  datatype Order = Order(
    id: string,
    userId: string,
    productId: string,
    productTitle: string,
    price: int,
    date: string,
    status: OrderStatus,
    deliveryData: Option<string>)

  datatype TransactionType = Deposit | Purchase

  /** A ledger entry: `amount` is positive for a deposit and negative for a purchase. */
  datatype Transaction = Transaction(
    id: string,
    amount: int,
    kind: TransactionType,
    date: string,
    description: string)
}
