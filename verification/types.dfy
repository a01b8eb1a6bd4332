/**
 * The records of the perfume dashboard: clients, their payments and orders,
 * and the signed-in user. Each status or role union of string literals
 * becomes a datatype, so a value outside the union cannot be written down.
 * Optional fields are `Option<string>`; the types tie none of them to a
 * status (a paid payment may lack `paidDate`, a pending one may carry it).
 */
module Types {

  datatype Option<+T> = None | Some(value: T)

  /** A customer of the business. */
  datatype Client = Client(
    id: string,
    name: string,
    idNumber: Option<string>,
    email: Option<string>,
    phone: Option<string>,
    createdAt: string)

  datatype PaymentStatus = Paid | Pending | Overdue

  /** An invoice; `amount` is in satang (hundredths of a baht). */
  datatype Payment = Payment(
    id: string,
    clientId: string,
    amount: nat,
    dueDate: string,
    paidDate: Option<string>,
    status: PaymentStatus,
    description: string)

  datatype OrderStatus = OrderPending | InProgress | Completed | Cancelled

  /** A custom-fragrance work item; `amount` is in satang. */
  datatype Order = Order(
    id: string,
    clientId: string,
    description: string,
    amount: nat,
    status: OrderStatus,
    createdAt: string,
    completedAt: Option<string>,
    notes: Option<string>)

  datatype Role = ClientRole | AdminRole

  /** The signed-in user; `clientId` names the client whose records it may see. */
  datatype User = User(id: string, name: string, role: Role, clientId: Option<string>)

  /** The badge background colours the components choose between. */
  datatype Colour = Green | Yellow | Red | Blue | Gray

  /**
   * JavaScript truthiness of an optional string, as used by `x && <markup>`:
   * an absent value and the empty string are both falsy.
   */
  predicate Truthy(s: Option<string>) {
    s.Some? && s.value != ""
  }
}
