/** Records shared by the inventory routes, the account routes and the
    daily expiry-alert pass: the stored documents of the Medicine, User and
    InventoryLog collections, with timestamps as integer milliseconds. */
module Records {

  datatype Option<+T> = None | Some(value: T)

  datatype Result<+T> = Ok(value: T) | Err(status: int)

  /** Milliseconds since the epoch. */
  type Time = int

  type MedId = nat
  type UserId = nat

  const MsPerMinute: int := 60 * 1000
  const MsPerDay: int := 24 * 60 * 60 * 1000

  /** A registered user (models/User.js); `passwordHash` is the opaque bcrypt digest. */
  datatype User = User(id: UserId, name: string, email: string, passwordHash: string)

  /** A stored medicine document (models/Medicine.js). `lastAlertSent` is the
      dedupe stamp of the expiry-alert pass; `user` is the owner. */
  datatype Medicine = Medicine(
    id: MedId,
    name: string,
    description: string,
    quantity: int,
    price: int,
    expiryDate: Time,
    manufacturer: string,
    user: UserId,
    lastAlertSent: Option<Time>)

  /** The action strings the inventory routes write into a log entry. */
  datatype Action = Added | StockAdded | StockUsed | Deleted

  /** An inventory log document as the routes build it (`quantityChanged`). */
  datatype LogEntry = LogEntry(
    action: Action,
    medicineName: string,
    medicine: MedId,
    quantityChanged: int,
    user: UserId,
    timestamp: Time)

  /** A JSON value of a request body, as far as the routes look at it. */
  datatype Value = Text(s: string) | Number(n: int)

  /** No two stored medicines share an id. */
  ghost predicate UniqueIds(meds: seq<Medicine>)
  {
    forall i, j :: 0 <= i < |meds| && 0 <= j < |meds| && meds[i].id == meds[j].id ==> i == j
  }
}
