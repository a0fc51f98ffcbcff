/** The persisted inventory record (the superset shape of InventoryItem). */
module Items {

  /** C#'s `int`: a signed 32-bit integer. */
  newtype int32 = x: int | -0x8000_0000 <= x < 0x8000_0000

  datatype Option<T> = None | Some(value: T)

  /** One row of the InventoryItems table. `id` is opaque here: the model neither
      assigns it nor assumes it is unique. */
  datatype InventoryItem = InventoryItem(
    id: int32,
    articleNumber: string,
    name: string,
    quantity: int32,
    location: string,
    supplier: string)
}
