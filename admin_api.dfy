// The product records the admin pages exchange with the server. Prices are
// in cents; a missing or null reference is `None`.

module AdminApi {
  import opened Common

  /** A product as the server returns it. */
  datatype AdminProductDto = AdminProductDto(
    id: string, sku: string, name: string, description: string, price: int, stock: int,
    imageUrl: Option<string>, brandId: Option<string>, genderId: Option<string>, shoeTypeId: Option<string>,
    createdAt: string, updatedAt: string)

  /** The body of a create or update request. */
  datatype ProductPayload = ProductPayload(
    sku: string, name: string, description: string, price: int, stock: int,
    imageUrl: Option<string>, genderId: Option<string>, shoeTypeId: Option<string>)

  /** A gender or shoe type of the reference lists. */
  datatype Reference = Reference(id: string, name: string)

  /** How a request to the server ended: its value, or a thrown error with
      its message (`None` for a value that is not an `Error`). */
  datatype Reply<T> = Ok(value: T) | Err(message: Option<string>)
}
