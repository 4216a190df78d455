/**
 * The records the client exchanges with the shop's REST API, reduced to the
 * fields the client logic inspects, and the JSON values it reads back from
 * browser storage.
 */
module Entities {
  import opened Wrappers

  datatype Category = Category(id: int, name: string, description: string)

  /** A catalog product; prices are whole rupees in the seed data. */
  datatype Product = Product(id: int, name: string, price: int, category: int, categoryName: string)

  /**
   * A user record. A string field that is absent or empty reads as `""`,
   * a flag that is absent reads as `false` (both are falsy in the client code).
   */
  datatype User = User(
    id: int,
    username: string,
    email: string,
    firstName: string,
    lastName: string,
    phone: string,
    dateOfBirth: string,
    address: string,
    isStaff: bool,
    isSuperuser: bool,
    isActive: bool)

  /** A user with every field absent: what `{...x, f: v}` starts from when `x` is not an object. */
  const NoUser := User(0, "", "", "", "", "", "", "", false, false, false)

  datatype AuthTokens = AuthTokens(access: string, refresh: string)

  /**
   * A JSON value as the client inspects it: `null`, another falsy value
   * (`false`, `0`, `""`), a truthy value that is not an object (reading a
   * user field from it gives `undefined`), or an object read as a user record.
   */
  datatype Json = Null | Falsy | Scalar | Record(user: User)

  /** JavaScript truthiness of a parsed value (`!!value`). */
  predicate Truthy(j: Json) {
    j.Scalar? || j.Record?
  }

  /**
   * `JSON.parse` and `JSON.stringify`, which the model takes as given:
   * `parse` answers `None` where the real one throws a SyntaxError.
   */
  datatype JsonCodec = JsonCodec(parse: string -> Option<Json>, stringify: Json -> string)

  /** The codec writes `j` as non-empty text and reads it back as `j`. */
  predicate RoundTrips(codec: JsonCodec, j: Json) {
    codec.stringify(j) != "" && codec.parse(codec.stringify(j)) == Some(j)
  }
}
