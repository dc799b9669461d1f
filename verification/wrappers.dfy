/** Optional values, and the 128-bit identifiers the service hands out. */
module Wrappers {

  /** An optional value: Go's nil pointers and omitted JSON claims. */
  datatype Option<+T> = None | Some(value: T) {
    function GetOr(default: T): T {
      match this
      case Some(v) => v
      case None => default
    }
  }
}

module Uuids {

  /** A UUID as its 128-bit integer value. */
  type Uuid = x: nat | x < 0x1_0000_0000_0000_0000_0000_0000_0000_0000

  /** The zero value of uuid.UUID (the nil UUID). A version-4 UUID from uuid.New()
      carries version bits and is never nil. */
  const NilUuid: Uuid := 0
}
