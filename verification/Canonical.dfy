/**
  Shared value types.  A digest is modelled as an ideal hash: it wraps the value it was
  computed from, so two computed digests are equal exactly when their preimages are.  `Foreign`
  is any other text a caller may pass where a digest or identifier is expected.
 */
module Canonical {

  datatype Option<+T> = None | Some(value: T)

  datatype Result<+T, +E> = Success(value: T) | Failure(error: E)

  /** `sha256_digest(value)` */
  datatype Digest<+T> = Sha256(preimage: T) | Foreign(text: string)

  /** `stable_id(prefix, value)`; the prefix is fixed by the type of the value */
  datatype StableId<+T> = StableId(preimage: T) | ForeignId(text: string)
}
