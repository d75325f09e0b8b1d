/** Types shared by the models of the data plane. */
module Prelude {
  datatype Option<+T> = None | Some(value: T)

  datatype BlobId = BlobId(name: string)
  type Byte = bv8
  type Bytes = seq<Byte>

  /** SHA-256 as a free injective function; `NoSum` is the empty checksum string. */
  datatype Sum = NoSum | Sha(of: Bytes)

  predicate SlashFree(s: string) { '/' !in s }
}
