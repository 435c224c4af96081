/** The bytes of a file and the codec that fills it. */
module Persistence {
  import opened WalletTypes

  type Bytes = seq<bv8>

  datatype Codec<!T(!new)> = Codec(encode: T -> Bytes, decode: Bytes -> Option<T>) {
    ghost predicate Invertible() {
      forall t: T :: decode(encode(t)) == Some(t)
    }
  }
}
