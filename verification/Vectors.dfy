/** The vectors that caches store and attention kernels read. */
module Vectors {
  /** One token's key, value, query or output vector. */
  type Row = seq<real>
}
