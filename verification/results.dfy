/** Optional values, the errors the index reports, and a result type that
    carries either a value or one of those errors. */
module Results {
  import opened Bytes

  /** A value that may be absent; a Go nil slice becomes None. */
  datatype Option<+T> = None | Some(value: T)

  /** The error outcomes of the index and of the calls it makes. */
  datatype Error =
      /** block.TxHash(index) failed while the element list was built. */
    | TxHashFailed(index: nat)
      /** gcs.BuildGCSFilter failed; the code stands for its opaque error. */
    | GcsFailed(code: nat)
      /** DisconnectBlock found no non-empty filter stored for this hash. */
    | FilterNotFound(hash: Hash)
      /** CreateBucket was asked for a bucket name that already exists. */
    | BucketExists(name: Bytes)

  datatype Result<+T> = Ok(value: T) | Err(error: Error)
}
