/** The committed filter index (CFIndex): its identity, bucket
    provisioning, the per-block connect and disconnect hooks, and lookup.
    The index bucket is a map from block hash to serialized filter; the
    database's top-level namespace is a map from bucket name to bucket. */
module CfIndex {
  import opened Bytes
  import opened Results
  import opened CfFilter

  /** The index bucket: block hash -> filter bytes. */
  type Bucket = map<Hash, Bytes>

  /** The metadata namespace: bucket name -> bucket. */
  type Metadata = map<Bytes, Bucket>

  /** cfIndexKey, the bytes of "cfbyhashidx". */
  function Key(): (k: Bytes)
    ensures IsAscii("cfbyhashidx") && k == Ascii("cfbyhashidx")
  {
    [0x63, 0x66, 0x62, 0x79, 0x68, 0x61, 0x73, 0x68, 0x69, 0x64, 0x78]
  }

  /** cfIndexName. */
  function Name(): string {
    "committed bloom filter index"
  }

  /** Init does nothing and reports no error. */
  function Init(): Option<Error> {
    None
  }

  /** The index's identity never varies and its initialisation never fails. */
  lemma IdentityFixed()
    ensures |Key()| == 11 && Key() == Ascii("cfbyhashidx")
    ensures Name() == "committed bloom filter index"
    ensures Init().None?
  {
  }

  /** Create: CreateBucket(cfIndexKey) on the metadata namespace. The
      storage engine refuses a name that already exists. */
  function Create(meta: Metadata): (r: Result<Metadata>)
    ensures r.Err? <==> Key() in meta
    ensures r.Err? ==> r.error == BucketExists(Key())
    ensures r.Ok? ==> r.value.Keys == meta.Keys + {Key()}
    ensures r.Ok? ==> |r.value[Key()]| == 0
    ensures r.Ok? ==> forall name :: name in meta ==> r.value[name] == meta[name]
  {
    if Key() in meta then Err(BucketExists(Key()))
    else Ok(meta[Key() := map[]])
  }

  /** Bucket.Get: the stored value, or nil (no bytes) for a missing key. */
  function Get(bucket: Bucket, hash: Hash): Bytes {
    if hash in bucket then bucket[hash] else []
  }

  /** dbFetchCFIndexEntry: a missing key and an empty stored value are both
      reported as absent; a non-empty stored value is returned as is. */
  function FetchEntry(bucket: Bucket, hash: Hash): (r: Option<Bytes>)
    ensures r.Some? <==> hash in bucket && |bucket[hash]| > 0
    ensures r.Some? ==> r.value == bucket[hash] && |r.value| > 0
  {
    var stored := Get(bucket, hash);
    if |stored| == 0 then None else Some(stored)
  }

  /** FilterByBlockHash: the entry lookup against the index bucket of the
      database. The bucket must exist (the code dereferences it). */
  function FilterByBlockHash(meta: Metadata, hash: Hash): (r: Option<Bytes>)
    requires Key() in meta
    ensures r.Some? <==> hash in meta[Key()] && |meta[Key()][hash]| > 0
    ensures r.Some? ==> r.value == meta[Key()][hash]
  {
    FetchEntry(meta[Key()], hash)
  }

  /** ConnectBlock: generate the block's filter and put hash -> filter.
      A generation failure is returned and the bucket is left as it was. */
  function ConnectBlock(build: GcsBuilder, bucket: Bucket, b: Block): (r: Result<Bucket>)
    ensures r.Ok? <==> GenerateFilter(build, b).Ok?
    ensures r.Err? ==> r.error == GenerateFilter(build, b).error
    ensures r.Ok? ==> r.value.Keys == bucket.Keys + {b.hash}
    ensures r.Ok? ==> r.value[b.hash] == GenerateFilter(build, b).value
    ensures r.Ok? ==> forall h :: h in bucket && h != b.hash ==> r.value[h] == bucket[h]
  {
    match GenerateFilter(build, b)
    case Err(e) => Err(e)
    case Ok(filter) => Ok(bucket[b.hash := filter])
  }

  /** DisconnectBlock: an absent or empty entry is an error naming the
      block; otherwise exactly that key is deleted. */
  function DisconnectBlock(bucket: Bucket, b: Block): (r: Result<Bucket>)
    ensures r.Err? <==> b.hash !in bucket || |bucket[b.hash]| == 0
    ensures r.Err? ==> r.error == FilterNotFound(b.hash)
    ensures r.Ok? ==> r.value.Keys == bucket.Keys - {b.hash}
    ensures r.Ok? ==> forall h :: h in r.value ==> r.value[h] == bucket[h]
  {
    if |Get(bucket, b.hash)| == 0 then Err(FilterNotFound(b.hash))
    else Ok(bucket - {b.hash})
  }

  /** A freshly created index holds no filter for any block, and a second
      Create of the same database fails. */
  lemma CreateThenLookup(meta: Metadata, h: Hash)
    requires Create(meta).Ok?
    ensures FilterByBlockHash(Create(meta).value, h).None?
    ensures Create(Create(meta).value) == Err(BucketExists(Key()))
  {
  }
}
