# Committed filter index (btcd `blockchain/indexers/cfindex.go`)

A Dafny model of btcd's committed filter index (`CFIndex`). This is the
secondary index that stores, for every connected block, a Golomb-coded set
(GCS) filter over the block's transaction hashes. The index bucket is an
immutable `map<Hash, Bytes>` from 32-byte block hash to filter bytes. The
database's top-level namespace is a `map<Bytes, Bucket>` from bucket name to
bucket. Every operation is a pure function that returns a new value, an `Option`
for lookups, or an error (`Results.Result`).

Modules:

- `Bytes`: byte strings, the 32-byte `Hash` type, and big-endian 32-bit words
  (`binary.BigEndian.PutUint32`, plus its reading direction).
- `Results`: `Option`, `Result`, and the index's error outcomes.
- `CfFilter`: `generateFilterForBlock`. This covers the element list, the
  fixed key (`0xcafebabe` in every 4-byte group of a 16-byte key), the
  parameter `P = 20`, and the call into the GCS builder.
- `CfIndex`: `Key`, `Name`, `Init`, `Create`, `dbFetchCFIndexEntry`,
  `FilterByBlockHash`, `ConnectBlock` and `DisconnectBlock`.
- `IndexHistory`: sequences of connect and disconnect events replayed against
  the bucket. It proves round trip, reorganisation and rollback properties.

How the model treats the parts it does not define:

- **GCS builder.** `gcs.BuildGCSFilter` followed by `filter.Bytes()` is a
  function-valued parameter `GcsBuilder` of `(P, key, elements)`. It
  returns either the filter bytes or its own failure, which the index
  reports as a GCS error, distinct from a `TxHash` error. Every property is
  proved for every such function.
- **Transaction hashes.** A block carries the outcome of `block.TxHash(i)`
  for each transaction. `None` means that call failed.
- **Bucket access.** `ConnectBlock` and `DisconnectBlock` take the index
  bucket directly. In the source, the bucket is fetched from the
  transaction's metadata and must exist.
- **Errors and atomicity.** An `Err` result carries no bucket, so the caller
  keeps the bucket it had. This is how the model expresses "the bucket is
  unchanged" after a failed hook, and the rollback of that hook's
  transaction. `IndexHistory.Replay` returns the first error of a run of
  hooks; the bucket reached before it is not reported.

Where the code behaves in a way a caller may not expect, the model follows
the code:

- **Element list.** The list is made with length `n` and the hashes are then
  appended. The builder therefore receives `2n` elements: `n` empty byte
  strings, then the `n` hashes in order. This is most likely a defect (the
  intent reads as `n` hashes). It is modelled as written, not corrected.
  `CfFilter.ElementListShape` states the exact shape, and
  `CfFilter.ElementListDoubled` shows that it differs from the intended list.
- **Lookup.** Lookup reports "absent" both for a missing key and for a stored
  empty value. A caller therefore cannot tell a stored empty filter from a
  missing one.
- **Disconnect.** `DisconnectBlock` fails both for a missing entry and for an
  empty stored value. Consequently, a block whose builder output is empty can
  be connected but not disconnected: its empty entry stays in the bucket,
  reads as absent, and can never be removed (`IndexHistory.EmptyFilterCannotBeDisconnected`).

## Model

| member | source | states |
|---|---|---|
| `Bytes.PutUint32BE` | blockchain/indexers/cfindex.go:108 | the four big-endian bytes of a 32-bit word read back as the same word |
| `Bytes.Uint32BERoundTrip` | blockchain/indexers/cfindex.go:108 | any four bytes read as a big-endian word and written back are the same bytes, so the encoding is a bijection |
| `CfFilter.KeyWordBytes` | blockchain/indexers/cfindex.go:108 | `0xcafebabe` written big-endian is the byte group `CA FE BA BE` |
| `CfFilter.FillKey` | blockchain/indexers/cfindex.go:107-109 | the key loop from position `i` keeps the bytes before `i` and leaves the 4-byte pattern of `0xcafebabe` at every later position |
| `CfFilter.FilterKey` | blockchain/indexers/cfindex.go:104-109 | the filter key has `KeySize` (16) bytes and byte `j` is `CA FE BA BE` at index `j mod 4` |
| `CfFilter.KeyGroupsDecode` | blockchain/indexers/cfindex.go:107-109 | each 4-byte group of the key decodes big-endian to `0xcafebabe` |
| `CfFilter.Collect` | blockchain/indexers/cfindex.go:96-102 | the collecting loop succeeds iff every remaining `TxHash` call succeeds; on success it appends exactly those hashes in order after the accumulator; otherwise the error names the first failing transaction |
| `CfFilter.ElementListShape` | blockchain/indexers/cfindex.go:93-102 | the element list exists iff every `TxHash(i)` succeeds; it then equals `n` empty strings followed by the `n` hashes in order; otherwise the error names the first failing index |
| `CfFilter.ElementListDoubled` | blockchain/indexers/cfindex.go:94-101 | for a block with at least one transaction, the list handed to the builder is not the list of its hashes, and its first element is empty |
| `CfFilter.GenerateFilter` | blockchain/indexers/cfindex.go:92-119 | a failed `TxHash` yields that error (naming the first failing transaction) and no filter; otherwise the builder is applied to `P = 20`, the fixed key and the `2n`-element list, its filter is returned and its failure becomes a GCS error; a TxHash error is reported iff some `TxHash` call failed |
| `CfFilter.GenerateFilterDeterministic` | blockchain/indexers/cfindex.go:104-118 | two blocks with the same transaction-hash list get identical filter outcomes, whatever their block hashes |
| `CfIndex.Key` | blockchain/indexers/cfindex.go:28 | the index key is the ASCII bytes of `cfbyhashidx` |
| `CfIndex.IdentityFixed` | blockchain/indexers/cfindex.go:63-79 | `Key()` is the 11 bytes of `cfbyhashidx`, `Name()` is `committed bloom filter index`, and `Init()` reports no error |
| `CfIndex.Create` | blockchain/indexers/cfindex.go:86-90 | creation fails iff the bucket name exists; on success it adds an empty bucket under `cfbyhashidx` and changes no other bucket |
| `CfIndex.CreateThenLookup` | blockchain/indexers/cfindex.go:86-90 | after `Create`, every hash reads as absent, and a second `Create` fails with the bucket-exists error |
| `CfIndex.FetchEntry` | blockchain/indexers/cfindex.go:31-41 | returns bytes iff the hash is stored with a non-empty value, and then returns exactly those bytes; a missing key and an empty value both read as absent |
| `CfIndex.FilterByBlockHash` | blockchain/indexers/cfindex.go:161-169 | the lookup against the index bucket of the database returns exactly the stored non-empty filter, and absent otherwise |
| `CfIndex.ConnectBlock` | blockchain/indexers/cfindex.go:126-143 | succeeds iff filter generation succeeds, otherwise returns its error; on success the keys are the old keys plus the block hash, the block hash maps to the generated filter, and every other entry is unchanged |
| `CfIndex.DisconnectBlock` | blockchain/indexers/cfindex.go:150-159 | fails iff the hash is missing or stored empty, with an error naming the hash; on success exactly that key is removed and every other entry is unchanged |
| `IndexHistory.LookupAfterConnect` | blockchain/indexers/cfindex.go:31-41 | after a successful connect, lookup of the block returns the filter if it is non-empty and absent if it is empty; lookups of other hashes are unchanged |
| `IndexHistory.LookupAfterDisconnect` | blockchain/indexers/cfindex.go:150-159 | after a successful disconnect, the block reads as absent and other hashes read as before |
| `IndexHistory.ConnectThenDisconnect` | blockchain/indexers/cfindex.go:126-159 | connecting a block whose hash was absent (with a non-empty filter) and then disconnecting it restores the bucket exactly |
| `IndexHistory.EmptyFilterCannotBeDisconnected` | blockchain/indexers/cfindex.go:126-157 | if the builder yields no bytes, the connect stores an empty value under the hash that reads as absent and that a disconnect refuses to remove; connect-then-disconnect reports the not-found error for that block |
| `IndexHistory.Reorg` | blockchain/indexers/cfindex.go:126-159 | connect A, connect B, disconnect B, connect B2 (A and B2 distinct from B, B fresh) yields the old bucket with exactly A's and B2's filters added, and no entry for B |
| `IndexHistory.RollbackRestores` | blockchain/indexers/cfindex.go:126-159 | connecting any run of fresh blocks with distinct hashes and non-empty filters, then disconnecting them in reverse order, restores the bucket exactly |

## Left out

- `gcs.BuildGCSFilter` and `filter.Bytes()` internals: the gcs package is not part of this model. They appear only as the `GcsBuilder` parameter.
- `btcutil.Block.TxHash` and `Transactions`: btcutil is not part of this model. The outcome of each `TxHash(i)` call is part of the block value.
- Storage engine behaviour: the failure of `Put`, `Delete`, the `View` read transaction, and commit or rollback belong to the database package, which is not part of this model. `Put` and `Delete` are modelled as map update and removal. The error of `FilterByBlockHash` is always nil here, so it returns an `Option`. Of `CreateBucket`'s errors, only the existing-name refusal is modelled.
- A missing index bucket: the source dereferences a nil bucket. `FilterByBlockHash` requires the bucket to exist, and `ConnectBlock` and `DisconnectBlock` receive the bucket itself.
- `NewCFIndex`, the database handle it keeps, `DropCFIndex` and `dropIndex`: `dropIndex` is not part of this model, and the handle is replaced by passing the metadata map.
- The `Indexer` interface and the index manager that calls the hooks: they are not part of this model. `IndexHistory.Replay` stands in for the ordered delivery of hook calls.
- The `fmt.Fprintf(os.Stderr, …)` progress messages: output only.
- The `UtxoViewpoint` argument: the index receives it but does not use it.
- Concurrent readers and the single-writer discipline: these are provided by the storage engine.
- `CfIndex.Name`, `CfIndex.Init`: these are constants without a contract of their own. `CfIndex.IdentityFixed` states their values.
- The error message text: `DisconnectBlock`'s error is modelled as `FilterNotFound(hash)`, which keeps the hash it names.
