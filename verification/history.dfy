/** Sequences of connect and disconnect events as the chain delivers them
    to the index, and what the index bucket looks like afterwards: the
    round trip of a connect undone by a disconnect, a reorganisation, and
    the rollback of a whole run of blocks. */
module IndexHistory {
  import opened Bytes
  import opened Results
  import opened CfFilter
  import opened CfIndex

  datatype Event = Connected(b: Block) | Disconnected(b: Block)

  /** One hook call on the bucket. */
  function Step(build: GcsBuilder, bucket: Bucket, e: Event): Result<Bucket> {
    match e
    case Connected(b) => ConnectBlock(build, bucket, b)
    case Disconnected(b) => DisconnectBlock(bucket, b)
  }

  /** The events in order; returns the first error; the bucket reached
      before it is not reported. */
  function Replay(build: GcsBuilder, bucket: Bucket, events: seq<Event>): Result<Bucket>
    decreases |events|
  {
    if |events| == 0 then Ok(bucket)
    else
      match Step(build, bucket, events[0])
      case Err(e) => Err(e)
      case Ok(next) => Replay(build, next, events[1..])
  }

  /** Continue a replay outcome with more events. */
  function Then(build: GcsBuilder, r: Result<Bucket>, events: seq<Event>): Result<Bucket> {
    match r
    case Err(e) => Err(e)
    case Ok(bucket) => Replay(build, bucket, events)
  }

  /** Replaying a concatenation is replaying its parts one after the other. */
  lemma {:induction false} ReplayAppend(build: GcsBuilder, bucket: Bucket, xs: seq<Event>, ys: seq<Event>)
    ensures Replay(build, bucket, xs + ys) == Then(build, Replay(build, bucket, xs), ys)
    decreases |xs|
  {
    if |xs| == 0 {
      assert xs + ys == ys;
    } else {
      assert (xs + ys)[0] == xs[0];
      assert (xs + ys)[1..] == xs[1..] + ys;
      match Step(build, bucket, xs[0])
      case Err(e) =>
      case Ok(next) => ReplayAppend(build, next, xs[1..], ys);
    }
  }

  /** Replaying a first event and then the rest. */
  lemma ReplayCons(build: GcsBuilder, bucket: Bucket, e: Event, rest: seq<Event>)
    ensures Replay(build, bucket, [e] + rest) == Then(build, Step(build, bucket, e), rest)
  {
    assert ([e] + rest)[1..] == rest;
  }

  /** Replaying two events is stepping twice. */
  lemma ReplayPair(build: GcsBuilder, bucket: Bucket, e1: Event, e2: Event)
    ensures Replay(build, bucket, [e1, e2]) == Then(build, Step(build, bucket, e1), [e2])
    ensures forall m :: Replay(build, m, [e2]) == Then(build, Step(build, m, e2), [])
  {
    ReplayCons(build, bucket, e1, [e2]);
    assert [e1] + [e2] == [e1, e2];
    forall m
      ensures Replay(build, m, [e2]) == Then(build, Step(build, m, e2), [])
    {
      ReplayCons(build, m, e2, []);
      assert [e2] + [] == [e2];
    }
  }

  /** A block the index can connect and later disconnect: its filter is
      generated and is not empty (an empty stored value reads as absent). */
  predicate Indexable(build: GcsBuilder, b: Block) {
    GenerateFilter(build, b).Ok? && |GenerateFilter(build, b).value| > 0
  }

  /** After a successful connect, lookup of the block returns the stored
      filter when it is non-empty and absent when it is empty; lookups of
      every other hash are as before. */
  lemma LookupAfterConnect(build: GcsBuilder, bucket: Bucket, b: Block, h: Hash)
    requires ConnectBlock(build, bucket, b).Ok?
    ensures var f := GenerateFilter(build, b).value;
      FetchEntry(ConnectBlock(build, bucket, b).value, b.hash) == if |f| > 0 then Some(f) else None
    ensures h != b.hash ==> FetchEntry(ConnectBlock(build, bucket, b).value, h) == FetchEntry(bucket, h)
  {
  }

  /** After a successful disconnect, the block reads as absent and every
      other hash reads as before. */
  lemma LookupAfterDisconnect(bucket: Bucket, b: Block, h: Hash)
    requires DisconnectBlock(bucket, b).Ok?
    ensures FetchEntry(DisconnectBlock(bucket, b).value, b.hash).None?
    ensures h != b.hash ==> FetchEntry(DisconnectBlock(bucket, b).value, h) == FetchEntry(bucket, h)
  {
  }

  /** Connecting a block whose hash was absent and then disconnecting it
      restores the bucket exactly. */
  lemma ConnectThenDisconnect(build: GcsBuilder, bucket: Bucket, b: Block)
    requires b.hash !in bucket
    requires Indexable(build, b)
    ensures Replay(build, bucket, [Connected(b), Disconnected(b)]) == Ok(bucket)
  {
    var next := bucket[b.hash := GenerateFilter(build, b).value];
    ReplayPair(build, bucket, Connected(b), Disconnected(b));
    assert next - {b.hash} == bucket;
  }

  /** When the builder serializes a block's filter to no bytes, the connect
      succeeds and stores an empty value under the block's hash; that entry
      reads as absent, and the disconnect that should undo it reports the
      filter as missing, so the entry can never be removed. */
  lemma EmptyFilterCannotBeDisconnected(build: GcsBuilder, bucket: Bucket, b: Block)
    requires GenerateFilter(build, b) == Ok([])
    ensures ConnectBlock(build, bucket, b).Ok? &&
      var m := ConnectBlock(build, bucket, b).value;
      && b.hash in m && m[b.hash] == []
      && FetchEntry(m, b.hash).None?
      && DisconnectBlock(m, b).Err?
    ensures Replay(build, bucket, [Connected(b), Disconnected(b)]) == Err(FilterNotFound(b.hash))
  {
    ReplayPair(build, bucket, Connected(b), Disconnected(b));
  }

  /** Reorganisation: connect A, connect B, disconnect B, connect B2. The
      bucket ends with the filters of A and B2 added and nothing of B. */
  lemma Reorg(build: GcsBuilder, bucket: Bucket, a: Block, b: Block, b2: Block)
    requires a.hash != b.hash && b.hash != b2.hash
    requires b.hash !in bucket
    requires GenerateFilter(build, a).Ok? && Indexable(build, b) && GenerateFilter(build, b2).Ok?
    ensures var r := Replay(build, bucket, [Connected(a), Connected(b), Disconnected(b), Connected(b2)]);
      && r == Ok(bucket[a.hash := GenerateFilter(build, a).value][b2.hash := GenerateFilter(build, b2).value])
      && r.value.Keys == bucket.Keys + {a.hash, b2.hash}
      && b.hash !in r.value
  {
    var events := [Connected(a), Connected(b), Disconnected(b), Connected(b2)];
    var fa := GenerateFilter(build, a).value;
    var fb := GenerateFilter(build, b).value;
    var withA := bucket[a.hash := fa];
    var withB := withA[b.hash := fb];
    assert withB - {b.hash} == withA;
    assert events == [Connected(a), Connected(b)] + [Disconnected(b), Connected(b2)];
    ReplayAppend(build, bucket, [Connected(a), Connected(b)], [Disconnected(b), Connected(b2)]);
    ReplayPair(build, bucket, Connected(a), Connected(b));
    ReplayPair(build, withB, Disconnected(b), Connected(b2));
  }

  /** Connect events for a run of blocks, in chain order. */
  function Connects(blocks: seq<Block>): (es: seq<Event>)
    ensures |es| == |blocks|
    ensures forall i :: 0 <= i < |blocks| ==> es[i] == Connected(blocks[i])
  {
    seq(|blocks|, i requires 0 <= i < |blocks| => Connected(blocks[i]))
  }

  /** Disconnect events for the same run, in reverse chain order. */
  function Rollback(blocks: seq<Block>): (es: seq<Event>)
    ensures |es| == |blocks|
    ensures forall i :: 0 <= i < |blocks| ==> es[i] == Disconnected(blocks[|blocks| - 1 - i])
  {
    seq(|blocks|, i requires 0 <= i < |blocks| => Disconnected(blocks[|blocks| - 1 - i]))
  }

  /** The hashes of a run of blocks are pairwise distinct. */
  predicate DistinctHashes(blocks: seq<Block>) {
    forall i, j :: 0 <= i < j < |blocks| ==> blocks[i].hash != blocks[j].hash
  }

  /** Connecting a run of fresh, distinct blocks and then disconnecting
      them in reverse order leaves the bucket exactly as it was. */
  lemma {:induction false} RollbackRestores(build: GcsBuilder, bucket: Bucket, blocks: seq<Block>)
    requires DistinctHashes(blocks)
    requires forall i :: 0 <= i < |blocks| ==> blocks[i].hash !in bucket && Indexable(build, blocks[i])
    ensures Replay(build, bucket, Connects(blocks) + Rollback(blocks)) == Ok(bucket)
    decreases |blocks|
  {
    if |blocks| == 0 {
      assert Connects(blocks) + Rollback(blocks) == [];
    } else {
      var b := blocks[0];
      var rest := blocks[1..];
      var next := bucket[b.hash := GenerateFilter(build, b).value];
      var middle := Connects(rest) + Rollback(rest);
      assert Connects(blocks) + Rollback(blocks) == [Connected(b)] + (middle + [Disconnected(b)]);
      forall i | 0 <= i < |rest|
        ensures rest[i].hash !in next && Indexable(build, rest[i])
      {
        assert rest[i] == blocks[i + 1];
      }
      RollbackRestores(build, next, rest);
      ReplayCons(build, bucket, Connected(b), middle + [Disconnected(b)]);
      ReplayAppend(build, next, middle, [Disconnected(b)]);
      ReplayCons(build, next, Disconnected(b), []);
      assert [Disconnected(b)] + [] == [Disconnected(b)];
      assert next - {b.hash} == bucket;
    }
  }
}
