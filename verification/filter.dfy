/** Filter generation for one block (generateFilterForBlock): the element
    list built from the block's transaction hashes, the fixed GCS key, the
    false-positive parameter, and the call into the GCS builder. */
module CfFilter {
  import opened Bytes
  import opened Results

  newtype uint8 = x: int | 0 <= x < 0x100

  /** gcs.KeySize: the length of the SipHash key of a GCS filter. */
  const KeySize: nat := 16

  /** The false-positive parameter the index passes to the builder. */
  const FilterP: uint8 := 20

  /** The word written big-endian into every 4-byte group of the key. */
  const KeyWord: bv32 := 0xcafebabe

  type Key = k: Bytes | |k| == KeySize witness Zeros(KeySize)

  /** What the GCS builder gives back: the serialized filter, or its own
      failure (the code stands for its opaque error). */
  datatype BuildOutcome = Built(bytes: Bytes) | BuildFailed(code: nat)

  /** gcs.BuildGCSFilter followed by filter.Bytes(): a function of the
      parameter P, the key and the element list that either fails or yields
      the serialized filter. Its internals are not part of this model, so
      the index is stated for every such function. */
  type GcsBuilder = (uint8, Key, seq<Bytes>) -> BuildOutcome

  /** A block as the index sees it: its hash and, for each transaction i,
      the outcome of block.TxHash(i) (None when that call fails). */
  datatype Block = Block(hash: Hash, txHashes: seq<Option<Hash>>)

  /** The pattern every 4-byte group of the key carries. */
  lemma KeyWordBytes()
    ensures PutUint32BE(KeyWord) == [0xCA, 0xFE, 0xBA, 0xBE]
  {
  }

  /** The key loop: for i := 0; i < KeySize; i += 4, write KeyWord
      big-endian at key[i:]. Positions below i are left as they are. */
  function FillKey(key: Key, i: nat): (r: Key)
    requires i % 4 == 0 && i <= KeySize
    ensures forall j :: 0 <= j < i ==> r[j] == key[j]
    ensures forall j :: i <= j < KeySize ==> r[j] == PutUint32BE(KeyWord)[j % 4]
    decreases KeySize - i
  {
    if i >= KeySize then key
    else
      var word := PutUint32BE(KeyWord);
      var next: Key := key[..i] + word + key[i + 4..];
      assert forall j :: i <= j < i + 4 ==> next[j] == word[j % 4] by {
        forall j | i <= j < i + 4
          ensures next[j] == word[j % 4]
        {
          assert j % 4 == j - i;
        }
      }
      FillKey(next, i + 4)
  }

  /** The filter key: a zeroed [KeySize]byte filled by the key loop. */
  function FilterKey(): (k: Key)
    ensures forall j :: 0 <= j < KeySize ==> k[j] == [0xCA, 0xFE, 0xBA, 0xBE][j % 4]
  {
    KeyWordBytes();
    FillKey(Zeros(KeySize), 0)
  }

  /** Reading each 4-byte group of the key back as a big-endian word gives
      0xcafebabe. */
  lemma KeyGroupsDecode(g: nat)
    requires g < KeySize / 4
    ensures Uint32BE(FilterKey()[4 * g..4 * g + 4]) == KeyWord
  {
    var k := FilterKey();
    var group := k[4 * g..4 * g + 4];
    assert group == [0xCA, 0xFE, 0xBA, 0xBE] by {
      forall j | 0 <= j < 4
        ensures group[j] == [0xCA, 0xFE, 0xBA, 0xBE][j]
      {
        assert (4 * g + j) % 4 == j;
        assert group[j] == k[4 * g + j];
        assert k[4 * g + j] == [0xCA, 0xFE, 0xBA, 0xBE][(4 * g + j) % 4];
      }
    }
  }

  /** Every transaction hash lookup succeeded. */
  predicate AllResolve(lookups: seq<Option<Hash>>) {
    forall j :: 0 <= j < |lookups| ==> lookups[j].Some?
  }

  /** The hashes themselves, in transaction order. */
  function Resolved(lookups: seq<Option<Hash>>): (hs: seq<Bytes>)
    requires AllResolve(lookups)
    ensures |hs| == |lookups|
    ensures forall j :: 0 <= j < |lookups| ==> Some(hs[j]) == lookups[j]
  {
    seq(|lookups|, j requires 0 <= j < |lookups| && lookups[j].Some? => lookups[j].value)
  }

  /** The collecting loop from index i on: each resolved hash is appended
      to acc; the first failing lookup ends the loop with its error. */
  function Collect(lookups: seq<Option<Hash>>, i: nat, acc: seq<Bytes>): (r: Result<seq<Bytes>>)
    requires i <= |lookups|
    ensures r.Ok? <==> AllResolve(lookups[i..])
    ensures r.Ok? ==> && |r.value| == |acc| + |lookups| - i
                      && r.value[..|acc|] == acc
                      && forall j :: i <= j < |lookups| ==> Some(r.value[|acc| + j - i]) == lookups[j]
    ensures r.Err? ==> && r.error.TxHashFailed?
                       && i <= r.error.index < |lookups|
                       && lookups[r.error.index].None?
                       && AllResolve(lookups[i..r.error.index])
    decreases |lookups| - i
  {
    if i == |lookups| then Ok(acc)
    else
      match lookups[i]
      case None => Err(TxHashFailed(i))
      case Some(h) =>
        var r := Collect(lookups, i + 1, acc + [h]);
        assert r.Ok? ==> r.value[..|acc|] == (r.value[..|acc| + 1])[..|acc|];
        assert AllResolve(lookups[i..]) <==> lookups[i].Some? && AllResolve(lookups[i + 1..]);
        r
  }

  /** The element list of generateFilterForBlock AS WRITTEN: the slice is
      made with length n (n empty byte strings) and the hashes are then
      appended, so the builder receives 2n elements. This is most likely a
      defect (the intent reads as n hashes), kept here as the code has it. */
  function ElementList(lookups: seq<Option<Hash>>): (r: Result<seq<Bytes>>)
  {
    Collect(lookups, 0, seq(|lookups|, _ => []))
  }

  /** Exact shape of the element list: it exists iff every lookup
      succeeds; it then has 2n entries, the first n empty and entry n+i the
      hash of transaction i; otherwise the error names the first failing
      transaction. */
  lemma ElementListShape(lookups: seq<Option<Hash>>)
    ensures var r := ElementList(lookups);
      && (r.Ok? <==> AllResolve(lookups))
      && (r.Ok? ==> r.value == seq(|lookups|, _ => []) + Resolved(lookups))
      && (r.Err? ==> && r.error.TxHashFailed?
                     && r.error.index < |lookups|
                     && lookups[r.error.index].None?
                     && AllResolve(lookups[..r.error.index]))
  {
    var n := |lookups|;
    var r := ElementList(lookups);
    assert lookups[0..] == lookups;
    if r.Ok? {
      var expected := seq(n, _ => []) + Resolved(lookups);
      assert |r.value| == |expected| == 2 * n;
      forall k | 0 <= k < 2 * n
        ensures r.value[k] == expected[k]
      {
        if k < n {
          assert r.value[k] == r.value[..n][k];
        } else {
          assert Some(r.value[n + (k - n) - 0]) == lookups[k - n];
        }
      }
    } else {
      assert lookups[0..r.error.index] == lookups[..r.error.index];
    }
  }

  /** The length the code produces differs from the n hashes the list is
      evidently meant to hold whenever the block has a transaction. */
  lemma ElementListDoubled(lookups: seq<Option<Hash>>)
    requires AllResolve(lookups) && |lookups| > 0
    ensures ElementList(lookups).Ok?
    ensures ElementList(lookups).value != Resolved(lookups)
    ensures ElementList(lookups).value[0] == []
  {
    ElementListShape(lookups);
  }

  /** generateFilterForBlock: the element list, then the builder with
      FilterP and the fixed key; a failure of either is returned as is. */
  function GenerateFilter(build: GcsBuilder, b: Block): (r: Result<Bytes>)
    ensures !AllResolve(b.txHashes) ==>
      && r.Err? && r.error.TxHashFailed?
      && r.error.index < |b.txHashes|
      && b.txHashes[r.error.index].None?
      && AllResolve(b.txHashes[..r.error.index])
    ensures AllResolve(b.txHashes) ==>
      match build(FilterP, FilterKey(), seq(|b.txHashes|, _ => []) + Resolved(b.txHashes))
      case Built(f) => r == Ok(f)
      case BuildFailed(code) => r == Err(GcsFailed(code))
    ensures (r.Err? && r.error.TxHashFailed?) <==> !AllResolve(b.txHashes)
    ensures r.Err? ==> r.error.TxHashFailed? || r.error.GcsFailed?
  {
    ElementListShape(b.txHashes);
    match ElementList(b.txHashes)
    case Err(e) => Err(e)
    case Ok(elements) =>
      match build(FilterP, FilterKey(), elements)
      case Built(f) => Ok(f)
      case BuildFailed(code) => Err(GcsFailed(code))
  }

  /** Filter bytes depend only on the block's transaction hashes: two
      blocks with the same hash list get identical results, whatever their
      own hashes. */
  lemma GenerateFilterDeterministic(build: GcsBuilder, a: Block, b: Block)
    requires a.txHashes == b.txHashes
    ensures GenerateFilter(build, a) == GenerateFilter(build, b)
  {
  }
}
