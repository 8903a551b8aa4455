/** Information blocks and the sequence operations both the file handler and
    the UI perform on the ordered block list. */
module Blocks {
  import opened Wrappers
  import opened Json

  function Min(a: int, b: int): int { if a <= b then a else b }
  function Max(a: int, b: int): int { if a <= b then b else a }

  /** The identity of an information block. The source mints it from the clock
      (`Date.now()`, plus `Math.random()` in the UI) and only ever compares
      it, so the model keeps it as an opaque value with equality. */
  datatype BlockId = BlockId(stamp: real)

  /** An information block: its id, its text, and its metadata object when it
      has one (blocks appended by the UI carry none). */
  datatype Block = Block(id: BlockId, content: string, metadata: Option<Json>)

  /** A block with the neighbours shown to the model when a question is asked
      about it. */
  datatype Window = Window(main: Block, before: seq<Block>, after: seq<Block>)

  /** `Array.prototype.slice(start, end)` for non-negative arguments: both
      bounds are clamped to the length, and an empty or reversed range gives
      nothing. */
  function Slice<T>(s: seq<T>, start: nat, end: nat): (r: seq<T>)
    ensures |r| == Max(0, Min(end, |s|) - Min(start, |s|))
    ensures forall k :: 0 <= k < |r| ==> start + k < |s| && r[k] == s[start + k]
    ensures start <= end <= |s| ==> r == s[start..end]
  {
    var lo := Min(start, |s|);
    var hi := Min(end, |s|);
    if lo < hi then s[lo..hi] else []
  }

    /** A run of a list around position `i` is the part before `i`, the element
      at `i` and the part after it. */
  lemma RunAround<T>(s: seq<T>, lo: nat, i: nat, hi: nat)
    requires lo <= i < hi <= |s|
    ensures s[lo..hi] == s[lo..i] + [s[i]] + s[i + 1..hi]
  {
    assert s[lo..hi] == s[lo..i] + s[i..hi];
    assert s[i..hi] == [s[i]] + s[i + 1..hi];
  }

/** `blocks.filter(b => b.id !== id)`. */
  function WithoutId(blocks: seq<Block>, id: BlockId): (r: seq<Block>)
    ensures forall b :: b in r <==> b in blocks && b.id != id
    ensures |r| <= |blocks|
  {
    if |blocks| == 0 then []
    else if blocks[0].id == id then WithoutId(blocks[1..], id)
    else [blocks[0]] + WithoutId(blocks[1..], id)
  }

  /** On a single block the filter keeps it exactly when its id differs.
      With `WithoutIdAppend` this fixes the filter on every list: the blocks
      that survive keep their order and their multiplicity. */
  lemma WithoutIdOne(b: Block, id: BlockId)
    ensures WithoutId([b], id) == if b.id == id then [] else [b]
  {
    assert [b][1..] == [];
  }

  /** The filter keeps every block with another id as many times as it
      occurred, and no block with the id. */
  lemma {:induction false} WithoutIdCounts(blocks: seq<Block>, id: BlockId)
    ensures forall b :: multiset(WithoutId(blocks, id))[b] == if b.id == id then 0 else multiset(blocks)[b]
    decreases |blocks|
  {
    if |blocks| > 0 {
      WithoutIdCounts(blocks[1..], id);
      assert blocks == [blocks[0]] + blocks[1..];
      assert multiset(blocks) == multiset([blocks[0]]) + multiset(blocks[1..]);
      if blocks[0].id != id {
        var rest := WithoutId(blocks[1..], id);
        assert multiset([blocks[0]] + rest) == multiset([blocks[0]]) + multiset(rest);
      }
    }
  }

  /** Filtering keeps relative order: it works piecewise on a concatenation. */
  lemma {:induction false} WithoutIdAppend(a: seq<Block>, b: seq<Block>, id: BlockId)
    ensures WithoutId(a + b, id) == WithoutId(a, id) + WithoutId(b, id)
    decreases |a|
  {
    if |a| == 0 {
      assert a + b == b;
    } else {
      assert (a + b)[0] == a[0];
      assert (a + b)[1..] == a[1..] + b;
      WithoutIdAppend(a[1..], b, id);
    }
  }

  /** Removing an id no block carries changes nothing. */
  lemma {:induction false} WithoutIdAbsent(blocks: seq<Block>, id: BlockId)
    requires forall k :: 0 <= k < |blocks| ==> blocks[k].id != id
    ensures WithoutId(blocks, id) == blocks
    decreases |blocks|
  {
    if |blocks| > 0 {
      WithoutIdAbsent(blocks[1..], id);
      assert blocks == [blocks[0]] + blocks[1..];
    }
  }

  /** Removing the same id twice is removing it once. */
  lemma WithoutIdIdempotent(blocks: seq<Block>, id: BlockId)
    ensures WithoutId(WithoutId(blocks, id), id) == WithoutId(blocks, id)
  {
    var r := WithoutId(blocks, id);
    assert forall k :: 0 <= k < |r| ==> r[k] in r;
    WithoutIdAbsent(r, id);
  }
}
