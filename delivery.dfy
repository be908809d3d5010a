/** The message format and the chunking of a batch into messages. */
module Delivery {

  /** Most lines in one published message. */
  const MaxObjCount: nat := 10

  /** A published message: the send time in epoch milliseconds and the lines. */
  datatype Payload = Payload(timestamp: int, data: seq<string>)

  /** Length of the first chunk of `values`: `values.slice(0, MaxObjCount)`. */
  function ChunkEnd(values: seq<string>): (n: nat)
    ensures n <= |values| && n <= MaxObjCount
    ensures n == MaxObjCount || n == |values|
  {
    if |values| < MaxObjCount then |values| else MaxObjCount
  }

  /** The chunks a batch is published in when every publish succeeds. */
  function Chunks(values: seq<string>): seq<seq<string>>
    decreases |values|
  {
    if values == [] then []
    else [values[..ChunkEnd(values)]] + Chunks(values[ChunkEnd(values)..])
  }

  /** The concatenation of a sequence of chunks. */
  function Flatten(chunks: seq<seq<string>>): seq<string>
  {
    if chunks == [] then [] else chunks[0] + Flatten(chunks[1..])
  }

  /** `Math.ceil(n / MaxObjCount)`: the message count logged before a batch. */
  function MessageCount(n: nat): nat
  {
    (n + MaxObjCount - 1) / MaxObjCount
  }

  /** Chunks put back together give the batch: nothing lost, duplicated or
      reordered. */
  lemma {:induction false} FlattenChunks(values: seq<string>)
    ensures Flatten(Chunks(values)) == values
    decreases |values|
  {
    if values != [] {
      var k := ChunkEnd(values);
      FlattenChunks(values[k..]);
      assert values[..k] + values[k..] == values;
    }
  }

  /** There are ceil(n / 10) chunks, each non-empty and at most 10 long, and
      every chunk except the last is full. */
  lemma {:induction false} ChunkShape(values: seq<string>)
    ensures |Chunks(values)| == MessageCount(|values|)
    ensures forall i :: 0 <= i < |Chunks(values)| ==> 1 <= |Chunks(values)[i]| <= MaxObjCount
    ensures forall i :: 0 <= i < |Chunks(values)| - 1 ==> |Chunks(values)[i]| == MaxObjCount
    decreases |values|
  {
    if values != [] {
      var k := ChunkEnd(values);
      ChunkShape(values[k..]);
      var cs := Chunks(values);
      assert cs == [values[..k]] + Chunks(values[k..]);
      if |values| < MaxObjCount {
        assert Chunks(values[k..]) == [];
      }
      forall i | 1 <= i < |cs| ensures cs[i] == Chunks(values[k..])[i - 1] { }
    }
  }

  /** Twenty-five lines go out as three messages of 10, 10 and 5 lines. */
  lemma TwentyFiveLines(values: seq<string>)
    requires |values| == 25
    ensures Chunks(values) == [values[..10], values[10..20], values[20..]]
  {
    var r1 := values[10..];
    var r2 := r1[10..];
    assert r1[..10] == values[10..20];
    assert r2 == values[20..];
    assert r2[5..] == [];
    assert Chunks(r2) == [r2] by {
      assert r2[..5] == r2;
    }
  }
}
