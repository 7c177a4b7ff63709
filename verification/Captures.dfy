/** Reading one capture within its limit (the read loop of read_allowlisted_file in
    captures.py). */
module Captures {
  import opened Prelude

  type Byte = x: int | 0 <= x < 256

  /** What the system hands out on the `k`-th read: some non-empty part of what is
      left, of whatever size it likes, but no more than was asked for. */
  function PieceSize(sizes: nat -> nat, k: nat, asked: nat, left: nat): (size: nat)
    requires asked > 0 && left > 0
    ensures 1 <= size <= asked && size <= left
  {
    var most := if asked < left then asked else left;
    if sizes(k) == 0 then 1 else if sizes(k) > most then most else sizes(k)
  }

  /** However the reads fall, a file within the limit is captured whole, a longer one
      is refused, and never more than one byte past the limit is read. */
  method ReadWithinLimit(content: seq<Byte>, maxBytes: nat, sizes: nat -> nat)
    returns (data: Option<seq<Byte>>, consumed: nat)
    ensures data == if |content| <= maxBytes then Some(content) else None
    ensures consumed == if |content| <= maxBytes then |content| else maxBytes + 1
  {
    var chunks: seq<Byte> := [];
    var remaining, k := maxBytes + 1, 0;
    while remaining > 0
      invariant |chunks| <= |content| && chunks == content[..|chunks|]
      invariant 0 <= remaining == maxBytes + 1 - |chunks|
      decreases remaining
    {
      var left := |content| - |chunks|;
      if left == 0 {
        break;
      }
      var size := PieceSize(sizes, k, remaining, left);
      chunks := chunks + content[|chunks|..|chunks| + size];
      remaining := remaining - size;
      k := k + 1;
    }
    assert |chunks| == |content| ==> chunks == content;
    consumed := |chunks|;
    data := if |chunks| > maxBytes then None else Some(chunks);
  }
}
