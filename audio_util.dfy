/** The backend's byte helpers (`audio.py`): splitting a buffer into fixed-size
    chunks and the base 64 text of a buffer. */
module AudioUtil {
  import opened Wrappers
  import opened Base64

  /** The chunks laid end to end. */
  function Flatten(chunks: seq<seq<byte>>): seq<byte> {
    if chunks == [] then [] else chunks[0] + Flatten(chunks[1..])
  }

  function Min(a: int, b: int): int {
    if a < b then a else b
  }

  /** The slices `data[i:i+k]` for i = 0, k, 2k, ... below `len(data)`: laid end to
      end they give the data back, none is empty, none is longer than `k`, and
      every one but the last is exactly `k` long. */
  function Chunks(data: seq<byte>, k: int): (r: seq<seq<byte>>)
    requires k > 0
    ensures Flatten(r) == data
    ensures forall i :: 0 <= i < |r| ==> 0 < |r[i]| <= k
    ensures forall i :: 0 <= i < |r| - 1 ==> |r[i]| == k
    decreases |data|
  {
    if |data| == 0 then []
    else
      var n := Min(k, |data|);
      var rest := Chunks(data[n..], k);
      assert data == data[..n] + data[n..];
      [data[..n]] + rest
  }

  /** There are `ceil(len(data) / k)` chunks, that is the `c` with
      `(c - 1) * k < len(data) <= c * k`; none for empty data. */
  lemma {:induction false} ChunkCount(data: seq<byte>, k: int)
    requires k > 0
    ensures |data| == 0 <==> |Chunks(data, k)| == 0
    ensures |data| > 0 ==> (|Chunks(data, k)| - 1) * k < |data| <= |Chunks(data, k)| * k
    decreases |data|
  {
    if |data| > k {
      var rest := Chunks(data[k..], k);
      ChunkCount(data[k..], k);
      assert |Chunks(data, k)| == |rest| + 1;
      CountStep(|rest|, k, |data|);
    } else if |data| > 0 {
      assert |Chunks(data, k)| == 1;
    }
  }

  /** One more chunk covers k more bytes. */
  lemma CountStep(c: int, k: int, n: int)
    requires (c - 1) * k < n - k <= c * k
    ensures c * k < n <= (c + 1) * k
  {
    assert (c - 1) * k + k == c * k;
    assert c * k + k == (c + 1) * k;
  }

  /** `chunk_bytes`: raises for a size that is not positive. */
  function ChunkBytes(data: seq<byte>, chunkSize: int): (r: Result<seq<seq<byte>>>)
    ensures r.Err? <==> chunkSize <= 0
    ensures r.Err? ==> r.error == Error(ValueError, "chunk_size must be > 0")
    ensures r.Ok? ==> Flatten(r.value) == data
    ensures r.Ok? && |data| == 0 ==> r.value == []
    ensures r.Ok? && |data| > 0 ==> (|r.value| - 1) * chunkSize < |data| <= |r.value| * chunkSize
    ensures r.Ok? ==> forall i :: 0 <= i < |r.value| ==> 0 < |r.value[i]| <= chunkSize
    ensures r.Ok? ==> forall i :: 0 <= i < |r.value| - 1 ==> |r.value[i]| == chunkSize
  {
    if chunkSize <= 0 then Raise(ValueError, "chunk_size must be > 0")
    else
      ChunkCount(data, chunkSize);
      Ok(Chunks(data, chunkSize))
  }

  /** `bytes_to_b64`: the section 4 encoding of RFC 4648, which decodes back to
      the same bytes. */
  function BytesToB64(data: seq<byte>): (r: string)
    ensures Decode(r) == Some(data)
    ensures |r| == 4 * ((|data| + 2) / 3)
  {
    DecodeEncode(data);
    EncodeLength(data);
    Encode(data)
  }
}
