/** PKCS#7 padding (section 6.3 of RFC 5652) as `Crypto.Util.Padding.pad` and `unpad` implement
    it with the default `'pkcs7'` style. */
module Pkcs7 {
  import opened Bytes
  import opened Wrappers

  /** `AES.block_size`, the only block size the payload uses. */
  const BlockSize := 16

  /** The ways `unpad` rejects its input; each is a `ValueError`. */
  datatype UnpadError = ZeroLength | NotBlockMultiple | BadPadLength | BadPadBytes

  /** `pad(data, 16)`: append `p = 16 - |data| % 16` octets of value `p`. */
  function Pad(data: seq<byte>): (r: seq<byte>)
    ensures |r| % BlockSize == 0 && |data| < |r| <= |data| + BlockSize
    ensures r[..|data|] == data
    ensures forall i :: |data| <= i < |r| ==> r[i] == |r| - |data|
  {
    var p := BlockSize - |data| % BlockSize;
    data + seq(p, _ => p)
  }

  /** `unpad(data, 16)`: the last octet `p` must lie in `1..16` and the last `p` octets must all be
      `p`; they are removed. */
  function Unpad(data: seq<byte>): (r: Result<seq<byte>, UnpadError>)
    ensures r.Ok? ==> |data| - BlockSize <= |r.value| < |data| && r.value == data[..|r.value|]
  {
    if |data| == 0 then Err(ZeroLength)
    else if |data| % BlockSize != 0 then Err(NotBlockMultiple)
    else
      var p := data[|data| - 1];
      if p < 1 || p > BlockSize || p > |data| then Err(BadPadLength)
      else if data[|data| - p..] != seq(p, _ => p) then Err(BadPadBytes)
      else Ok(data[..|data| - p])
  }

  /** Unpadding undoes padding. */
  lemma UnpadPad(data: seq<byte>)
    ensures Unpad(Pad(data)) == Ok(data)
  {
    var r := Pad(data);
    var p := BlockSize - |data| % BlockSize;
    assert r[|r| - 1] == p;
    assert r[|r| - p..] == seq(p, _ => p);
  }

  /** What `unpad` accepts is exactly what `pad` produces: an accepted input is the padding of
      its own result. */
  lemma PadUnpad(data: seq<byte>)
    requires Unpad(data).Ok?
    ensures Pad(Unpad(data).value) == data
  {
    var p := data[|data| - 1] as int;
    var m := data[..|data| - p];
    assert |m| % BlockSize == (BlockSize - p) % BlockSize by {
      assert |data| == |m| + p;
      ModShift(|data|, p);
    }
    assert data == m + data[|data| - p..];
  }

  lemma ModShift(n: nat, p: nat)
    requires 0 < p <= BlockSize && p <= n && n % BlockSize == 0
    ensures BlockSize - (n - p) % BlockSize == p
  {
    var q := n / BlockSize;
    assert n == q * BlockSize;
    if p == BlockSize {
      assert n - p == (q - 1) * BlockSize;
    } else {
      assert q >= 1;
      assert n - p == (q - 1) * BlockSize + (BlockSize - p);
    }
  }
}
