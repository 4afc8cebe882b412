/** AES-256 in CBC mode (section 6.2 of NIST SP 800-38A) as `AES.new(key, AES.MODE_CBC, iv)`
    uses it. The block cipher itself is a parameter: the model chains blocks but does not compute
    AES, and the one property it relies on is that decryption inverts encryption under the same key. */
module Cbc {
  import opened Bytes
  import opened Wrappers

  const BlockLength := 16
  const KeyLength := 32

  type Block = b: seq<byte> | |b| == BlockLength witness seq(BlockLength, _ => 0)
  type Key = k: seq<byte> | |k| == KeyLength witness seq(KeyLength, _ => 0)

  /** A block cipher: the forward and inverse permutations of one block under a key. */
  datatype BlockCipher = BlockCipher(encrypt: (Key, Block) -> Block, decrypt: (Key, Block) -> Block)

  /** The cipher's inverse permutation undoes its forward one, key by key. */
  ghost predicate Inverts(c: BlockCipher) {
    forall k: Key, b: Block :: c.decrypt(k, c.encrypt(k, b)) == b
  }

  /** The ways the CBC object rejects its input; each is a `ValueError`. */
  datatype CbcError = BadIvLength | NotBlockAligned

  /** `cipher.encrypt(data)`: each block is XORed with the previous ciphertext block (the IV for
      the first) and then enciphered. */
  function Encrypt(c: BlockCipher, key: Key, iv: Block, data: seq<byte>): (r: seq<byte>)
    requires |data| % BlockLength == 0
    ensures |r| == |data|
    decreases |data|
  {
    if |data| == 0 then []
    else
      var x: Block := XorAll(data[..BlockLength], iv);
      var ct := c.encrypt(key, x);
      ct + Encrypt(c, key, ct, data[BlockLength..])
  }

  /** `cipher.decrypt(data)`: each block is deciphered and then XORed with the previous
      ciphertext block. Data that is not a whole number of blocks is refused. */
  function Decrypt(c: BlockCipher, key: Key, iv: Block, data: seq<byte>): (r: Result<seq<byte>, CbcError>)
    ensures r.Ok? <==> |data| % BlockLength == 0
    ensures r.Ok? ==> |r.value| == |data|
  {
    if |data| % BlockLength != 0 then Err(NotBlockAligned) else Ok(DecryptBlocks(c, key, iv, data))
  }

  function DecryptBlocks(c: BlockCipher, key: Key, iv: Block, data: seq<byte>): (r: seq<byte>)
    requires |data| % BlockLength == 0
    ensures |r| == |data|
    decreases |data|
  {
    if |data| == 0 then []
    else
      var ct: Block := data[..BlockLength];
      XorAll(c.decrypt(key, ct), iv) + DecryptBlocks(c, key, ct, data[BlockLength..])
  }

  /** `AES.new(key, AES.MODE_CBC, iv)` followed by `decrypt`: an IV that is not one block long is
      refused before any data is looked at. */
  function DecryptWithIv(c: BlockCipher, key: Key, iv: seq<byte>, data: seq<byte>): (r: Result<seq<byte>, CbcError>)
    ensures |iv| != BlockLength ==> r == Err(BadIvLength)
    ensures r.Ok? <==> |iv| == BlockLength && |data| % BlockLength == 0
  {
    if |iv| != BlockLength then Err(BadIvLength) else Decrypt(c, key, iv, data)
  }

  /** With a cipher whose decryption inverts its encryption, CBC decryption under the same key
      and IV gives back the plaintext. */
  lemma {:induction false} DecryptEncrypt(c: BlockCipher, key: Key, iv: Block, data: seq<byte>)
    requires Inverts(c)
    requires |data| % BlockLength == 0
    ensures Decrypt(c, key, iv, Encrypt(c, key, iv, data)) == Ok(data)
    decreases |data|
  {
    if |data| > 0 {
      var x: Block := XorAll(data[..BlockLength], iv);
      var ct := c.encrypt(key, x);
      var rest := Encrypt(c, key, ct, data[BlockLength..]);
      var e: seq<byte> := ct + rest;
      assert e[..BlockLength] == ct && e[BlockLength..] == rest;
      assert c.decrypt(key, ct) == x;
      XorAllCancel(data[..BlockLength], iv);
      DecryptEncrypt(c, key, ct, data[BlockLength..]);
      assert data[..BlockLength] + data[BlockLength..] == data;
    }
  }
}
