/** The compression codec of the RPC runtime (micro/rpc/Compressor/types.go):
    a compressor is identified by a one-byte code and transforms bytes both
    ways, either of which may fail. */
module RpcCompressor {
  import opened Wrappers

  newtype byte = b: int | 0 <= b < 256

  /** A failure of a codec, with its message. */
  datatype CodecError = CodecError(message: string)

  /** Compressor: Code, Compress and Decompress. */
  datatype Compressor = Compressor(code: byte,
                                   compress: seq<byte> -> Result<seq<byte>, CodecError>,
                                   decompress: seq<byte> -> Result<seq<byte>, CodecError>)

  /** A compressor whose decompression undoes its compression on every input. */
  ghost predicate RoundTrips(c: Compressor)
  {
    forall data :: c.compress(data).Success? ==> c.decompress(c.compress(data).value) == Success(data)
  }

  /** DefaultCompressor: code 0; both directions return their input unchanged
      and never fail. */
  function DefaultCompressor(): (c: Compressor)
    ensures c.code == 0
    ensures forall data :: c.compress(data) == Success(data) && c.decompress(data) == Success(data)
  {
    Compressor(0, data => Success(data), data => Success(data))
  }

  /** Decompress(Compress(x)) == x for every byte sequence. */
  lemma DefaultRoundTrips()
    ensures RoundTrips(DefaultCompressor())
  {
  }
}
