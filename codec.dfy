/**
 * compress.go and decompress.go: a value is rendered as JSON and then, by
 * the compression-library selector, gzip-compressed, Snappy-compressed or
 * stored as it is; reading reverses the steps. The JSON library and the two
 * stream compressors are library code, passed in as function values.
 */
module Codec {
  import opened Common
  import opened Constants

  /** The two stream compressors the selector can choose between. */
  datatype Transforms = Transforms(gzip: Transform, snappy: Transform)

  /** `CompressStruct`: marshal, then compress as `lib` selects. */
  function CompressStruct<T>(json: Json<T, Bytes>, t: Transforms, s: T, lib: int): (r: Result<Bytes>)
    ensures r.Ok? ==> json.marshal(s).Ok?
    ensures json.marshal(s).Err? ==> r == Err(Wrapped("unable to marshal struct", json.marshal(s).error))
    ensures lib != GzipCompressionType && lib != SnappyCompressionType && json.marshal(s).Ok? ==>
      r == Ok(json.marshal(s).value)
  {
    match json.marshal(s)
    case Err(e) => Err(Wrapped("unable to marshal struct", e))
    case Ok(b) =>
      if lib == GzipCompressionType then t.gzip.compress(b)
      else if lib == SnappyCompressionType then t.snappy.compress(b)
      else Ok(b)
  }

  /** The error `DecompressStruct` reports when the JSON text does not parse. */
  function Unmarshal<T>(json: Json<T, Bytes>, b: Bytes): (r: Result<T>)
    ensures json.unmarshal(b).Ok? ==> r == json.unmarshal(b)
    ensures json.unmarshal(b).Err? ==>
      r == Err(Wrapped("unable to unmarshal for struct decompression", json.unmarshal(b).error))
  {
    match json.unmarshal(b)
    case Ok(v) => Ok(v)
    case Err(e) => Err(Wrapped("unable to unmarshal for struct decompression", e))
  }

  /**
   * `DecompressStruct`: decompress as `lib` selects, then unmarshal. A
   * decompression error is reported as the reader produced it, unwrapped.
   */
  function DecompressStruct<T>(json: Json<T, Bytes>, t: Transforms, data: Bytes, lib: int): (r: Result<T>)
    ensures lib != GzipCompressionType && lib != SnappyCompressionType ==> r == Unmarshal(json, data)
    ensures lib == GzipCompressionType && t.gzip.decompress(data).Err? ==> r == Err(t.gzip.decompress(data).error)
    ensures lib == SnappyCompressionType && t.snappy.decompress(data).Err? ==> r == Err(t.snappy.decompress(data).error)
  {
    if lib == GzipCompressionType then
      match t.gzip.decompress(data)
      case Err(e) => Err(e)
      case Ok(b) => Unmarshal(json, b)
    else if lib == SnappyCompressionType then
      match t.snappy.decompress(data)
      case Err(e) => Err(e)
      case Ok(b) => Unmarshal(json, b)
    else
      Unmarshal(json, data)
  }

  /** The transform a selector stands for; every other selector stores plain JSON. */
  function Selected(t: Transforms, lib: int): Option<Transform>
  {
    if lib == GzipCompressionType then Some(t.gzip)
    else if lib == SnappyCompressionType then Some(t.snappy)
    else None
  }

  /**
   * Writing: a marshal failure is reported, wrapped, before any compression
   * is attempted; otherwise the result is exactly what the selected
   * compressor makes of the JSON text, or the text itself for any selector
   * other than gzip and Snappy (0 and 3 included).
   */
  lemma CompressBySelector<T>(json: Json<T, Bytes>, t: Transforms, s: T, lib: int)
    ensures json.marshal(s).Err? ==>
      CompressStruct(json, t, s, lib) == Err(Wrapped("unable to marshal struct", json.marshal(s).error))
    ensures json.marshal(s).Ok? && Selected(t, lib).None? ==>
      CompressStruct(json, t, s, lib) == json.marshal(s)
    ensures json.marshal(s).Ok? && Selected(t, lib).Some? ==>
      CompressStruct(json, t, s, lib) == Selected(t, lib).value.compress(json.marshal(s).value)
  {
  }

  /**
   * Reading: a failing reader's error comes back unwrapped, an unparsable
   * text comes back wrapped, and a success is what the JSON library parses
   * from the decompressed bytes.
   */
  lemma DecompressBySelector<T>(json: Json<T, Bytes>, t: Transforms, data: Bytes, lib: int)
    ensures Selected(t, lib).None? ==> DecompressStruct(json, t, data, lib) == Unmarshal(json, data)
    ensures Selected(t, lib).Some? && Selected(t, lib).value.decompress(data).Err? ==>
      DecompressStruct(json, t, data, lib) == Err(Selected(t, lib).value.decompress(data).error)
    ensures Selected(t, lib).Some? && Selected(t, lib).value.decompress(data).Ok? ==>
      DecompressStruct(json, t, data, lib) == Unmarshal(json, Selected(t, lib).value.decompress(data).value)
    ensures DecompressStruct(json, t, data, lib).Ok? ==>
      exists b :: json.unmarshal(b) == DecompressStruct(json, t, data, lib)
  {
    if DecompressStruct(json, t, data, lib).Ok? {
      var b := if Selected(t, lib).None? then data else Selected(t, lib).value.decompress(data).value;
      assert json.unmarshal(b) == DecompressStruct(json, t, data, lib);
    }
  }

  /**
   * The round trip: under every selector, reading back what
   * `CompressStruct` wrote restores the value, provided the JSON library
   * and the compressors read back what they write.
   */
  lemma DecompressCompress<T(!new)>(json: Json<T, Bytes>, t: Transforms, s: T, lib: int)
    requires Faithful(json) && Invertible(t.gzip) && Invertible(t.snappy)
    requires CompressStruct(json, t, s, lib).Ok?
    ensures DecompressStruct(json, t, CompressStruct(json, t, s, lib).value, lib) == Ok(s)
  {
    var b := json.marshal(s).value;
    assert json.unmarshal(b) == Ok(s);
    if lib == GzipCompressionType {
      assert t.gzip.decompress(t.gzip.compress(b).value) == Ok(b);
    } else if lib == SnappyCompressionType {
      assert t.snappy.decompress(t.snappy.compress(b).value) == Ok(b);
    }
  }
}
