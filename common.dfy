/**
 * Shared vocabulary of the model: nilable values, Go's (value, error) returns,
 * durations, byte strings, and the library code the system calls but does
 * not implement (JSON codecs, stream compressors), which is passed around as
 * function values together with the round-trip assumptions made about it.
 */
module Common {

  /** A Go pointer or interface value that may be nil. */
  datatype Option<+T> = None | Some(value: T)

  /**
   * A Go error. `Wrapped` is what `errors.Wrap(cause, msg)` produces; the
   * messages are the ones written in the source.
   */
  datatype Error = Error(msg: string) | Wrapped(msg: string, cause: Error)

  /** The `(T, error)` pair of a Go call whose value is meaningless on error. */
  datatype Result<+T> = Ok(value: T) | Err(error: Error)

  /**
   * The `(*response, error)` pair returned by a remote call and by the
   * orchestrator: both halves are kept, because the cache-disabled path hands
   * back whatever the remote call returned, verbatim.
   */
  datatype Reply<R> = Reply(resp: Option<R>, err: Option<Error>)

  function Fail<R>(e: Error): (r: Reply<R>)
    ensures r.resp.None? && r.err == Some(e)
  {
    Reply(None, Some(e))
  }

  /** The identity of a user-supplied implementation behind a Go interface value. */
  type Handle = nat

  /** A caller's `context.Context`; the model only passes it along. */
  datatype Context = Context(id: nat)

  newtype uint8 = x: int | 0 <= x < 256

  type Bytes = seq<uint8>

  const NanosPerSecond: int := 1_000_000_000

  /**
   * `int64(d.Seconds())` for a duration of `d` nanoseconds: the number of
   * whole seconds, truncated toward zero (Dafny's `/` is Euclidean, so the
   * negative case is written out).
   */
  function WholeSeconds(d: int): (s: int)
    ensures d >= 0 ==> 0 <= s && s * NanosPerSecond <= d < (s + 1) * NanosPerSecond
    ensures d < 0 ==> s <= 0 && -d - NanosPerSecond < -s * NanosPerSecond <= -d
  {
    if d >= 0 then d / NanosPerSecond else -((-d) / NanosPerSecond)
  }

  /**
   * A JSON library configuration: `marshal` renders a value as text of type
   * `X` (a string or a byte slice), `unmarshal` parses text into a value.
   * Either may fail.
   */
  datatype Json<!T, !X> = Json(marshal: T -> Result<X>, unmarshal: X -> Result<T>)

  /** What the model assumes of a JSON library: it reads back what it writes. */
  ghost predicate Faithful<T(!new), X>(j: Json<T, X>)
  {
    forall v | j.marshal(v).Ok? :: j.unmarshal(j.marshal(v).value) == Ok(v)
  }

  /** A byte-stream compressor (gzip, Snappy framing) and its reader. */
  datatype Transform = Transform(compress: Bytes -> Result<Bytes>, decompress: Bytes -> Result<Bytes>)

  /** What the model assumes of a compressor: its reader restores its input. */
  ghost predicate Invertible(t: Transform)
  {
    forall b | t.compress(b).Ok? :: t.decompress(t.compress(b).value) == Ok(b)
  }
}
