/**
 * heimdall.go: the read-through cache with soft and hard TTLs. `getData`
 * either calls the remote procedure directly (cache skipped), or serves
 * from a cache entry and falls back to the remote call when the entry is
 * missing or unreadable; a stale entry is still served, and a background
 * refresh is scheduled. Every effect a call has is recorded: backend Get
 * and Set operations, metric increments, background actions (which the
 * source starts as goroutines and the model keeps pending until
 * `RunPending` runs one), and the number of remote calls made.
 *
 * The pure core, `GetDataSpec`, says what one call returns and does; the
 * `Orchestrator` class performs it step by step on its state and is proved
 * to agree with it.
 */
module Heimdall {
  import opened Common
  import Codec
  import Policy

  /** A cache entry: when it was written (Unix seconds), its soft TTL (nanoseconds) and the response as JSON text. */
  datatype CacheValue = CacheValue(updatedTS: int, softTTL: int, data: string)

  /** The library code the orchestrator relies on: the JSON codec of responses, the one of entries, and the compressors. */
  datatype Codecs<!R> = Codecs(response: Json<R, string>, entry: Json<CacheValue, Bytes>, transforms: Codec.Transforms)

  /** All of that library code reads back what it writes. */
  ghost predicate Trustworthy<R(!new)>(c: Codecs<R>)
  {
    Faithful(c.response) && Faithful(c.entry) && Invertible(c.transforms.gzip) && Invertible(c.transforms.snappy)
  }

  /** A remote call: the reply it gives when made at clock reading `t` (Unix seconds). */
  type RpcCall<R> = int -> Reply<R>

  /** The arguments of one `getData` call. */
  datatype Call<!R> = Call(
    rpcCall: RpcCall<R>,
    name: string,
    key: string,
    softTTL: int,
    hardTTL: int,
    readFromCache: bool,
    writeToCache: R -> bool)

  /** What the cache backend holds under a key: the encoded entry and the hard TTL it was set with. */
  datatype Stored = Stored(value: Bytes, ttl: int)

  datatype BackendOp = Get(key: string) | Set(key: string, value: Bytes, ttl: int)

  datatype Metric = Miss(name: string) | SoftHit(name: string) | Hit(name: string)

  /**
   * A background action: the write-back a miss schedules (heimdall.go
   * line 116), or the refresh a soft hit schedules (lines 126-133).
   */
  datatype Pending<!R> = WriteBack(resp: Option<R>, call: Call<R>) | Refresh(call: Call<R>)

  /** Everything one `getData` call does. */
  datatype Effects<!R> = Effects(
    reply: Reply<R>,
    ops: seq<BackendOp>,
    metrics: seq<Metric>,
    spawned: seq<Pending<R>>,
    calls: nat)

  // ---------------------------------------------------------------------
  // The pure helpers of heimdall.go

  /**
   * `isPastSoftTTLThreshhold` with the clock reading `now`: strictly past the
   * entry's whole soft seconds. For a non-negative soft TTL an entry is never
   * stale before that TTL has elapsed since its stamp, and always stale once
   * a further second has passed; a sub-second soft TTL is stale from the
   * first second after the stamp.
   */
  function IsPastSoftTTLThreshold(v: CacheValue, now: int): (past: bool)
    ensures v.softTTL >= 0 && past ==> (now - v.updatedTS) * NanosPerSecond > v.softTTL
    ensures v.softTTL >= 0 && (now - v.updatedTS - 1) * NanosPerSecond >= v.softTTL ==> past
    ensures 0 <= v.softTTL < NanosPerSecond ==> (past <==> now > v.updatedTS)
  {
    v.updatedTS + WholeSeconds(v.softTTL) < now
  }

  /** The JSON text of a possibly nil response; nil is rendered `null`. */
  function MarshalResponse<R>(json: Json<R, string>, resp: Option<R>): Result<string>
  {
    match resp
    case None => Ok("null")
    case Some(r) => json.marshal(r)
  }

  /** `makeCacheValue` with the clock reading `now`. */
  function MakeCacheValue<R>(json: Json<R, string>, resp: Option<R>, softTTL: int, now: int): (r: Result<CacheValue>)
    ensures r.Ok? <==> MarshalResponse(json, resp).Ok?
    ensures r.Ok? ==> r.value.updatedTS == now && r.value.softTTL == softTTL
    ensures r.Ok? && resp.Some? ==> json.marshal(resp.value) == Ok(r.value.data)
    ensures r.Ok? && resp.None? ==> r.value.data == "null"
    ensures r.Err? ==> r.error == Wrapped("unable to marshal rpc response", MarshalResponse(json, resp).error)
  {
    match MarshalResponse(json, resp)
    case Err(e) => Err(Wrapped("unable to marshal rpc response", e))
    case Ok(data) => Ok(CacheValue(now, softTTL, data))
  }

  /** `generateResp`: a fresh response parsed from the entry's JSON text, or the wrapped parse error. */
  function GenerateResp<R>(json: Json<R, string>, v: CacheValue): (r: Reply<R>)
    ensures r.err.None? <==> json.unmarshal(v.data).Ok?
    ensures r.err.None? ==> r.resp == Some(json.unmarshal(v.data).value)
    ensures r.err.Some? ==>
      r == Fail(Wrapped("unable to marshal cache value to rpc response", json.unmarshal(v.data).error))
  {
    match json.unmarshal(v.data)
    case Ok(resp) => Reply(Some(resp), None)
    case Err(e) => Fail(Wrapped("unable to marshal cache value to rpc response", e))
  }

  /** The reply made from an entry, or from the error met while obtaining one. */
  function Serve<R>(c: Codecs<R>, entry: Result<CacheValue>): Reply<R>
  {
    match entry
    case Err(e) => Fail(e)
    case Ok(v) => GenerateResp(c.response, v)
  }

  /** The error the cache backend reports for a key it does not hold; its text is the backend's own. */
  const KeyAbsent: Error := Error("key not found")

  /** The cache client's `Get`: the stored bytes, or the backend's error wrapped by the client. */
  function Lookup(store: map<string, Stored>, key: string): (r: Result<Bytes>)
    ensures r.Ok? <==> key in store
    ensures r.Ok? ==> r.value == store[key].value
  {
    if key in store then Ok(store[key].value) else Err(Wrapped("unable to pull from cache", KeyAbsent))
  }

  /** The value `fetchFromCache` yields: the backend's error, or the entry decoded with the selected compression. */
  function FetchedValue<R>(c: Codecs<R>, lib: int, store: map<string, Stored>, key: string): Result<CacheValue>
  {
    match Lookup(store, key)
    case Err(e) => Err(e)
    case Ok(b) => Codec.DecompressStruct(c.entry, c.transforms, b, lib)
  }

  /** The value `handleCacheMiss` yields from the remote reply. */
  function MissResult<R>(c: Codecs<R>, reply: Reply<R>, softTTL: int, now: int): Result<CacheValue>
  {
    if reply.err.Some? then Err(Wrapped("rpc call failed", reply.err.value))
    else MakeCacheValue(c.response, reply.resp, softTTL, now)
  }

  /** The write-back `handleCacheMiss` schedules: one after a successful remote call, none after a failed one. */
  function MissSpawn<R>(reply: Reply<R>, q: Call<R>): seq<Pending<R>>
  {
    if reply.err.Some? then [] else [WriteBack(reply.resp, q)]
  }

  /** A metric increment, dropped when no metrics provider is installed (`isSkipMetrics`). */
  function Emit(s: Policy.Settings, m: Metric): seq<Metric>
  {
    if s.metricsProvider.None? then [] else [m]
  }

  // ---------------------------------------------------------------------
  // What one call does

  /**
   * The entry `getData` holds when it reaches the staleness check on the
   * read path: the decoded cache entry, or else the value the miss handler
   * made from the remote reply.
   */
  function Entry<R>(c: Codecs<R>, s: Policy.Settings, store: map<string, Stored>, q: Call<R>, now: int): Result<CacheValue>
  {
    var fetched := FetchedValue(c, s.compressionLibrary, store, q.key);
    if fetched.Ok? then fetched else MissResult(c, q.rpcCall(now), q.softTTL, now)
  }

  /** `getData` called at clock reading `now` with settings `s` and backend contents `store`. */
  function GetDataSpec<R>(c: Codecs<R>, s: Policy.Settings, store: map<string, Stored>, q: Call<R>, now: int): (e: Effects<R>)
    ensures e.calls <= 1
    ensures e.ops == (if !s.skipCache && q.readFromCache then [Get(q.key)] else [])
    ensures e.calls == 0 <==> !s.skipCache && q.readFromCache && FetchedValue(c, s.compressionLibrary, store, q.key).Ok?
    ensures |e.spawned| <= 2
  {
    if s.skipCache then
      Effects(q.rpcCall(now), [], [], [], 1)
    else if !q.readFromCache then
      var reply := q.rpcCall(now);
      Effects(Serve(c, MissResult(c, reply, q.softTTL, now)), [], Emit(s, Miss(q.name)), MissSpawn(reply, q), 1)
    else
      var hit := FetchedValue(c, s.compressionLibrary, store, q.key).Ok?;
      var entry := Entry(c, s, store, q, now);
      var metrics := if hit then [] else Emit(s, Miss(q.name));
      var spawned := if hit then [] else MissSpawn(q.rpcCall(now), q);
      var calls := if hit then 0 else 1;
      if entry.Err? then
        Effects(Fail(entry.error), [Get(q.key)], metrics, spawned, calls)
      else if IsPastSoftTTLThreshold(entry.value, now) then
        Effects(GenerateResp(c.response, entry.value), [Get(q.key)],
                metrics + Emit(s, SoftHit(q.name)) + Emit(s, Hit(q.name)), spawned + [Refresh(q)], calls)
      else
        Effects(GenerateResp(c.response, entry.value), [Get(q.key)], metrics + Emit(s, Hit(q.name)), spawned, calls)
  }

  /**
   * The bytes `updateCache` sets under the key, if any: none for a nil
   * response, a response the write filter rejects, or a marshal or
   * compression failure.
   */
  function CacheWrite<R>(c: Codecs<R>, lib: int, resp: Option<R>, q: Call<R>, now: int): (w: Option<Bytes>)
    ensures w.Some? ==> resp.Some? && q.writeToCache(resp.value) && c.response.marshal(resp.value).Ok?
    ensures w.Some? ==>
      Codec.CompressStruct(c.entry, c.transforms, CacheValue(now, q.softTTL, c.response.marshal(resp.value).value), lib) == Ok(w.value)
  {
    if resp.None? || !q.writeToCache(resp.value) then None
    else
      match MakeCacheValue(c.response, resp, q.softTTL, now)
      case Err(_) => None
      case Ok(v) =>
        match Codec.CompressStruct(c.entry, c.transforms, v, lib)
        case Err(_) => None
        case Ok(b) => Some(b)
  }

  /** The bytes a background action sets when it runs at clock reading `now`. */
  function ActionWrite<R>(c: Codecs<R>, lib: int, a: Pending<R>, now: int): Option<Bytes>
  {
    match a
    case WriteBack(resp, q) => CacheWrite(c, lib, resp, q, now)
    case Refresh(q) =>
      var reply := q.rpcCall(now);
      if reply.err.Some? then None else CacheWrite(c, lib, reply.resp, q, now)
  }

  // ---------------------------------------------------------------------
  // Properties of one call

  /** With the cache skipped, the remote reply is returned verbatim and nothing else happens. */
  lemma SkipCacheIsTransparent<R>(c: Codecs<R>, s: Policy.Settings, store: map<string, Stored>, q: Call<R>, now: int)
    requires s.skipCache
    ensures GetDataSpec(c, s, store, q, now) == Effects(q.rpcCall(now), [], [], [], 1)
  {
  }

  /**
   * With reading disabled the backend is not touched, the remote call is
   * made once, its error comes back wrapped, a success still schedules a
   * write-back, and neither a soft hit nor a hit is counted.
   */
  lemma NoReadSkipsLookup<R>(c: Codecs<R>, s: Policy.Settings, store: map<string, Stored>, q: Call<R>, now: int)
    requires !s.skipCache && !q.readFromCache
    ensures var e := GetDataSpec(c, s, store, q, now);
      e.ops == [] && e.calls == 1 && e.metrics == Emit(s, Miss(q.name)) &&
      (q.rpcCall(now).err.Some? ==>
        e.reply == Fail(Wrapped("rpc call failed", q.rpcCall(now).err.value)) && e.spawned == []) &&
      (q.rpcCall(now).err.None? ==> e.spawned == [WriteBack(q.rpcCall(now).resp, q)])
  {
  }

  /** The read path asks the backend exactly once. */
  lemma ReadPathGetsOnce<R>(c: Codecs<R>, s: Policy.Settings, store: map<string, Stored>, q: Call<R>, now: int)
    requires !s.skipCache && q.readFromCache
    ensures GetDataSpec(c, s, store, q, now).ops == [Get(q.key)]
  {
  }

  /**
   * An absent or undecodable entry degrades to a miss with exactly one
   * remote call; if that call fails, its wrapped error is returned, nothing
   * is scheduled, and no hit is counted. If it succeeds with a response the
   * JSON library renders, the caller gets that response and its write-back
   * is the first thing scheduled: a broken entry never surfaces.
   */
  lemma UnusableEntryFallsBack<R(!new)>(c: Codecs<R>, s: Policy.Settings, store: map<string, Stored>, q: Call<R>, now: int)
    requires !s.skipCache && q.readFromCache
    requires FetchedValue(c, s.compressionLibrary, store, q.key).Err?
    ensures var e := GetDataSpec(c, s, store, q, now);
      e.calls == 1 && e.metrics[..|Emit(s, Miss(q.name))|] == Emit(s, Miss(q.name)) &&
      (q.rpcCall(now).err.Some? ==>
        e == Effects(Fail(Wrapped("rpc call failed", q.rpcCall(now).err.value)), [Get(q.key)], Emit(s, Miss(q.name)), [], 1))
    ensures var e := GetDataSpec(c, s, store, q, now);
      var reply := q.rpcCall(now);
      Trustworthy(c) && reply.err.None? && reply.resp.Some? && c.response.marshal(reply.resp.value).Ok? ==>
        e.reply == reply && |e.spawned| >= 1 && e.spawned[0] == WriteBack(reply.resp, q)
  {
    var reply := q.rpcCall(now);
    if Trustworthy(c) && reply.err.None? && reply.resp.Some? && c.response.marshal(reply.resp.value).Ok? {
      MissServesRemoteResponse(c, reply, q.softTTL, now);
    }
  }

  /** A usable entry is served without any remote call in the foreground. */
  lemma UsableEntryServedWithoutCall<R>(c: Codecs<R>, s: Policy.Settings, store: map<string, Stored>, q: Call<R>, now: int)
    requires !s.skipCache && q.readFromCache
    requires FetchedValue(c, s.compressionLibrary, store, q.key).Ok?
    ensures var e := GetDataSpec(c, s, store, q, now);
      e.calls == 0 && e.reply == GenerateResp(c.response, FetchedValue(c, s.compressionLibrary, store, q.key).value) &&
      Miss(q.name) !in e.metrics
  {
  }

  /**
   * A value just made by `MakeCacheValue` is stale at the same clock
   * reading exactly when its soft TTL is below minus one second; in
   * particular it never is for a non-negative soft TTL.
   */
  lemma FreshValueStaleness<R>(json: Json<R, string>, resp: Option<R>, softTTL: int, now: int)
    requires MakeCacheValue(json, resp, softTTL, now).Ok?
    ensures IsPastSoftTTLThreshold(MakeCacheValue(json, resp, softTTL, now).value, now) <==> softTTL <= -NanosPerSecond
    ensures softTTL >= 0 ==> !IsPastSoftTTLThreshold(MakeCacheValue(json, resp, softTTL, now).value, now)
  {
    var s := WholeSeconds(softTTL);
    if softTTL <= -NanosPerSecond {
      assert s <= -1;
    } else if softTTL < 0 {
      assert -s * NanosPerSecond <= -softTTL < NanosPerSecond;
      assert s == 0;
    }
  }

  /**
   * A stale entry is still served: the reply is made from its text, a soft
   * hit and then a hit are counted, and exactly one refresh is scheduled.
   */
  lemma StaleEntryRefreshes<R>(c: Codecs<R>, s: Policy.Settings, store: map<string, Stored>, q: Call<R>, now: int)
    requires !s.skipCache && q.readFromCache
    requires FetchedValue(c, s.compressionLibrary, store, q.key).Ok?
    requires IsPastSoftTTLThreshold(FetchedValue(c, s.compressionLibrary, store, q.key).value, now)
    ensures var e := GetDataSpec(c, s, store, q, now);
      var v := FetchedValue(c, s.compressionLibrary, store, q.key).value;
      e == Effects(GenerateResp(c.response, v), [Get(q.key)], Emit(s, SoftHit(q.name)) + Emit(s, Hit(q.name)), [Refresh(q)], 0)
  {
  }

  /** A fresh entry is served with a hit counted and nothing scheduled. */
  lemma FreshEntryHits<R>(c: Codecs<R>, s: Policy.Settings, store: map<string, Stored>, q: Call<R>, now: int)
    requires !s.skipCache && q.readFromCache
    requires FetchedValue(c, s.compressionLibrary, store, q.key).Ok?
    requires !IsPastSoftTTLThreshold(FetchedValue(c, s.compressionLibrary, store, q.key).value, now)
    ensures var e := GetDataSpec(c, s, store, q, now);
      var v := FetchedValue(c, s.compressionLibrary, store, q.key).value;
      e == Effects(GenerateResp(c.response, v), [Get(q.key)], Emit(s, Hit(q.name)), [], 0)
  {
  }

  /**
   * Whenever the read path obtains an entry (from the cache or through the
   * miss fallback) the hit is counted exactly once, provided metrics are
   * on; with no metrics provider nothing is ever counted, on any path.
   */
  lemma HitCountedOnce<R>(c: Codecs<R>, s: Policy.Settings, store: map<string, Stored>, q: Call<R>, now: int)
    ensures s.metricsProvider.None? ==> GetDataSpec(c, s, store, q, now).metrics == []
    ensures !s.skipCache && q.readFromCache && Entry(c, s, store, q, now).Ok? ==>
      multiset(GetDataSpec(c, s, store, q, now).metrics)[Hit(q.name)] == (if s.metricsProvider.Some? then 1 else 0)
    ensures !s.skipCache && q.readFromCache && Entry(c, s, store, q, now).Err? ==>
      Hit(q.name) !in GetDataSpec(c, s, store, q, now).metrics
  {
    var e := GetDataSpec(c, s, store, q, now);
    if !s.skipCache && q.readFromCache && Entry(c, s, store, q, now).Ok? && s.metricsProvider.Some? {
      var fetched := FetchedValue(c, s.compressionLibrary, store, q.key);
      var pre := if fetched.Ok? then [] else [Miss(q.name)];
      var soft := if IsPastSoftTTLThreshold(Entry(c, s, store, q, now).value, now) then [SoftHit(q.name)] else [];
      assert e.metrics == pre + soft + [Hit(q.name)];
      assert multiset(pre + soft)[Hit(q.name)] == 0;
    }
  }

  /**
   * An entry whose text does not parse as a response is an error, not a
   * miss: no remote call is made.
   */
  lemma UnparsableEntryIsError<R>(c: Codecs<R>, s: Policy.Settings, store: map<string, Stored>, q: Call<R>, now: int)
    requires !s.skipCache && q.readFromCache
    requires FetchedValue(c, s.compressionLibrary, store, q.key).Ok?
    requires c.response.unmarshal(FetchedValue(c, s.compressionLibrary, store, q.key).value.data).Err?
    ensures var e := GetDataSpec(c, s, store, q, now);
      var v := FetchedValue(c, s.compressionLibrary, store, q.key).value;
      e.reply == Fail(Wrapped("unable to marshal cache value to rpc response", c.response.unmarshal(v.data).error)) &&
      e.calls == 0
  {
  }

  // ---------------------------------------------------------------------
  // Properties of the cache write

  /**
   * `updateCache` writes exactly when the response is non-nil, the write
   * filter accepts it, and marshalling and compression succeed.
   */
  lemma CacheWriteConditions<R>(c: Codecs<R>, lib: int, resp: Option<R>, q: Call<R>, now: int)
    ensures CacheWrite(c, lib, resp, q, now).Some? <==>
      resp.Some? && q.writeToCache(resp.value) &&
      c.response.marshal(resp.value).Ok? &&
      Codec.CompressStruct(c.entry, c.transforms, CacheValue(now, q.softTTL, c.response.marshal(resp.value).value), lib).Ok?
  {
  }

  /**
   * What `updateCache` writes reads back: decoding the bytes gives an entry
   * stamped `now` with the call's soft TTL, and serving that entry gives
   * back the response that was written.
   */
  lemma {:induction false} CacheWriteReadsBack<R(!new)>(c: Codecs<R>, lib: int, resp: Option<R>, q: Call<R>, now: int)
    requires Trustworthy(c)
    requires CacheWrite(c, lib, resp, q, now).Some?
    ensures var v := Codec.DecompressStruct(c.entry, c.transforms, CacheWrite(c, lib, resp, q, now).value, lib);
      v.Ok? && v.value.updatedTS == now && v.value.softTTL == q.softTTL &&
      GenerateResp(c.response, v.value) == Reply(resp, None)
  {
    var v := MakeCacheValue(c.response, resp, q.softTTL, now).value;
    Codec.DecompressCompress(c.entry, c.transforms, v, lib);
    assert c.response.unmarshal(c.response.marshal(resp.value).value) == Ok(resp.value);
  }

  /**
   * The miss path hands back what the remote call returned, as long as the
   * response survives its JSON round trip.
   */
  lemma {:induction false} MissServesRemoteResponse<R(!new)>(c: Codecs<R>, reply: Reply<R>, softTTL: int, now: int)
    requires Trustworthy(c)
    requires reply.err.None? && reply.resp.Some? && c.response.marshal(reply.resp.value).Ok?
    ensures Serve(c, MissResult(c, reply, softTTL, now)) == Reply(reply.resp, None)
  {
    assert c.response.unmarshal(c.response.marshal(reply.resp.value).value) == Ok(reply.resp.value);
  }

  /**
   * A miss followed by a hit: the first call on a backend without the key
   * makes the remote call, returns its response and schedules its
   * write-back; once that has run, a second call within the soft TTL is
   * served from the cache with the same response, no remote call and
   * nothing scheduled.
   */
  lemma {:induction false} MissThenHit<R(!new)>(
    c: Codecs<R>, s: Policy.Settings, store: map<string, Stored>, q: Call<R>, t1: int, tw: int, t2: int)
    requires Trustworthy(c) && !s.skipCache && q.readFromCache && q.key !in store
    requires q.rpcCall(t1).err.None? && q.rpcCall(t1).resp.Some?
    requires CacheWrite(c, s.compressionLibrary, q.rpcCall(t1).resp, q, tw).Some?
    requires t1 <= tw <= t2 <= tw + WholeSeconds(q.softTTL)
    ensures var first := GetDataSpec(c, s, store, q, t1);
      first.reply == Reply(q.rpcCall(t1).resp, None) && first.calls == 1 &&
      first.spawned == [WriteBack(q.rpcCall(t1).resp, q)]
    ensures var w := ActionWrite(c, s.compressionLibrary, WriteBack(q.rpcCall(t1).resp, q), tw);
      w.Some? &&
      var second := GetDataSpec(c, s, store[q.key := Stored(w.value, q.hardTTL)], q, t2);
      second.reply == Reply(q.rpcCall(t1).resp, None) && second.calls == 0 &&
      second.spawned == [] && second.metrics == Emit(s, Hit(q.name)) && second.ops == [Get(q.key)]
  {
    var reply := q.rpcCall(t1);
    var lib := s.compressionLibrary;
    assert FetchedValue(c, lib, store, q.key).Err?;
    MissServesRemoteResponse(c, reply, q.softTTL, t1);
    FreshValueStaleness(c.response, reply.resp, q.softTTL, t1);
    var w := CacheWrite(c, lib, reply.resp, q, tw);
    CacheWriteReadsBack(c, lib, reply.resp, q, tw);
    var store2 := store[q.key := Stored(w.value, q.hardTTL)];
    assert Lookup(store2, q.key) == Ok(w.value);
    var v := FetchedValue(c, lib, store2, q.key).value;
    assert v.updatedTS == tw && v.softTTL == q.softTTL;
    assert !IsPastSoftTTLThreshold(v, t2);
  }

  // ---------------------------------------------------------------------
  // The orchestrator's state and its steps

  /** `ToggleCache`: the skip flag is set to the argument itself (true skips the cache). */
  method ToggleCache(g: Policy.Globals, isCacheEnabled: bool)
    modifies g
    ensures g.Current() == old(g.Current()).(skipCache := isCacheEnabled)
  {
    g.skipCache := isCacheEnabled;
  }

  class Orchestrator<R> {
    /** The process-wide settings of consts.go. */
    const globals: Policy.Globals
    const codecs: Codecs<R>
    /** The cache backend's contents. */
    var store: map<string, Stored>
    var backendLog: seq<BackendOp>
    var metricsLog: seq<Metric>
    /** Background actions started and not yet run. */
    var pending: seq<Pending<R>>
    /** Remote calls made so far. */
    var rpcCalls: nat

    constructor (globals: Policy.Globals, codecs: Codecs<R>, store: map<string, Stored>)
      ensures this.globals == globals && this.codecs == codecs && this.store == store
      ensures backendLog == [] && metricsLog == [] && pending == [] && rpcCalls == 0
    {
      this.globals := globals;
      this.codecs := codecs;
      this.store := store;
      backendLog, metricsLog, pending, rpcCalls := [], [], [], 0;
    }

    /** The cache client's `Get`, recorded. */
    method BackendGet(key: string) returns (r: Result<Bytes>)
      modifies this`backendLog
      ensures backendLog == old(backendLog) + [Get(key)]
      ensures r == Lookup(store, key)
    {
      backendLog := backendLog + [Get(key)];
      if key in store {
        r := Ok(store[key].value);
      } else {
        r := Err(Wrapped("unable to pull from cache", KeyAbsent));
      }
    }

    /** The cache client's `Set`, recorded; the backend keeps the bytes with their hard TTL. */
    method BackendSet(key: string, value: Bytes, ttl: int)
      modifies this`store, this`backendLog
      ensures store == old(store)[key := Stored(value, ttl)]
      ensures backendLog == old(backendLog) + [Set(key, value, ttl)]
    {
      store := store[key := Stored(value, ttl)];
      backendLog := backendLog + [Set(key, value, ttl)];
    }

    /** A metric increment, skipped when no metrics provider is installed. */
    method Increase(m: Metric)
      modifies this`metricsLog
      ensures metricsLog == old(metricsLog) + Emit(globals.Current(), m)
    {
      if globals.metricsProvider.Some? {
        metricsLog := metricsLog + [m];
      }
    }

    /** A remote call made now, counted. */
    method Invoke(rpcCall: RpcCall<R>, now: int) returns (reply: Reply<R>)
      modifies this`rpcCalls
      ensures rpcCalls == old(rpcCalls) + 1
      ensures reply == rpcCall(now)
    {
      rpcCalls := rpcCalls + 1;
      reply := rpcCall(now);
    }

    /** `fetchFromCache`: one Get, then the entry decoded with the selected compression. */
    method FetchFromCache(key: string) returns (r: Result<CacheValue>)
      modifies this`backendLog
      ensures backendLog == old(backendLog) + [Get(key)]
      ensures r == FetchedValue(codecs, globals.compressionLibrary, store, key)
    {
      var val := BackendGet(key);
      if val.Err? {
        return Err(val.error);
      }
      r := Codec.DecompressStruct(codecs.entry, codecs.transforms, val.value, globals.compressionLibrary);
    }

    /** `handleCacheMiss`: count the miss, make the remote call, schedule its write-back on success. */
    method HandleCacheMiss(q: Call<R>, now: int) returns (r: Result<CacheValue>)
      modifies this`metricsLog, this`pending, this`rpcCalls
      ensures metricsLog == old(metricsLog) + Emit(globals.Current(), Miss(q.name))
      ensures rpcCalls == old(rpcCalls) + 1
      ensures pending == old(pending) + MissSpawn(q.rpcCall(now), q)
      ensures r == MissResult(codecs, q.rpcCall(now), q.softTTL, now)
    {
      Increase(Miss(q.name));
      var reply := Invoke(q.rpcCall, now);
      if reply.err.Some? {
        return Err(Wrapped("rpc call failed", reply.err.value));
      }
      pending := pending + [WriteBack(reply.resp, q)];
      r := MakeCacheValue(codecs.response, reply.resp, q.softTTL, now);
    }

    /** `handleCacheSoftHit`: count the soft hit and schedule a refresh. */
    method HandleCacheSoftHit(q: Call<R>)
      modifies this`metricsLog, this`pending
      ensures metricsLog == old(metricsLog) + Emit(globals.Current(), SoftHit(q.name))
      ensures pending == old(pending) + [Refresh(q)]
    {
      Increase(SoftHit(q.name));
      pending := pending + [Refresh(q)];
    }

    /** `handleCacheHit`: count the hit. */
    method HandleCacheHit(name: string)
      modifies this`metricsLog
      ensures metricsLog == old(metricsLog) + Emit(globals.Current(), Hit(name))
    {
      Increase(Hit(name));
    }

    /** `getData`, performed at clock reading `now`: it does what `GetDataSpec` says. */
    method GetData(q: Call<R>, now: int) returns (res: Reply<R>)
      modifies this`backendLog, this`metricsLog, this`pending, this`rpcCalls
      ensures var e := GetDataSpec(codecs, globals.Current(), store, q, now);
        res == e.reply &&
        backendLog == old(backendLog) + e.ops &&
        metricsLog == old(metricsLog) + e.metrics &&
        pending == old(pending) + e.spawned &&
        rpcCalls == old(rpcCalls) + e.calls
    {
      if globals.skipCache {
        res := Invoke(q.rpcCall, now);
        return;
      }
      var result: Result<CacheValue>;
      if !q.readFromCache {
        result := HandleCacheMiss(q, now);
        if result.Err? {
          return Fail(result.error);
        }
        return GenerateResp(codecs.response, result.value);
      }
      result := FetchFromCache(q.key);
      if result.Err? {
        result := HandleCacheMiss(q, now);
        if result.Err? {
          return Fail(result.error);
        }
      }
      if IsPastSoftTTLThreshold(result.value, now) {
        HandleCacheSoftHit(q);
      }
      HandleCacheHit(q.name);
      res := GenerateResp(codecs.response, result.value);
    }

    /** `updateCache` at clock reading `now`: a Set exactly when `CacheWrite` yields bytes; errors are dropped. */
    method UpdateCache(resp: Option<R>, q: Call<R>, now: int)
      modifies this`store, this`backendLog
      ensures var w := CacheWrite(codecs, globals.compressionLibrary, resp, q, now);
        store == (if w.Some? then old(store)[q.key := Stored(w.value, q.hardTTL)] else old(store)) &&
        backendLog == old(backendLog) + (if w.Some? then [Set(q.key, w.value, q.hardTTL)] else [])
    {
      if resp.None? || !q.writeToCache(resp.value) {
        return;
      }
      var cacheVal := MakeCacheValue(codecs.response, resp, q.softTTL, now);
      if cacheVal.Err? {
        return;
      }
      var compressed := Codec.CompressStruct(codecs.entry, codecs.transforms, cacheVal.value, globals.compressionLibrary);
      if compressed.Err? {
        return;
      }
      BackendSet(q.key, compressed.value, q.hardTTL);
    }

    /**
     * Runs the `i`-th background action at clock reading `now` and removes
     * it: a write-back updates the cache; a refresh makes the remote call
     * again and updates the cache unless that call fails.
     */
    method RunPending(i: nat, now: int)
      requires i < |pending|
      modifies this`store, this`backendLog, this`pending, this`rpcCalls
      ensures pending == old(pending[..i] + pending[i + 1..])
      ensures rpcCalls == old(rpcCalls) + (if old(pending[i]).Refresh? then 1 else 0)
      ensures var w := ActionWrite(codecs, globals.compressionLibrary, old(pending[i]), now);
        var key := old(pending[i]).call.key;
        var ttl := old(pending[i]).call.hardTTL;
        store == (if w.Some? then old(store)[key := Stored(w.value, ttl)] else old(store)) &&
        backendLog == old(backendLog) + (if w.Some? then [Set(key, w.value, ttl)] else [])
    {
      var a := pending[i];
      pending := pending[..i] + pending[i + 1..];
      match a
      case WriteBack(resp, q) =>
        UpdateCache(resp, q, now);
      case Refresh(q) =>
        var reply := Invoke(q.rpcCall, now);
        if reply.err.None? {
          UpdateCache(reply.resp, q, now);
        }
    }
  }
}
