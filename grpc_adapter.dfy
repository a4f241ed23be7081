/**
 * grpc_adapter.go: wrapping a generated gRPC client method with the cache.
 * The adapter names the call after the method, derives the cache key from
 * the request, and hands `getData` a closure over the call's arguments,
 * always reading from and writing to the cache.
 */
module GrpcAdapter {
  import opened Common
  import Helpers
  import HashKey
  import Policy
  import opened Heimdall

  /** A `grpc.CallOption`; the model only passes it along. */
  datatype CallOption = CallOption(id: nat)

  /**
   * A generated client method: the reply it gives for a context, a request
   * pointer and call options, when invoked at clock reading `t`.
   */
  type GrpcFunc<!Q, R> = (Context, Option<Q>, seq<CallOption>, int) -> Reply<R>

  /** A client method together with the name reflection reports for it. */
  datatype Method<!Q, R> = Method(fn: GrpcFunc<Q, R>, runtimeName: string)

  /** The library code key derivation uses: the request's JSON rendering and SHA-512. */
  datatype KeyLibrary<!Q> = KeyLibrary(marshal: Option<Q> -> Result<string>, sha512: string -> HashKey.Digest)

  /** `wrapGRPCCallFunc`: the remote call with its arguments captured. */
  function WrapGRPCCallFunc<Q, R>(grpcFunc: GrpcFunc<Q, R>, ctx: Context, req: Option<Q>, opts: seq<CallOption>)
    : (call: RpcCall<R>)
    ensures forall t :: call(t) == grpcFunc(ctx, req, opts, t)
  {
    t => grpcFunc(ctx, req, opts, t)
  }

  /** The write filter the adapter passes: every response is written. */
  predicate AlwaysWrite<R>(resp: R)
  {
    true
  }

  /** The `getData` arguments the adapter builds for a method, a request and a key. */
  function AdapterCall<Q, R>(m: Method<Q, R>, ctx: Context, req: Option<Q>, softTTL: int, hardTTL: int,
                             opts: seq<CallOption>, key: string): (q: Call<R>)
    ensures q.readFromCache && q.writeToCache == AlwaysWrite
    ensures q.name == Helpers.GetFunctionName(m.runtimeName) && q.key == key
    ensures q.softTTL == softTTL && q.hardTTL == hardTTL
    ensures forall t :: q.rpcCall(t) == m.fn(ctx, req, opts, t)
  {
    Call(WrapGRPCCallFunc(m.fn, ctx, req, opts), Helpers.GetFunctionName(m.runtimeName), key,
         softTTL, hardTTL, true, AlwaysWrite)
  }

  /** The cache key of a call: derived from the request, the method's short name, the TTLs and the injected version. */
  function AdapterKey<Q, R>(s: Policy.Settings, m: Method<Q, R>, req: Option<Q>, softTTL: int, hardTTL: int,
                            k: KeyLibrary<Q>): Result<string>
  {
    HashKey.GenerateCacheKey(Some(req), k.marshal, k.sha512, Helpers.GetFunctionName(m.runtimeName),
                             softTTL, hardTTL, s.version)
  }

  /** `GRPCCallWithTTL`: what one call returns and does. */
  function GRPCCallWithTTLSpec<Q, R>(
    c: Codecs<R>, s: Policy.Settings, store: map<string, Stored>, grpcFunc: Option<Method<Q, R>>,
    ctx: Context, req: Option<Q>, softTTL: int, hardTTL: int, opts: seq<CallOption>, k: KeyLibrary<Q>, now: int)
    : (e: Effects<R>)
    ensures e.calls <= 1 && |e.ops| <= 1
    ensures grpcFunc.None? ==> e.reply == Fail(Error("grpcFunc is nil")) && e.ops == [] && e.calls == 0
    ensures e.ops != [] ==>
      grpcFunc.Some? && AdapterKey(s, grpcFunc.value, req, softTTL, hardTTL, k).Ok? &&
      e.ops == [Get(AdapterKey(s, grpcFunc.value, req, softTTL, hardTTL, k).value)]
  {
    if grpcFunc.None? then
      Effects(Fail(Error("grpcFunc is nil")), [], [], [], 0)
    else
      match AdapterKey(s, grpcFunc.value, req, softTTL, hardTTL, k)
      case Err(e) => Effects(Fail(e), [], [], [], 0)
      case Ok(key) =>
        GetDataSpec(c, s, store, AdapterCall(grpcFunc.value, ctx, req, softTTL, hardTTL, opts, key), now)
  }

  /**
   * `GRPCCall` as the source writes it: the default TTLs are used, and the
   * caller's call options are not passed on.
   */
  function GRPCCallAsWritten<Q, R>(
    c: Codecs<R>, s: Policy.Settings, store: map<string, Stored>, grpcFunc: Option<Method<Q, R>>,
    ctx: Context, req: Option<Q>, opts: seq<CallOption>, k: KeyLibrary<Q>, now: int)
    : (e: Effects<R>)
    ensures e == GRPCCallSpec(c, s, store, grpcFunc, ctx, req, [], k, now)
  {
    GRPCCallWithTTLSpec(c, s, store, grpcFunc, ctx, req, s.defaultSoftTTL, s.defaultHardTTL, [], k, now)
  }

  /** `GRPCCall` as intended: the default TTLs, with the caller's call options passed on. */
  function GRPCCallSpec<Q, R>(
    c: Codecs<R>, s: Policy.Settings, store: map<string, Stored>, grpcFunc: Option<Method<Q, R>>,
    ctx: Context, req: Option<Q>, opts: seq<CallOption>, k: KeyLibrary<Q>, now: int)
    : Effects<R>
  {
    GRPCCallWithTTLSpec(c, s, store, grpcFunc, ctx, req, s.defaultSoftTTL, s.defaultHardTTL, opts, k, now)
  }

  // ---------------------------------------------------------------------
  // Properties

  /** A nil method is refused before any key derivation, backend access or remote call. */
  lemma NilMethodRefused<Q, R>(
    c: Codecs<R>, s: Policy.Settings, store: map<string, Stored>,
    ctx: Context, req: Option<Q>, softTTL: int, hardTTL: int, opts: seq<CallOption>, k: KeyLibrary<Q>, now: int)
    ensures GRPCCallWithTTLSpec(c, s, store, None, ctx, req, softTTL, hardTTL, opts, k, now)
         == Effects(Fail(Error("grpcFunc is nil")), [], [], [], 0)
  {
  }

  /** A key-derivation error is returned as it is, and neither the backend nor the remote method is touched. */
  lemma KeyErrorReturned<Q, R>(
    c: Codecs<R>, s: Policy.Settings, store: map<string, Stored>, m: Method<Q, R>,
    ctx: Context, req: Option<Q>, softTTL: int, hardTTL: int, opts: seq<CallOption>, k: KeyLibrary<Q>, now: int)
    requires k.marshal(req).Err?
    ensures GRPCCallWithTTLSpec(c, s, store, Some(m), ctx, req, softTTL, hardTTL, opts, k, now)
         == Effects(Fail(Wrapped("", k.marshal(req).error)), [], [], [], 0)
  {
  }

  /**
   * Once the key is derived, the adapter always reads the cache (one Get
   * under that key), and whatever response it writes back is written
   * exactly when it marshals and compresses.
   */
  lemma AdapterReadsAndWrites<Q, R>(
    c: Codecs<R>, s: Policy.Settings, store: map<string, Stored>, m: Method<Q, R>,
    ctx: Context, req: Option<Q>, softTTL: int, hardTTL: int, opts: seq<CallOption>, k: KeyLibrary<Q>, now: int)
    requires !s.skipCache && k.marshal(req).Ok?
    ensures AdapterKey(s, m, req, softTTL, hardTTL, k).Ok?
    ensures var key := AdapterKey(s, m, req, softTTL, hardTTL, k).value;
      GRPCCallWithTTLSpec(c, s, store, Some(m), ctx, req, softTTL, hardTTL, opts, k, now).ops == [Get(key)]
    ensures var key := AdapterKey(s, m, req, softTTL, hardTTL, k).value;
      var q := AdapterCall(m, ctx, req, softTTL, hardTTL, opts, key);
      forall r, t :: CacheWrite(c, s.compressionLibrary, Some(r), q, t).Some? <==>
        c.response.marshal(r).Ok? &&
        Codec.CompressStruct(c.entry, c.transforms, CacheValue(t, softTTL, c.response.marshal(r).value), s.compressionLibrary).Ok?
  {
    var key := AdapterKey(s, m, req, softTTL, hardTTL, k).value;
    var q := AdapterCall(m, ctx, req, softTTL, hardTTL, opts, key);
    ReadPathGetsOnce(c, s, store, q, now);
    forall r, t
      ensures CacheWrite(c, s.compressionLibrary, Some(r), q, t).Some? <==>
        c.response.marshal(r).Ok? &&
        Codec.CompressStruct(c.entry, c.transforms, CacheValue(t, softTTL, c.response.marshal(r).value), s.compressionLibrary).Ok?
    {
      CacheWriteConditions(c, s.compressionLibrary, Some(r), q, t);
    }
  }

  /**
   * The hit, soft-hit and miss cases all return the method's response with
   * no error: when the entry cannot be obtained (the backend lacks the key,
   * or holds bytes that do not decompress or decode under the current
   * selector) the call falls back to the method, and when it holds an entry
   * whose text is the response's JSON that entry is served; either way the
   * caller gets the response.
   */
  lemma {:induction false} AdapterReturnsResponse<Q, R(!new)>(
    c: Codecs<R>, s: Policy.Settings, store: map<string, Stored>, m: Method<Q, R>,
    ctx: Context, req: Option<Q>, softTTL: int, hardTTL: int, opts: seq<CallOption>, k: KeyLibrary<Q>, now: int,
    r: R)
    requires Trustworthy(c) && !s.skipCache && k.marshal(req).Ok?
    requires m.fn(ctx, req, opts, now) == Reply(Some(r), None) && c.response.marshal(r).Ok?
    requires var key := AdapterKey(s, m, req, softTTL, hardTTL, k).value;
      var fetched := FetchedValue(c, s.compressionLibrary, store, key);
      fetched.Err? || (fetched.Ok? && fetched.value.data == c.response.marshal(r).value)
    ensures GRPCCallWithTTLSpec(c, s, store, Some(m), ctx, req, softTTL, hardTTL, opts, k, now).reply
         == Reply(Some(r), None)
  {
    var key := AdapterKey(s, m, req, softTTL, hardTTL, k).value;
    var q := AdapterCall(m, ctx, req, softTTL, hardTTL, opts, key);
    assert q.rpcCall(now) == Reply(Some(r), None);
    assert c.response.unmarshal(c.response.marshal(r).value) == Ok(r);
    if FetchedValue(c, s.compressionLibrary, store, key).Err? {
      MissServesRemoteResponse(c, q.rpcCall(now), softTTL, now);
    }
  }

  /**
   * As written, `GRPCCall` drops the caller's call options: for a method
   * that answers with the number of options it received, a call made with
   * one option (and the cache skipped) is answered 0, while passing the
   * options on answers 1.
   */
  lemma GRPCCallAsWrittenDropsOptions(c: Codecs<int>, store: map<string, Stored>, k: KeyLibrary<int>)
    requires forall req :: k.marshal(req).Ok?
    ensures var s := Policy.Settings(0, 0, None, None, true, 0, "");
      var m := Method((ctx: Context, req: Option<int>, opts: seq<CallOption>, t: int) => Reply(Some(|opts|), None), "pb/Greeter.SayHello");
      var opts := [CallOption(7)];
      GRPCCallAsWritten(c, s, store, Some(m), Context(0), None, opts, k, 0).reply == Reply(Some(0), None) &&
      GRPCCallSpec(c, s, store, Some(m), Context(0), None, opts, k, 0).reply == Reply(Some(1), None)
  {
    var s := Policy.Settings(0, 0, None, None, true, 0, "");
    var m := Method((ctx: Context, req: Option<int>, opts: seq<CallOption>, t: int) => Reply(Some(|opts|), None), "pb/Greeter.SayHello");
    var opts := [CallOption(7)];
    assert AdapterKey(s, m, None, 0, 0, k).Ok?;
  }

  /**
   * `GRPCCall` uses the injected default TTLs and hands the remote method
   * exactly the caller's context, request and call options: with the
   * cache skipped the caller gets the method's own reply.
   */
  lemma GRPCCallForwardsArguments<Q, R>(
    c: Codecs<R>, s: Policy.Settings, store: map<string, Stored>, m: Method<Q, R>,
    ctx: Context, req: Option<Q>, opts: seq<CallOption>, k: KeyLibrary<Q>, now: int)
    requires s.skipCache && k.marshal(req).Ok?
    ensures GRPCCallSpec(c, s, store, Some(m), ctx, req, opts, k, now)
         == Effects(m.fn(ctx, req, opts, now), [], [], [], 1)
  {
    var key := AdapterKey(s, m, req, s.defaultSoftTTL, s.defaultHardTTL, k).value;
    var q := AdapterCall(m, ctx, req, s.defaultSoftTTL, s.defaultHardTTL, opts, key);
    assert q.rpcCall(now) == m.fn(ctx, req, opts, now);
  }

  // ---------------------------------------------------------------------
  // The adapter run against the orchestrator's state

  /** `GRPCCallWithTTL` performed at clock reading `now`: it does what `GRPCCallWithTTLSpec` says. */
  method GRPCCallWithTTL<Q, R>(
    h: Orchestrator<R>, grpcFunc: Option<Method<Q, R>>, ctx: Context, req: Option<Q>,
    softTTL: int, hardTTL: int, opts: seq<CallOption>, k: KeyLibrary<Q>, now: int)
    returns (res: Reply<R>)
    modifies h`backendLog, h`metricsLog, h`pending, h`rpcCalls
    ensures var e := GRPCCallWithTTLSpec(h.codecs, h.globals.Current(), h.store, grpcFunc, ctx, req, softTTL, hardTTL, opts, k, now);
      res == e.reply &&
      h.backendLog == old(h.backendLog) + e.ops &&
      h.metricsLog == old(h.metricsLog) + e.metrics &&
      h.pending == old(h.pending) + e.spawned &&
      h.rpcCalls == old(h.rpcCalls) + e.calls
  {
    if grpcFunc.None? {
      return Fail(Error("grpcFunc is nil"));
    }
    var rpcCallName := Helpers.GetFunctionName(grpcFunc.value.runtimeName);
    var cacheKey := HashKey.GenerateCacheKey(Some(req), k.marshal, k.sha512, rpcCallName, softTTL, hardTTL, h.globals.version);
    if cacheKey.Err? {
      return Fail(cacheKey.error);
    }
    res := h.GetData(AdapterCall(grpcFunc.value, ctx, req, softTTL, hardTTL, opts, cacheKey.value), now);
  }

  /** `GRPCCall` (with the call options passed on): `GRPCCallWithTTL` with the injected default TTLs. */
  method GRPCCall<Q, R>(
    h: Orchestrator<R>, grpcFunc: Option<Method<Q, R>>, ctx: Context, req: Option<Q>,
    opts: seq<CallOption>, k: KeyLibrary<Q>, now: int)
    returns (res: Reply<R>)
    modifies h`backendLog, h`metricsLog, h`pending, h`rpcCalls
    ensures var e := GRPCCallSpec(h.codecs, h.globals.Current(), h.store, grpcFunc, ctx, req, opts, k, now);
      res == e.reply &&
      h.backendLog == old(h.backendLog) + e.ops &&
      h.metricsLog == old(h.metricsLog) + e.metrics &&
      h.pending == old(h.pending) + e.spawned &&
      h.rpcCalls == old(h.rpcCalls) + e.calls
  {
    res := GRPCCallWithTTL(h, grpcFunc, ctx, req, h.globals.defaultSoftTTL, h.globals.defaultHardTTL, opts, k, now);
  }
}
