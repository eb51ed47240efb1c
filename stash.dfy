/**
 * The caching facade (stash.go): Load checks a provider and wraps its store;
 * a Cache forwards Get, Set, Delete, Invalidate and Clear to that store,
 * encoding values on the way in and decoding them on the way out.
 */
module Stash {
  import opened Wrappers
  import opened Values
  import opened CallOptions
  import opened Backend
  import opened Providers

  /** The driver names of the three providers. */
  const MemoryDriver: string := "memory"
  const RedisDriver: string := "redis"
  const MemcacheDriver: string := "memcache"

  /** The expiration that keeps an item until it is removed. */
  const RememberForever: int := -1

  /** The error Load returns for a nil provider. */
  const NilProvider := Error("provider cannot be nil")

  /** What json.Unmarshal leaves in the destination, and the error it returns. */
  datatype Decoded = Decoded(value: Any, err: Option<Error>)

  /**
   * The foreign code the facade calls, left uninterpreted: json.Marshal,
   * json.Unmarshal (given the bytes and what the destination holds) and
   * cast.ToString.
   */
  datatype Codec = Codec(
    marshal: Any -> Result<seq<byte>, Error>,
    unmarshal: (seq<byte>, Any) -> Decoded,
    toString: Any -> seq<byte>)

  /** The caller's destination `v` that Get decodes into. */
  class Destination {
    var value: Any

    constructor (value: Any)
      ensures this.value == value
    {
      this.value := value;
    }
  }

  /** The outcome of Load and the provider methods it called, in order. */
  datatype Loading = Loading(result: Result<Cache, Error>, calls: seq<ProviderCall>)

  /** The provider methods a successful Load calls, in the order it calls them. */
  const FullLoad: seq<ProviderCall> := [CallValidate, CallPing, CallStore, CallDriver]

  /**
   * Load: reject a nil provider, then Validate, then Ping; only when both
   * succeed build a Cache from the provider's Store and Driver.
   * A Provider is the record of its methods' answers and cannot observe being
   * called, so the trace of provider calls is written by each branch here,
   * following the order of the calls in stash.go:81-100.
   */
  function Load(prov: Option<Provider>): (r: Loading)
    ensures r.calls <= FullLoad
    ensures r.result.Success? <==> prov.Some? && prov.value.validate.None? && prov.value.ping.None?
    ensures r.result.Success? <==> r.calls == FullLoad
    ensures r.result.Success? ==> r.result.value == Cache(prov.value.store, prov.value.driver)
    ensures CallPing in r.calls ==> prov.Some? && prov.value.validate.None?
    ensures CallStore in r.calls ==> prov.Some? && prov.value.validate.None? && prov.value.ping.None?
  {
    match prov
    case None => Loading(Failure(NilProvider), [])
    case Some(p) =>
      if p.validate.Some? then Loading(Failure(p.validate.value), [CallValidate])
      else if p.ping.Some? then Loading(Failure(p.ping.value), [CallValidate, CallPing])
      else Loading(Success(Cache(p.store, p.driver)), FullLoad)
  }

  lemma LoadNilProvider()
    ensures Load(None) == Loading(Failure(NilProvider), [])
  {
  }

  lemma LoadValidateError(p: Provider)
    requires p.validate.Some?
    ensures Load(Some(p)) == Loading(Failure(p.validate.value), [CallValidate])
  {
  }

  lemma LoadPingError(p: Provider)
    requires p.validate.None? && p.ping.Some?
    ensures Load(Some(p)) == Loading(Failure(p.ping.value), [CallValidate, CallPing])
  {
  }

  lemma LoadSuccess(p: Provider)
    requires p.validate.None? && p.ping.None?
    ensures Load(Some(p)).result.Success?
    ensures Load(Some(p)).result.value.driver == p.driver
    ensures Load(Some(p)).result.value.store == p.store
  {
  }

  /**
   * The bytes Get decodes: those of a `[]byte` result or of a `string`
   * result; nothing for a result of any other dynamic type.
   */
  function Payload(result: Any): (b: Option<seq<byte>>)
    ensures b.Some? <==> result.Bytes? || result.Text?
    ensures result.Bytes? ==> b == Some(result.bytes)
    ensures result.Text? ==> b == Some(result.text)
  {
    match result
    case Bytes(bs) => Some(bs)
    case Text(s) => Some(s)
    case _ => None
  }

  /** A string result and a byte-slice result with the same bytes take the same decode path. */
  lemma TextAndBytesDecodeAlike(bs: seq<byte>)
    ensures Payload(Text(bs)) == Payload(Bytes(bs)) == Some(bs)
  {
  }

  /**
   * What Get leaves in the destination and returns, given the store's reply:
   * a decodable result yields the decoder's value and error, and the store's
   * error is dropped; any other result keeps the destination and returns the
   * store's error.
   */
  function GetOutcome(reply: Reply, before: Any, codec: Codec): (o: (Any, Option<Error>))
    ensures Payload(reply.result).None? ==> o == (before, reply.err)
    ensures Payload(reply.result).Some? ==>
      o == (codec.unmarshal(Payload(reply.result).value, before).value,
            codec.unmarshal(Payload(reply.result).value, before).err)
  {
    match Payload(reply.result)
    case Some(bs) => (codec.unmarshal(bs, before).value, codec.unmarshal(bs, before).err)
    case None => (before, reply.err)
  }

  /** A request a caller makes through the facade. */
  datatype Request =
    | GetRequest(key: Any)
    | SetRequest(key: Any, value: Any, options: Options)
    | DeleteRequest(key: Any)
    | InvalidateRequest(invalidate: InvalidateOptions)
    | ClearRequest

  /** A request the facade does not turn away: only a Set whose value cannot be encoded is. */
  function Encodable(req: Request, codec: Codec): (ok: bool)
    ensures !ok ==> req.SetRequest?
    ensures req.SetRequest? ==> (ok <==> codec.marshal(req.value).Success?)
  {
    !(req.SetRequest? && codec.marshal(req.value).Failure?)
  }

  /** The calls the store receives for one request: those the matching Cache method's contract states. */
  function Forward(req: Request, codec: Codec): (calls: seq<StoreCall>)
    ensures |calls| <= 1
    ensures calls == [] <==> !Encodable(req, codec)
    ensures req.GetRequest? ==> calls == [StoreGet(req.key)]
    ensures req.DeleteRequest? ==> calls == [StoreDelete(Text(codec.toString(req.key)))]
    ensures req.InvalidateRequest? ==> calls == [StoreInvalidate(req.invalidate.ToStore())]
    ensures req.ClearRequest? ==> calls == [StoreClear]
    ensures req.SetRequest? && Encodable(req, codec) ==>
      calls == [StoreSet(req.key, Bytes(codec.marshal(req.value).value), req.options.ToStore())]
  {
    match req
    case GetRequest(key) => [StoreGet(key)]
    case SetRequest(key, value, options) =>
      (match codec.marshal(value)
       case Failure(_) => []
       case Success(bs) => [StoreSet(key, Bytes(bs), options.ToStore())])
    case DeleteRequest(key) => [StoreDelete(Text(codec.toString(key)))]
    case InvalidateRequest(options) => [StoreInvalidate(options.ToStore())]
    case ClearRequest => [StoreClear]
  }

  /** A cache loaded from a provider: the provider's store and its driver name. */
  datatype Cache = Cache(store: Store, driver: string) {

    /**
     * Get: ask the store for `key`; a `[]byte` or `string` result is decoded
     * into `dest` and the decoder's error, not the store's, is returned; any
     * other result leaves `dest` alone and returns the store's error.
     */
    method Get(key: Any, dest: Destination, codec: Codec) returns (err: Option<Error>)
      modifies store, dest
      ensures store.calls == old(store.calls) + [StoreGet(key)]
      ensures (dest.value, err) == GetOutcome(store.respond(old(store.calls), StoreGet(key)), old(dest.value), codec)
    {
      var reply := store.Call(StoreGet(key));
      err := reply.err;
      match reply.result
      case Bytes(bs) =>
        var d := codec.unmarshal(bs, dest.value);
        dest.value := d.value;
        err := d.err;
      case Text(s) =>
        var d := codec.unmarshal(s, dest.value);
        dest.value := d.value;
        err := d.err;
      case _ =>
    }

    /**
     * Set: encode `value`; if that fails return the encoder's error without
     * touching the store, otherwise store the encoded bytes with the
     * converted options and return the store's error.
     */
    method Set(key: Any, value: Any, options: Options, codec: Codec) returns (err: Option<Error>)
      modifies store
      ensures store.calls == old(store.calls) +
        if codec.marshal(value).Success?
        then [StoreSet(key, Bytes(codec.marshal(value).value), options.ToStore())]
        else []
      ensures codec.marshal(value).Failure? ==> err == Some(codec.marshal(value).error)
      ensures codec.marshal(value).Success? ==>
        err == store.respond(old(store.calls),
                             StoreSet(key, Bytes(codec.marshal(value).value), options.ToStore())).err
    {
      var encoded := codec.marshal(value);
      if encoded.Failure? {
        return Some(encoded.error);
      }
      var reply := store.Call(StoreSet(key, Bytes(encoded.value), options.ToStore()));
      err := reply.err;
    }

    /** Delete: remove the entry under the string form of `key`; the store's error is returned as is. */
    method Delete(key: Any, codec: Codec) returns (err: Option<Error>)
      modifies store
      ensures store.calls == old(store.calls) + [StoreDelete(Text(codec.toString(key)))]
      ensures err == store.respond(old(store.calls), StoreDelete(Text(codec.toString(key)))).err
    {
      var reply := store.Call(StoreDelete(Text(codec.toString(key))));
      err := reply.err;
    }

    /** Invalidate: drop the entries with the given tags; the store's error is returned as is. */
    method Invalidate(options: InvalidateOptions) returns (err: Option<Error>)
      modifies store
      ensures store.calls == old(store.calls) + [StoreInvalidate(options.ToStore())]
      ensures err == store.respond(old(store.calls), StoreInvalidate(options.ToStore())).err
    {
      var reply := store.Call(StoreInvalidate(options.ToStore()));
      err := reply.err;
    }

    /** Clear: drop every entry; the store's error is returned as is. */
    method Clear() returns (err: Option<Error>)
      modifies store
      ensures store.calls == old(store.calls) + [StoreClear]
      ensures err == store.respond(old(store.calls), StoreClear).err
    {
      var reply := store.Call(StoreClear);
      err := reply.err;
    }

    /** Serves one request through the method that handles it. */
    method Serve(req: Request, dest: Destination, codec: Codec) returns (err: Option<Error>)
      modifies store, dest
      ensures store.calls == old(store.calls) + Forward(req, codec)
      ensures !req.GetRequest? ==> dest.value == old(dest.value)
      ensures req.GetRequest? ==>
        (dest.value, err) == GetOutcome(store.respond(old(store.calls), StoreGet(req.key)), old(dest.value), codec)
      ensures !Encodable(req, codec) ==> err == Some(codec.marshal(req.value).error)
      ensures Encodable(req, codec) && !req.GetRequest? ==>
        err == store.respond(old(store.calls), Forward(req, codec)[0]).err
    {
      match req
      case GetRequest(key) => err := Get(key, dest, codec);
      case SetRequest(key, value, options) => err := Set(key, value, options, codec);
      case DeleteRequest(key) => err := Delete(key, codec);
      case InvalidateRequest(options) => err := Invalidate(options);
      case ClearRequest => err := Clear();
    }

    /**
     * Serves a caller's requests one after the other, collecting the errors.
     * The store then has received exactly the accepted requests, in order.
     */
    method Run(reqs: seq<Request>, dest: Destination, codec: Codec) returns (errs: seq<Option<Error>>)
      modifies store, dest
      ensures |errs| == |reqs|
      ensures store.calls == old(store.calls) + Session(reqs, codec)
      ensures store.calls == old(store.calls) + Session(Accepted(reqs, codec), codec)
      ensures |store.calls| == |old(store.calls)| + |Accepted(reqs, codec)|
      ensures forall k :: 0 <= k < |Accepted(reqs, codec)| ==>
        [store.calls[|old(store.calls)| + k]] == Forward(Accepted(reqs, codec)[k], codec)
      ensures forall j :: 0 <= j < |reqs| && !Encodable(reqs[j], codec) ==>
        errs[j] == Some(codec.marshal(reqs[j].value).error)
      ensures (forall r :: r in reqs ==> !r.GetRequest?) ==> dest.value == old(dest.value)
    {
      ghost var before := store.calls;
      errs := [];
      var i := 0;
      while i < |reqs|
        invariant 0 <= i <= |reqs| && |errs| == i
        invariant store.calls == before + Session(reqs[..i], codec)
        invariant forall j :: 0 <= j < i && !Encodable(reqs[j], codec) ==>
          errs[j] == Some(codec.marshal(reqs[j].value).error)
        invariant (forall j :: 0 <= j < i ==> !reqs[j].GetRequest?) ==> dest.value == old(dest.value)
      {
        var err := Serve(reqs[i], dest, codec);
        SessionPrefixStep(reqs, i, codec);
        errs := errs + [err];
        i := i + 1;
      }
      SessionPrefixWhole(reqs, codec);
      TraceOfSession(before, store.calls, reqs, codec);
    }
  }

  /** The calls the store receives for a sequence of requests, one after the other. */
  function Session(reqs: seq<Request>, codec: Codec): (calls: seq<StoreCall>)
    ensures |calls| <= |reqs|
  {
    if reqs == [] then []
    else Session(reqs[..|reqs| - 1], codec) + Forward(reqs[|reqs| - 1], codec)
  }

  /** The requests of `reqs` that the facade does not turn away, in their order. */
  function Accepted(reqs: seq<Request>, codec: Codec): (acc: seq<Request>)
    ensures |acc| <= |reqs|
    ensures forall r :: r in acc ==> r in reqs && Encodable(r, codec)
    ensures forall r :: r in reqs && Encodable(r, codec) ==> r in acc
  {
    if reqs == [] then []
    else
      var last := reqs[|reqs| - 1];
      Accepted(reqs[..|reqs| - 1], codec) + (if Encodable(last, codec) then [last] else [])
  }

  /** Sending the requests one at a time extends the store's trace one Forward at a time. */
  lemma SessionStep(reqs: seq<Request>, req: Request, codec: Codec)
    ensures Session(reqs + [req], codec) == Session(reqs, codec) + Forward(req, codec)
  {
    assert (reqs + [req])[..|reqs|] == reqs;
  }

  /** One more request of a sequence extends the session of the requests before it. */
  lemma SessionPrefixStep(reqs: seq<Request>, i: nat, codec: Codec)
    requires i < |reqs|
    ensures Session(reqs[..i + 1], codec) == Session(reqs[..i], codec) + Forward(reqs[i], codec)
  {
    assert reqs[..i + 1] == reqs[..i] + [reqs[i]];
    SessionStep(reqs[..i], reqs[i], codec);
  }

  /** The session of the whole prefix is the session of the whole sequence. */
  lemma SessionPrefixWhole(reqs: seq<Request>, codec: Codec)
    ensures Session(reqs[..|reqs|], codec) == Session(reqs, codec)
  {
    assert reqs[..|reqs|] == reqs;
  }

  /**
   * The store sees exactly the accepted requests, in their order, each as
   * one call: a Set whose value cannot be encoded never reaches it.
   */
  lemma {:induction false} StoreSeesAcceptedInOrder(reqs: seq<Request>, codec: Codec)
    ensures |Session(reqs, codec)| == |Accepted(reqs, codec)|
    ensures forall k :: 0 <= k < |Accepted(reqs, codec)| ==>
      [Session(reqs, codec)[k]] == Forward(Accepted(reqs, codec)[k], codec)
  {
    if reqs != [] {
      var init, last := reqs[..|reqs| - 1], reqs[|reqs| - 1];
      StoreSeesAcceptedInOrder(init, codec);
      var acc := Accepted(init, codec);
      var s := Session(init, codec);
      if Encodable(last, codec) {
        assert Accepted(reqs, codec) == acc + [last];
        assert Session(reqs, codec) == s + Forward(last, codec);
      } else {
        assert Accepted(reqs, codec) == acc;
        assert Session(reqs, codec) == s;
      }
    }
  }

  /** Turning away unencodable Sets beforehand changes nothing the store sees. */
  lemma {:induction false} RejectedSetsAreInvisible(reqs: seq<Request>, codec: Codec)
    ensures Session(reqs, codec) == Session(Accepted(reqs, codec), codec)
  {
    if reqs != [] {
      var init, last := reqs[..|reqs| - 1], reqs[|reqs| - 1];
      RejectedSetsAreInvisible(init, codec);
      var acc := Accepted(init, codec);
      if Encodable(last, codec) {
        assert Accepted(reqs, codec) == acc + [last];
        SessionStep(acc, last, codec);
      } else {
        assert Accepted(reqs, codec) == acc;
      }
    }
  }

  /** What a store trace extended by a whole session holds, from the session lemmas. */
  lemma TraceOfSession(before: seq<StoreCall>, after: seq<StoreCall>, reqs: seq<Request>, codec: Codec)
    requires after == before + Session(reqs, codec)
    ensures after == before + Session(Accepted(reqs, codec), codec)
    ensures |after| == |before| + |Accepted(reqs, codec)|
    ensures forall k :: 0 <= k < |Accepted(reqs, codec)| ==>
      [after[|before| + k]] == Forward(Accepted(reqs, codec)[k], codec)
  {
    StoreSeesAcceptedInOrder(reqs, codec);
    RejectedSetsAreInvisible(reqs, codec);
    forall k | 0 <= k < |Accepted(reqs, codec)|
      ensures [after[|before| + k]] == Forward(Accepted(reqs, codec)[k], codec)
    {
      assert after[|before| + k] == Session(reqs, codec)[k];
    }
  }

  /**
   * Every value the store is asked to keep is the encoding of a value some
   * caller passed to Set, under that caller's key and converted options.
   */
  lemma {:induction false} StoredValuesAreEncodings(reqs: seq<Request>, codec: Codec, k: nat)
    requires k < |Session(reqs, codec)| && Session(reqs, codec)[k].StoreSet?
    ensures exists j :: (0 <= j < |reqs| && reqs[j].SetRequest? &&
      codec.marshal(reqs[j].value).Success? &&
      Session(reqs, codec)[k] ==
        StoreSet(reqs[j].key, Bytes(codec.marshal(reqs[j].value).value), reqs[j].options.ToStore()))
  {
    var init, last := reqs[..|reqs| - 1], reqs[|reqs| - 1];
    var s := Session(init, codec);
    assert Session(reqs, codec) == s + Forward(last, codec);
    if k < |s| {
      StoredValuesAreEncodings(init, codec, k);
      var j :| 0 <= j < |init| && init[j].SetRequest? &&
        codec.marshal(init[j].value).Success? &&
        s[k] == StoreSet(init[j].key, Bytes(codec.marshal(init[j].value).value), init[j].options.ToStore());
      assert reqs[j] == init[j];
    } else {
      assert reqs[|reqs| - 1] == last;
    }
  }
}
