/** The RPC server (micro/rpc/server.go): tables of serializers and compressors
    by code and of services by name, the dispatch of one request to a service
    method, and the response handleConn writes back.

    Reflection is replaced by data: a service is its name and a table of
    methods, a method is a function from the call options and the decoded
    argument to an optional result and an optional error message, and a Go
    value passed through a method is a `Value`. */
module RpcServer {
  import opened Wrappers
  import opened RpcCompressor
  import opened RpcMeta

  /** A Go value a service method takes or returns. */
  datatype Value = Value(id: int)

  /** Serializer: Code, Encode and Decode. */
  datatype Serializer = Serializer(code: byte,
                                   encode: Value -> Result<seq<byte>, CodecError>,
                                   decode: seq<byte> -> Result<Value, CodecError>)

  /** What a method call returns: results[0], nil or not, and results[1]. */
  datatype Outcome = Outcome(result: Option<Value>, err: Option<string>)

  datatype Service = Service(name: string, methods: map<string, (CallOptions, Value) -> Outcome>)

  datatype Request = Request(requestId: int, version: byte, compressor: byte, serializer: byte,
                             serviceName: string, methodName: string,
                             meta: map<string, string>, data: seq<byte>)

  /** The errors the server produces or passes on. */
  datatype RpcError =
    | ServiceNotFound
    | OnewayRequest
    | UnsupportedSerializer
    | UnsupportedCompressor
    | Codec(cause: CodecError)
    | MethodFailed(message: string)

  /** Response; `error` stands for the error's text, None for empty. */
  datatype Response = Response(requestId: int, version: byte, compressor: byte, serializer: byte,
                               error: Option<RpcError>, data: seq<byte>)

  /** reflectionStub.invoke's result: the encoded data (empty for nil) and the error. */
  datatype Reply = Reply(data: seq<byte>, err: Option<RpcError>)

  /** The error a method's outcome contributes. */
  function MethodError(out: Outcome): Option<RpcError>
  {
    if out.err.Some? then Some(MethodFailed(out.err.value)) else None
  }

  /** reflectionStub.invoke: serializer, then compressor looked up by the
      request's codes; the data decompressed, then decoded; the method called
      with the decoded argument; a non-nil result serialized, without
      compression. The method's error comes back alongside the encoded result;
      an encoding error replaces it. */
  function StubInvoke(serializers: map<byte, Serializer>, compressors: map<byte, Compressor>,
                      svc: Service, opts: CallOptions, req: Request): Reply
    requires req.methodName in svc.methods
  {
    if req.serializer !in serializers then Reply([], Some(UnsupportedSerializer))
    else if req.compressor !in compressors then Reply([], Some(UnsupportedCompressor))
    else
      var sl := serializers[req.serializer];
      var raw := compressors[req.compressor].decompress(req.data);
      if raw.Failure? then Reply([], Some(Codec(raw.error)))
      else
        var arg := sl.decode(raw.value);
        if arg.Failure? then Reply([], Some(Codec(arg.error)))
        else
          var out := svc.methods[req.methodName](opts, arg.value);
          if out.result.None? then Reply([], MethodError(out))
          else
            var bs := sl.encode(out.result.value);
            if bs.Failure? then Reply([], Some(Codec(bs.error))) else Reply(bs.value, MethodError(out))
  }

  /** The response Invoke starts from: the request's id, version and codecs. */
  function Echo(req: Request): Response
  {
    Response(req.requestId, req.version, req.compressor, req.serializer, None, [])
  }

  class Server {
    var services: map<string, Service>
    var serializers: map<byte, Serializer>
    var compressors: map<byte, Compressor>

    /** NewServer: no services, the JSON serializer (whose code is its own) and
        the default compressor. */
    constructor (json: Serializer)
      ensures services == map[] && serializers == map[json.code := json]
      ensures compressors == map[0 := DefaultCompressor()]
    {
      services := map[];
      serializers := map[json.code := json];
      compressors := map[0 := DefaultCompressor()];
    }

    /** RegisterSerializer: keyed by code; a later one replaces an earlier one. */
    method RegisterSerializer(sl: Serializer)
      modifies this
      ensures serializers == old(serializers)[sl.code := sl]
      ensures services == old(services) && compressors == old(compressors)
    {
      serializers := serializers[sl.code := sl];
    }

    /** RegisterCompressor: keyed by code; a later one replaces an earlier one. */
    method RegisterCompressor(c: Compressor)
      modifies this
      ensures compressors == old(compressors)[c.code := c]
      ensures services == old(services) && serializers == old(serializers)
    {
      compressors := compressors[c.code := c];
    }

    /** RegisterService: keyed by name. The stub shares the server's codec
        tables, so codecs registered later serve it as well. */
    method RegisterService(svc: Service)
      modifies this
      ensures services == old(services)[svc.name := svc]
      ensures serializers == old(serializers) && compressors == old(compressors)
    {
      services := services[svc.name := svc];
    }

    /** A request Invoke can dispatch without a panic: reflection finds the
        method of a known service. */
    predicate Dispatchable(req: Request)
      reads this
    {
      req.serviceName in services ==> req.methodName in services[req.serviceName].methods
    }

    /** Server.Invoke: an unknown service gives the echoed response and an
        error; a oneway call to a known service gives no response (nil) and an
        error, the handler running on its own; otherwise the stub's data in the
        echoed response, with its error. */
    function Invoke(opts: CallOptions, req: Request): (Option<Response>, Option<RpcError>)
      requires Dispatchable(req)
      reads this
    {
      if req.serviceName !in services then (Some(Echo(req)), Some(ServiceNotFound))
      else if opts.oneway then (None, Some(OnewayRequest))
      else
        var r := StubInvoke(serializers, compressors, services[req.serviceName], opts, req);
        (Some(Echo(req).(data := r.data)), r.err)
    }

    /** One request of handleConn as written: Meta gives the call options,
        Invoke runs, and the error (if any) is stored on the response before it
        is written. The store dereferences the response, so Invoke must have
        returned one. */
    function ServeAsWritten(req: Request): (resp: Response)
      requires Dispatchable(req) && Invoke(OptionsOf(req.meta), req).0.Some?
      reads this
      ensures resp.error == Invoke(OptionsOf(req.meta), req).1
    {
      var (resp, err) := Invoke(OptionsOf(req.meta), req);
      if err.Some? then resp.value.(error := err) else resp.value
    }

    /** One request of handleConn with a oneway call answered by no frame at
        all; every other request is answered by exactly one response. */
    function Serve(req: Request): Option<Response>
      requires Dispatchable(req)
      reads this
    {
      var (resp, err) := Invoke(OptionsOf(req.meta), req);
      if resp.None? then None
      else if err.Some? then Some(resp.value.(error := err)) else resp
    }
  }

  // ------------------------------------------------------------ properties

  /** Every response Invoke returns echoes the request's id, version and codecs. */
  lemma InvokeEchoes(s: Server, opts: CallOptions, req: Request)
    requires s.Dispatchable(req) && s.Invoke(opts, req).0.Some?
    ensures var r := s.Invoke(opts, req).0.value;
            r.requestId == req.requestId && r.version == req.version &&
            r.compressor == req.compressor && r.serializer == req.serializer
  {
  }

  /** Invoke returns no response exactly for a oneway call to a known service;
      an unknown service always gets a response with no data. */
  lemma InvokeOutcome(s: Server, opts: CallOptions, req: Request)
    requires s.Dispatchable(req)
    ensures s.Invoke(opts, req).0.None? <==> req.serviceName in s.services && opts.oneway
    ensures req.serviceName !in s.services ==>
              s.Invoke(opts, req) == (Some(Echo(req)), Some(ServiceNotFound))
    ensures s.Invoke(opts, req).0.None? ==> s.Invoke(opts, req).1 == Some(OnewayRequest)
  {
  }

  /** The serializer is looked up before the compressor, and an unknown code
      fails before anything is decoded or called. */
  lemma StubCodecOrder(serializers: map<byte, Serializer>, compressors: map<byte, Compressor>,
                       svc: Service, opts: CallOptions, req: Request)
    requires req.methodName in svc.methods
    ensures req.serializer !in serializers ==>
              StubInvoke(serializers, compressors, svc, opts, req) == Reply([], Some(UnsupportedSerializer))
    ensures req.serializer in serializers && req.compressor !in compressors ==>
              StubInvoke(serializers, compressors, svc, opts, req) == Reply([], Some(UnsupportedCompressor))
  {
  }

  /** A decompression or decoding failure is returned and the method is not
      called: any other method table gives the same reply. */
  lemma StubFailsBeforeCall(serializers: map<byte, Serializer>, compressors: map<byte, Compressor>,
                            svc: Service, other: Service, opts: CallOptions, req: Request)
    requires req.methodName in svc.methods && req.methodName in other.methods
    requires req.serializer in serializers && req.compressor in compressors
    requires var raw := compressors[req.compressor].decompress(req.data);
             raw.Failure? || serializers[req.serializer].decode(raw.value).Failure?
    ensures StubInvoke(serializers, compressors, svc, opts, req) == StubInvoke(serializers, compressors, other, opts, req)
    ensures StubInvoke(serializers, compressors, svc, opts, req).data == []
    ensures StubInvoke(serializers, compressors, svc, opts, req).err.Some?
  {
  }

  /** A request whose data decompresses to the serialized argument reaches the
      method with exactly that argument, when the serializer decodes what it
      encodes: the reply is the method's result, serialized, with the method's
      error. */
  lemma StubDeliversArgument(serializers: map<byte, Serializer>, compressors: map<byte, Compressor>,
                             svc: Service, opts: CallOptions, req: Request, arg: Value, encoded: seq<byte>)
    requires req.methodName in svc.methods
    requires req.serializer in serializers && req.compressor in compressors
    requires compressors[req.compressor].decompress(req.data) == Success(encoded)
    requires serializers[req.serializer].decode(encoded) == Success(arg)
    ensures var out := svc.methods[req.methodName](opts, arg);
            var r := StubInvoke(serializers, compressors, svc, opts, req);
            && (out.result.None? ==> r == Reply([], MethodError(out)))
            && (out.result.Some? && serializers[req.serializer].encode(out.result.value).Success? ==>
                  r == Reply(serializers[req.serializer].encode(out.result.value).value, MethodError(out)))
  {
  }

  /** The flaw of handleConn as written: a oneway request to a known service
      leaves it without a response to store the error on. */
  lemma OnewayBreaksServe(s: Server, req: Request)
    requires s.Dispatchable(req) && req.serviceName in s.services
    requires "one-way" in req.meta && req.meta["one-way"] == "true"
    ensures s.Invoke(OptionsOf(req.meta), req).0.None?
  {
  }

  /** The corrected step: no frame exactly for a oneway call to a known
      service; otherwise one response that echoes the request and carries
      Invoke's error. */
  lemma ServeOutcome(s: Server, req: Request)
    requires s.Dispatchable(req)
    ensures s.Serve(req).None? <==> req.serviceName in s.services && OptionsOf(req.meta).oneway
    ensures s.Serve(req).Some? ==>
              && s.Serve(req).value.requestId == req.requestId
              && s.Serve(req).value.error == s.Invoke(OptionsOf(req.meta), req).1
              && s.Serve(req) == Some(s.ServeAsWritten(req))
  {
  }
}
