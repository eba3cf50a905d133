/**
 * The dispatch core of the dynamic resource provider: one procedure per RPC
 * of the resource-provider service. Each call resolves a fresh handler from
 * the reserved `__provider` entry of a property bag, invokes one of its
 * operations and maps the result into the RPC's response, or turns whatever
 * was thrown into an error reply that carries no response.
 */
module DynamicProvider {
  import opened Wrappers
  import opened PropertyValues
  import opened ResourceProvider
  import opened ProviderMessages

  /** The reserved property that holds the handler's source. */
  const ProviderKey: string := "__provider"

  /** The errors an RPC can reply with. */
  datatype Error =
    | UnknownFunction(tok: string)        // `invoke` is not implemented
    | ProviderChanged                     // `update` across a change of `__provider`
    | MissingProvider                     // the bag has no `__provider` entry to load
    | LoadFailed(message: string)         // loading the source or running its factory threw
    | MissingOperation(operation: string) // the handler does not define the operation
    | OperationFailed(message: string)    // the handler's operation threw
  {
    /** The error's message, for the errors whose text the dispatcher or the handler chooses. */
    function Message(): string
      requires !MissingProvider? && !MissingOperation?
    {
      match this
      case UnknownFunction(tok) => "unknown function " + tok
      case ProviderChanged => "changes to provider should require replacement"
      case LoadFailed(m) => m
      case OperationFailed(m) => m
    }
  }

  /** `bag["__provider"]`, or `None` where JavaScript reads `undefined`. */
  function ProviderEntry(bag: PropertyBag): Option<Value> {
    if ProviderKey in bag then Some(bag[ProviderKey]) else None
  }

  /** The provider-identity guard of `diff` and `update`: the two entries are identical. */
  predicate SameProvider(olds: PropertyBag, news: PropertyBag)
    ensures SameProvider(olds, news) <==>
      (ProviderKey in olds <==> ProviderKey in news) &&
      (ProviderKey in olds && ProviderKey in news ==> olds[ProviderKey] == news[ProviderKey])
  {
    ProviderEntry(olds) == ProviderEntry(news)
  }

  /** Loads a fresh handler from the source held in the bag's `__provider` entry. */
  function GetProvider(props: PropertyBag, load: Loader): (r: Result<Handler, Error>)
    ensures ProviderKey !in props ==> r.Failure? && r.error == MissingProvider
    ensures ProviderKey in props ==> (r.Success? <==> load(props[ProviderKey]).Success?)
    ensures ProviderKey in props && r.Success? ==> r.value == load(props[ProviderKey]).value
    ensures ProviderKey in props && r.Failure? ==> r.error == LoadFailed(load(props[ProviderKey]).error)
  {
    if ProviderKey !in props then Failure(MissingProvider)
    else
      match load(props[ProviderKey])
      case Success(h) => Success(h)
      case Failure(m) => Failure(LoadFailed(m))
  }

  /** The outcome of a handler operation, its thrown message turned into an RPC error. */
  function Caught<T>(outcome: Result<T, string>): Result<T, Error> {
    match outcome
    case Success(v) => Success(v)
    case Failure(m) => Failure(OperationFailed(m))
  }

  function CallCheck(h: Handler, news: PropertyBag): Result<CheckResult, Error> {
    match h.check
    case None => Failure(MissingOperation("check"))
    case Some(op) => Caught(op(news))
  }

  function CallDiff(h: Handler, id: string, olds: PropertyBag, news: PropertyBag): Result<DiffResult, Error> {
    match h.diff
    case None => Failure(MissingOperation("diff"))
    case Some(op) => Caught(op(id, olds, news))
  }

  function CallCreate(h: Handler, news: PropertyBag): Result<CreateResult, Error> {
    match h.create
    case None => Failure(MissingOperation("create"))
    case Some(op) => Caught(op(news))
  }

  function CallUpdate(h: Handler, id: string, olds: PropertyBag, news: PropertyBag): Result<UpdateResult, Error> {
    match h.update
    case None => Failure(MissingOperation("update"))
    case Some(op) => Caught(op(id, olds, news))
  }

  function CallDelete(h: Handler, id: string, props: PropertyBag): Result<(), Error> {
    match h.delete
    case None => Failure(MissingOperation("delete"))
    case Some(op) => Caught(op(id, props))
  }

  /**
   * Resolves the handler from `props` and hands it to `call`; a failed
   * resolution is the outcome and `call` is not made.
   */
  function WithProvider<T>(props: PropertyBag, load: Loader, call: Handler -> Result<T, Error>): Result<T, Error> {
    var h :- GetProvider(props, load);
    call(h)
  }

  /** The wire failures mirror the handler's failures one to one, in order. */
  predicate Mirrors(wire: seq<WireFailure>, failures: seq<CheckFailure>) {
    |wire| == |failures| &&
    forall i :: 0 <= i < |failures| ==>
      wire[i].property == failures[i].property && wire[i].reason == failures[i].reason
  }

  /** `configure` acknowledges any configuration. */
  function ConfigureRPC(req: ConfigureRequest): (r: Result<Empty, Error>)
    ensures r.Success?
  {
    Success(Empty)
  }

  /** `invoke` is not implemented: it fails, naming the requested function. */
  function InvokeRPC(req: InvokeRequest): (r: Result<InvokeResponse, Error>)
    ensures r.Failure? && r.error == UnknownFunction(req.tok)
    ensures EndsWith(r.error.Message(), req.tok)
  {
    Failure(UnknownFunction(req.tok))
  }

  predicate EndsWith(s: string, suffix: string) {
    |suffix| <= |s| && s[|s| - |suffix|..] == suffix
  }

  /** Builds the response's failure list from the handler's, one message per failure. */
  method CollectFailures(failures: seq<CheckFailure>) returns (wire: seq<WireFailure>)
    ensures Mirrors(wire, failures)
  {
    wire := [];
    for k := 0 to |failures|
      invariant Mirrors(wire, failures[..k])
    {
      var f := failures[k];
      wire := wire + [WireFailure(f.property, f.reason)];
    }
  }

  /**
   * `check`: validates the request's properties with the handler resolved
   * from those same properties.
   */
  method CheckRPC(req: CheckRequest, load: Loader) returns (r: Result<CheckResponse, Error>)
    ensures var out := WithProvider(req.properties, load, h => CallCheck(h, req.properties));
      (r.Success? <==> out.Success?) &&
      (r.Failure? ==> r.error == out.error) &&
      (r.Success? ==>
        r.value.defaults == out.value.defaults &&
        (r.value.failures.Some? <==> |out.value.failures| > 0) &&
        Mirrors(r.value.ReadFailures(), out.value.failures))
  {
    var result :- WithProvider(req.properties, load, h => CallCheck(h, req.properties));
    var resp := CheckResponse(None, None);
    if result.defaults.Some? {
      resp := resp.(defaults := result.defaults);
    }
    if |result.failures| != 0 {
      var failures := CollectFailures(result.failures);
      resp := resp.(failures := Some(failures));
    }
    r := Success(resp);
  }

  /**
   * `diff`: a change of `__provider` forces replacement on that key alone;
   * otherwise the handler resolved from the olds decides.
   */
  function DiffRPC(req: DiffRequest, load: Loader): (r: Result<DiffResponse, Error>)
    ensures !SameProvider(req.olds, req.news) ==>
      r.Success? && r.value.replacesList == Some([ProviderKey])
    ensures SameProvider(req.olds, req.news) ==>
      var out := WithProvider(req.olds, load, h => CallDiff(h, req.id, req.olds, req.news));
      (r.Success? <==> out.Success?) &&
      (r.Failure? ==> r.error == out.error) &&
      (r.Success? ==>
        r.value.ReadReplaces() == out.value.replaceKeys &&
        (r.value.replacesList.Some? <==> |out.value.replaceKeys| > 0))
  {
    if !SameProvider(req.olds, req.news) then
      Success(DiffResponse(Some([ProviderKey])))
    else
      var result :- WithProvider(req.olds, load, h => CallDiff(h, req.id, req.olds, req.news));
      if |result.replaceKeys| != 0 then Success(DiffResponse(Some(result.replaceKeys)))
      else Success(DiffResponse(None))
  }

  /** `create`: creates the resource with the handler resolved from its properties. */
  function CreateRPC(req: CreateRequest, load: Loader): (r: Result<CreateResponse, Error>)
    ensures var out := WithProvider(req.properties, load, h => CallCreate(h, req.properties));
      (r.Success? <==> out.Success?) &&
      (r.Failure? ==> r.error == out.error) &&
      (r.Success? ==> r.value.id == out.value.id && r.value.properties == out.value.outs)
  {
    var result :- WithProvider(req.properties, load, h => CallCreate(h, req.properties));
    var resp := CreateResponse(result.id, None);
    if result.outs.Some? then Success(resp.(properties := result.outs)) else Success(resp)
  }

  /**
   * `update`: refuses a change of `__provider`; otherwise the handler resolved
   * from the olds updates the resource.
   */
  function UpdateRPC(req: UpdateRequest, load: Loader): (r: Result<UpdateResponse, Error>)
    ensures (r.Failure? && r.error == ProviderChanged) <==> !SameProvider(req.olds, req.news)
    ensures SameProvider(req.olds, req.news) ==>
      var out := WithProvider(req.olds, load, h => CallUpdate(h, req.id, req.olds, req.news));
      (r.Success? <==> out.Success?) &&
      (r.Failure? ==> r.error == out.error) &&
      (r.Success? ==> r.value.properties == out.value.outs)
  {
    if !SameProvider(req.olds, req.news) then
      Failure(ProviderChanged)
    else
      var result :- WithProvider(req.olds, load, h => CallUpdate(h, req.id, req.olds, req.news));
      var resp := UpdateResponse(None);
      if result.outs.Some? then Success(resp.(properties := result.outs)) else Success(resp)
  }

  /** `delete`: deletes the resource with the handler resolved from its properties. */
  function DeleteRPC(req: DeleteRequest, load: Loader): (r: Result<Empty, Error>)
    ensures var out := WithProvider(req.properties, load, h => CallDelete(h, req.id, req.properties));
      (r.Success? <==> out.Success?) &&
      (r.Failure? ==> r.error == out.error)
  {
    var _ :- WithProvider(req.properties, load, h => CallDelete(h, req.id, req.properties));
    Success(Empty)
  }
}
