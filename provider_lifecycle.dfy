/**
 * Properties that relate several RPCs of the dynamic provider, or one RPC
 * under different handlers, and the failure list's round trip to the engine.
 */
module ProviderLifecycle {
  import opened Wrappers
  import opened PropertyValues
  import opened ResourceProvider
  import opened ProviderMessages
  import opened DynamicProvider

  /** The handler resolved from a bag depends on its `__provider` entry alone. */
  lemma ResolutionReadsOnlyProviderEntry(a: PropertyBag, b: PropertyBag, load: Loader)
    requires ProviderEntry(a) == ProviderEntry(b)
    ensures GetProvider(a, load) == GetProvider(b, load)
  {
  }

  /**
   * When `__provider` changes, `diff` answers without the resolver or any
   * handler: every loader gives the same reply, a replacement on that key.
   */
  lemma DiffProviderChangeIgnoresHandlers(id: string, olds: PropertyBag, news: PropertyBag, load1: Loader, load2: Loader)
    requires !SameProvider(olds, news)
    ensures DiffRPC(DiffRequest(id, olds, news), load1) == DiffRPC(DiffRequest(id, olds, news), load2)
    ensures DiffRPC(DiffRequest(id, olds, news), load1).value.ReadReplaces() == [ProviderKey]
  {
  }

  /**
   * When `__provider` changes, `update` fails without the resolver or any
   * handler: every loader gives the same `ProviderChanged` reply.
   */
  lemma UpdateProviderChangeIgnoresHandlers(id: string, olds: PropertyBag, news: PropertyBag, load1: Loader, load2: Loader)
    requires !SameProvider(olds, news)
    ensures UpdateRPC(UpdateRequest(id, olds, news), load1) == UpdateRPC(UpdateRequest(id, olds, news), load2)
    ensures UpdateRPC(UpdateRequest(id, olds, news), load1) == Failure(ProviderChanged)
  {
  }

  /**
   * The engine follows a `diff` with an in-place `update` only when nothing
   * must be replaced; such an update is never refused by the guard.
   */
  lemma NoReplacementAdmitsUpdate(id: string, olds: PropertyBag, news: PropertyBag, load: Loader)
    requires DiffRPC(DiffRequest(id, olds, news), load).Success?
    requires DiffRPC(DiffRequest(id, olds, news), load).value.ReadReplaces() == []
    ensures SameProvider(olds, news)
    ensures UpdateRPC(UpdateRequest(id, olds, news), load) != Failure(ProviderChanged)
  {
  }

  /** A handler without an `update` method makes every guarded update fail. */
  lemma OmittedUpdateFails(id: string, olds: PropertyBag, news: PropertyBag, load: Loader)
    requires SameProvider(olds, news) && ProviderKey in olds
    requires load(olds[ProviderKey]).Success? && load(olds[ProviderKey]).value.update.None?
    ensures UpdateRPC(UpdateRequest(id, olds, news), load) == Failure(MissingOperation("update"))
  {
  }

  /**
   * How the receiver of a check response, the engine, reads the failure list
   * back into (property, reason) pairs. This is the engine's side and has no
   * counterpart in the provider; it is here to state the round trip below.
   */
  function DecodeFailures(wire: seq<WireFailure>): (failures: seq<CheckFailure>)
    ensures |failures| == |wire|
  {
    if wire == [] then []
    else [CheckFailure(wire[0].property, wire[0].reason)] + DecodeFailures(wire[1..])
  }

  /** A failure list that mirrors the handler's reads back as exactly the handler's. */
  lemma {:induction false} FailuresRoundTrip(wire: seq<WireFailure>, failures: seq<CheckFailure>)
    requires Mirrors(wire, failures)
    ensures DecodeFailures(wire) == failures
  {
    if wire != [] {
      assert Mirrors(wire[1..], failures[1..]);
      FailuresRoundTrip(wire[1..], failures[1..]);
    }
  }
}
