# Dynamic resource provider: dispatch core

A Dafny model of the dispatch core of Pulumi's Node.js dynamic resource
provider (`sdk/nodejs/cmd/dynamic-provider/index.ts`). The provider is an RPC
endpoint that the engine calls for resources whose CRUD logic is written in
JavaScript. The handler's source travels inside the resource's own property
bag, under the reserved key `__provider`. Each of check, diff, create, update
and delete loads a fresh handler from that entry (diff and update only when
`__provider` is unchanged), calls one of its operations and maps the result
into the RPC's response. Anything thrown along the way becomes an error reply
with no response. `configure` and `invoke` never load a handler.

Files and modules:

- `wrappers.dfy` (`Wrappers`): `Option` and `Result`.
- `values.dfy` (`PropertyValues`): structured values and property bags (`map<string, Value>`).
- `resource_provider.dfy` (`ResourceProvider`): the handler's capability
  interface. Its operations are opaque functions returning a result or the
  message of what they threw. `Loader` stands for loading the handler source
  and running its `handler()` factory.
- `provider_messages.dfy` (`ProviderMessages`): request and response
  messages. An `Option` field of a response is `Some` exactly when the
  dispatcher called its setter. `ReadFailures`/`ReadReplaces` give the list a
  receiver reads, where an unset list reads empty.
- `dynamic_provider.dfy` (`DynamicProvider`): `ProviderKey`, the
  provider-identity guard, `GetProvider` and the seven RPCs. `checkRPC`
  builds its failure list with a loop, so `CheckRPC` and `CollectFailures`
  are methods. The other RPCs are functions.
- `provider_lifecycle.dfy` (`ProviderLifecycle`): lemmas that relate RPCs to
  each other or to different handlers, and the failure list's round trip.

How the code treats missing or unusual handlers:

- An omitted `check`, `diff`, `create`, `update` or `delete` has no default.
  The code calls it without checking (`index.ts` lines 48, 84, 105, 130,
  146), so the call throws, and the model fails with `MissingOperation`.
- `delete` resolves the handler from its request's only bag (lines 145-146).
- The code passes whatever `__provider` holds to `requireFromString`, even
  `undefined` (line 26). The model treats an absent entry as
  `MissingProvider` and hands every other value to the `Loader`.
- The header comment (lines 3-7) describes a `pulumi:testing:providers`
  setting that the code does not read; it is not modelled.

## Model

| member | source | states |
|---|---|---|
| `DynamicProvider.SameProvider` | sdk/nodejs/cmd/dynamic-provider/index.ts:79 | The guard holds exactly when both bags lack `__provider`, or both have it with equal values. |
| `DynamicProvider.GetProvider` | sdk/nodejs/cmd/dynamic-provider/index.ts:22-27 | An absent `__provider` fails. Otherwise the outcome is the loader's on that entry's value: its handler, or its error as `LoadFailed`. |
| `DynamicProvider.ConfigureRPC` | sdk/nodejs/cmd/dynamic-provider/index.ts:29-31 | `configure` succeeds with an empty acknowledgement for every request. |
| `DynamicProvider.InvokeRPC` | sdk/nodejs/cmd/dynamic-provider/index.ts:33-38 | `invoke` always fails with `UnknownFunction(tok)`, and its message ends with the requested token. |
| `DynamicProvider.CollectFailures` | sdk/nodejs/cmd/dynamic-provider/index.ts:53-60 | The wire failure list has one entry per handler failure, in the same order, with property and reason preserved. |
| `DynamicProvider.CheckRPC` | sdk/nodejs/cmd/dynamic-provider/index.ts:40-70 | Resolves from the request's properties. Fails exactly when resolution or `check` fails, with that error. On success, defaults are set iff the handler returned them, the failure list is set iff non-empty, and it mirrors the handler's. |
| `DynamicProvider.DiffRPC` | sdk/nodejs/cmd/dynamic-provider/index.ts:72-95 | A changed `__provider` gives replaces exactly `["__provider"]`. Otherwise resolves from the olds: errors propagate, replaces reads as the handler's list and is set iff non-empty. |
| `DynamicProvider.CreateRPC` | sdk/nodejs/cmd/dynamic-provider/index.ts:97-116 | Resolves from the request's properties. Errors propagate. The id is the handler's verbatim, and properties are set iff the handler returned outs. |
| `DynamicProvider.UpdateRPC` | sdk/nodejs/cmd/dynamic-provider/index.ts:118-140 | Fails with `ProviderChanged` iff `__provider` changed. Otherwise resolves from the olds, propagates errors, and sets properties iff the handler returned outs. |
| `DynamicProvider.DeleteRPC` | sdk/nodejs/cmd/dynamic-provider/index.ts:142-152 | Resolves from the request's properties and calls `delete` with the request's id and that same bag. Succeeds iff both steps do; otherwise replies with their error. |
| `ProviderLifecycle.ResolutionReadsOnlyProviderEntry` | sdk/nodejs/cmd/dynamic-provider/index.ts:24-27 | Two bags with the same `__provider` entry resolve to the same handler or the same error. |
| `ProviderLifecycle.DiffProviderChangeIgnoresHandlers` | sdk/nodejs/cmd/dynamic-provider/index.ts:79-80 | On a provider change, diff replies the same under every loader, so neither the resolver nor a handler is consulted, and its replaces list reads exactly `["__provider"]`. |
| `ProviderLifecycle.UpdateProviderChangeIgnoresHandlers` | sdk/nodejs/cmd/dynamic-provider/index.ts:125-127 | On a provider change, update replies the same under every loader, so neither the resolver nor a handler is consulted, and the reply is the `ProviderChanged` failure. |
| `ProviderLifecycle.NoReplacementAdmitsUpdate` | sdk/nodejs/cmd/dynamic-provider/index.ts:125-127 | A diff that reports nothing to replace implies equal provider entries, so the following update is not refused by the guard. |
| `ProviderLifecycle.OmittedUpdateFails` | sdk/nodejs/cmd/dynamic-provider/index.ts:128-130 | A handler without `update` makes a guarded update fail with `MissingOperation("update")`. |
| `ProviderLifecycle.FailuresRoundTrip` | sdk/nodejs/cmd/dynamic-provider/index.ts:53-61 | A failure list built by `CollectFailures` reads back as exactly the handler's (property, reason) list. |

## Left out

- `main` (lines 154-183): argument check, gRPC server construction, port binding, printing the port, `process.exit`. All process and network I/O.
- Loading handler source with `require-from-string` and calling its `handler()` factory. This is the `Loader` parameter, a function from the `__provider` value to a handler or a thrown message.
- The handlers' business logic: each operation is an opaque function.
- Protobuf `Struct` conversion (`toJavaScript`, `fromJavaScript`) and the generated setters. Bags pass through unchanged, and a set field is an `Option`.
- `async`/`await` and callbacks. Each RPC is one sequential call; calls share no state.
- `console.error` logging of the error and a stack trace.
- `SameProvider`: an `Object` or `List` entry becomes a new JavaScript object on each conversion, so `!==` always finds two of them different, even with equal contents. The model compares them by content. Null, booleans, numbers and strings compare by value in both.
- `MissingProvider` and `MissingOperation` carry no message text. The text comes from `require-from-string` and the JavaScript runtime, which are not part of this model.
- Handler results of the wrong shape (for example, `failures` missing from a check result) would throw a TypeError in the code. Results here always have their declared fields.
- Numbers are `real`; IEEE doubles are not modelled.
