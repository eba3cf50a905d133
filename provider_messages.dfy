/**
 * The request and response messages of the resource-provider RPC service.
 * A response field of type `Option` is `Some` exactly when the dispatcher
 * called its setter; a repeated field that was never set reads back empty.
 */
module ProviderMessages {
  import opened Wrappers
  import opened PropertyValues

  /** `google.protobuf.Empty`: the acknowledgement of configure and delete. */
  datatype Empty = Empty

  datatype ConfigureRequest = ConfigureRequest(variables: map<string, string>)

  datatype InvokeRequest = InvokeRequest(tok: string, args: PropertyBag)

  datatype InvokeResponse = InvokeResponse(returnValue: PropertyBag)

  datatype CheckRequest = CheckRequest(properties: PropertyBag)

  /** The wire form of one check failure. */
  datatype WireFailure = WireFailure(property: string, reason: string)

  datatype CheckResponse = CheckResponse(defaults: Option<PropertyBag>, failures: Option<seq<WireFailure>>)
  {
    /** The failures list as the receiver reads it. */
    function ReadFailures(): seq<WireFailure> {
      if failures.Some? then failures.value else []
    }
  }

  datatype DiffRequest = DiffRequest(id: string, olds: PropertyBag, news: PropertyBag)

  datatype DiffResponse = DiffResponse(replacesList: Option<seq<string>>)
  {
    /** The replaces list as the receiver reads it. */
    function ReadReplaces(): seq<string> {
      if replacesList.Some? then replacesList.value else []
    }
  }

  datatype CreateRequest = CreateRequest(properties: PropertyBag)

  datatype CreateResponse = CreateResponse(id: string, properties: Option<PropertyBag>)

  datatype UpdateRequest = UpdateRequest(id: string, olds: PropertyBag, news: PropertyBag)

  datatype UpdateResponse = UpdateResponse(properties: Option<PropertyBag>)

  datatype DeleteRequest = DeleteRequest(id: string, properties: PropertyBag)
}
