/**
 * The capability interface of a dynamic resource provider: the object that
 * the handler source's `handler()` factory returns. Its operations are
 * opaque; each either returns a result or throws, and a thrown error is
 * represented by its message.
 */
module ResourceProvider {
  import opened Wrappers
  import opened PropertyValues

  /** One validation failure reported by a handler's `check`. */
  datatype CheckFailure = CheckFailure(property: string, reason: string)

  /** What `check` returns: optional defaults and the validation failures. */
  datatype CheckResult = CheckResult(defaults: Option<PropertyBag>, failures: seq<CheckFailure>)

  /** What `diff` returns: the properties whose change forces a replacement. */
  datatype DiffResult = DiffResult(replaceKeys: seq<string>)

  /** What `create` returns: the new resource's id and its optional outputs. */
  datatype CreateResult = CreateResult(id: string, outs: Option<PropertyBag>)

  /** What `update` returns: the resource's optional new outputs. */
  datatype UpdateResult = UpdateResult(outs: Option<PropertyBag>)

  /**
   * A live handler. A method the handler object does not define is `None`:
   * calling it is a JavaScript TypeError, so the call fails.
   */
  datatype Handler = Handler(
    check: Option<PropertyBag -> Result<CheckResult, string>>,
    diff: Option<(string, PropertyBag, PropertyBag) -> Result<DiffResult, string>>,
    create: Option<PropertyBag -> Result<CreateResult, string>>,
    update: Option<(string, PropertyBag, PropertyBag) -> Result<UpdateResult, string>>,
    delete: Option<(string, PropertyBag) -> Result<(), string>>)

  /**
   * Loading handler source and running its factory: given the value stored
   * under the reserved key, either a handler or the message of what was thrown.
   */
  type Loader = Value -> Result<Handler, string>
}
