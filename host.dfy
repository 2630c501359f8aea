/**
 * The script-visible style sheet object (host `Stylesheet`): a wrapper that
 * binds one parsed sheet to the element that owns it.
 */
module Host {
  import opened Wrappers
  import opened Css
  import opened Dom

  /**
   * What a wrapper holds: its owning element, the parsed sheet it wraps and
   * the URI passed to its constructor (absent for the constructors that take
   * none).
   */
  datatype SheetInfo = SheetInfo(owner: NodeId, sheet: SheetId, uri: Option<string>)

  /** The error a script sees (`Context.reportRuntimeError`). */
  datatype ScriptError = RuntimeError

  class Stylesheet {
    const owner: NodeId
    const wrapped: SheetId
    const uri: Option<string>

    constructor (owner: NodeId, wrapped: SheetId, uri: Option<string>)
      ensures Info() == SheetInfo(owner, wrapped, uri)
    {
      this.owner := owner;
      this.wrapped := wrapped;
      this.uri := uri;
    }

    function Info(): SheetInfo {
      SheetInfo(owner, wrapped, uri)
    }
  }

  /** What a script can observe of a resolution: the wrapper's contents, or the error. */
  function Describe(r: Result<Stylesheet, ScriptError>): Result<SheetInfo, ScriptError> {
    match r
    case Success(h) => Success(h.Info())
    case Failure(e) => Failure(e)
  }
}
