/**
 * The values the engine passes around: which task of the chain is meant,
 * which user callback is invoked and with what, and what the engine does
 * next.  The source calls the next step directly (a task calls `finish`,
 * `finish` calls the next task's `request`, a result handler calls the
 * user's callback); the model returns that next step as an `Action`, and
 * a caller performs it.
 */
module Steps {
  datatype Option<T> = None | Some(value: T)

  /** The eight tasks the current engine chains, in the order it chains them. */
  datatype TaskKind =
    | NormalPermissions
    | BackgroundLocation
    | SystemAlertWindow
    | WriteSettings
    | ManageExternalStorage
    | InstallPackages
    | Notification
    | BodySensorsBackground

  /**
   * How the explain-reason callback is reached: the one that also receives
   * the `beforeRequest` flag is preferred when both are registered.
   */
  datatype ExplainCall = WithBeforeParam(beforeRequest: bool) | WithoutBeforeParam

  /** The arguments of the terminal `RequestCallback.onResult`. */
  datatype RequestResult = RequestResult(allGranted: bool, grantedList: seq<string>, deniedList: seq<string>)

  /** Which user callbacks are registered (non-null) on a builder. */
  datatype Callbacks = Callbacks(
    explainReason: bool,
    explainReasonWithBeforeParam: bool,
    forwardToSettings: bool,
    request: bool)
  {
    /** Some explain-reason callback is registered. */
    predicate CanExplain() {
      explainReason || explainReasonWithBeforeParam
    }

    function ExplainVia(beforeRequest: bool): (c: ExplainCall)
      ensures c.WithBeforeParam? <==> explainReasonWithBeforeParam
      ensures c.WithBeforeParam? ==> c.beforeRequest == beforeRequest
    {
      if explainReasonWithBeforeParam then WithBeforeParam(beforeRequest) else WithoutBeforeParam
    }
  }

  /** The next thing the engine does. */
  datatype Action =
    | Nothing                                                        // the handler returns without a further call
    | TaskFinish                                                     // the current task's finish()
    | TaskRequestAgain(permissions: seq<string>)                     // the current task's requestAgain(list)
    | CallExplainReason(permissions: seq<string>, call: ExplainCall) // the user's explain-reason callback
    | CallForwardToSettings(permissions: seq<string>)                // the user's forward-to-settings callback
    | LaunchPermissionRequest(requested: set<string>)               // the platform's runtime-permission dialog
    | LaunchPermissionRequestList(permissions: seq<string>)         // the same, for the list-based builders
    | LaunchSpecialRequest(kind: TaskKind)                           // the platform screen of one special task
    | LaunchSettings                                                 // the app-details settings page
    | BuilderRequestAgain(permissions: seq<string>)                  // a chain-less builder's requestAgain(list)
    | BuilderForwardToSettings(permissions: seq<string>)             // a builder's forwardToSettings(list)
    | BuilderDialogCancel                                            // a chain-less builder's onPermissionDialogCancel()
    | DeliverResult(result: RequestResult)                           // the user's RequestCallback.onResult
}
