/**
 * `RequestStatus`: the three-way outcome the client reports to every callback,
 * derived once from the RPC controller.
 */
module Status {
  import opened Outcomes

  datatype State = Success | Failed | Cancelled

  /** What the client reads from an `RpcController` after a call: its two flags and its error text. */
  datatype Controller = Controller(failed: bool, canceled: bool, errorText: Option<string>)

  /** A constructed `RequestStatus`: its final state and message. */
  datatype RequestStatus = RequestStatus(state: State, message: Option<string>)

  /**
   * The constructor: a failed controller is FAILED, otherwise a canceled one is
   * CANCELLED, otherwise the call succeeded; only the two failure states carry
   * the controller's error text.
   */
  function FromController(controller: Controller): (r: RequestStatus)
    ensures r.state == Failed <==> controller.failed
    ensures r.state == Cancelled <==> !controller.failed && controller.canceled
    ensures r.state == Success <==> !controller.failed && !controller.canceled
    ensures r.state == Success ==> r.message == None
    ensures r.state != Success ==> r.message == controller.errorText
  {
    if controller.failed then RequestStatus(Failed, controller.errorText)
    else if controller.canceled then RequestStatus(Cancelled, controller.errorText)
    else RequestStatus(Success, None)
  }

  /** `succeeded()`. */
  predicate Succeeded(status: RequestStatus) {
    status.state == Success
  }

  /** A request succeeded exactly when its controller neither failed nor was canceled. */
  lemma SucceededIffClean(controller: Controller)
    ensures Succeeded(FromController(controller)) <==> !controller.failed && !controller.canceled
  {
  }

  /** Failure wins over cancellation, and the cancel flag then does not matter. */
  lemma FailureTakesPrecedence(errorText: Option<string>, canceled: bool)
    ensures FromController(Controller(true, canceled, errorText)) == RequestStatus(Failed, errorText)
  {
  }
}
