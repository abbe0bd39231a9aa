/** The application's last Express middleware: every error ends here. */
module ErrorHandler {
  import opened Base

  /** An error as it reaches the handler: an `AppError` carries a status code,
      anything else thrown does not. */
  datatype Error = Error(statusCode: Option<int>, message: string, stack: string)

  /** The JSON body; the field really is spelled `succes`. */
  datatype Body = Body(succes: bool, message: string, stack: Option<string>)

  datatype Outcome =
    | PassOn(err: Error)              // next(err): headers were already sent
    | Respond(status: int, body: Body)

  /** `!statusCode` holds for a missing code and for 0. */
  predicate HasStatus(err: Error) {
    err.statusCode.Some? && err.statusCode.value != 0
  }

  function HandleError(err: Error, headersSent: bool, nodeEnv: Option<string>): (o: Outcome)
    ensures headersSent <==> o == PassOn(err)
    ensures o.Respond? ==> o.status == (if HasStatus(err) then err.statusCode.value else 500)
    ensures o.Respond? ==> !o.body.succes && o.body.message == err.message
    ensures o.Respond? ==> (o.body.stack.Some? <==> nodeEnv == Some("dev"))
    ensures o.Respond? && o.body.stack.Some? ==> o.body.stack.value == err.stack
  {
    if headersSent then PassOn(err)
    else
      var status := if HasStatus(err) then err.statusCode.value else 500;
      Respond(status, Body(false, err.message, if nodeEnv == Some("dev") then Some(err.stack) else None))
  }

  /** A controller's `next(new AppError(message, status))` becomes a response with
      that status and message, whatever the environment. */
  lemma AppErrorResponds(reply: Reply<string>, stack: string, nodeEnv: Option<string>)
    requires reply.Err? && reply.status != 0
    ensures
      var o := HandleError(Error(Some(reply.status), reply.message, stack), false, nodeEnv);
      o.Respond? && o.status == reply.status && o.body.message == reply.message
  {
  }
}
