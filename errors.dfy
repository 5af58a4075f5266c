/** The exceptions the mail slots let escape, one constructor per distinct cause. */
module Errors {

  /** The external call that threw: client calls by their interface names. */
  datatype Operation =
    | ConnectCall
    | AuthenticateCall
    | GetMessageCountCall
    | GetMessageCall(index: nat)
    | SendCall
    | DisconnectCall

  datatype Error =
      /** No [host] provided neither in invocation nor in configuration. */
    | MissingHost
      /** No [port] provided neither in invocation nor in configuration. */
    | MissingPort
      /** No [.lambda] provided to [mail.pop3.fetch]. */
    | MissingLambda
      /** No [message] provided to [wait.mail.smtp.send]. */
    | MissingMessage
      /** No [from] sender given in your email. */
    | MissingFrom
      /** No [to] recipient given in your email. */
    | MissingTo
      /** `SingleOrDefault` found more than one child with this name. */
    | MoreThanOne(name: string)
      /** A node value that cannot be converted to the requested type. */
    | InvalidCast
      /** `int.Parse` or `bool.Parse` rejected this text. */
    | InvalidFormat(text: string)
      /** The `.mime.create` slot threw. */
    | MimeCreateFailed
      /** The `eval` of a [.lambda] callback threw. */
    | EvalFailed
      /** The mail client threw during this call. */
    | TransportFailed(operation: Operation)
}
