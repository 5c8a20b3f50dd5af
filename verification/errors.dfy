/**
 * The exceptions the client throws, as tags carrying what their messages
 * are built from (a status failure's message is a function of its status,
 * `Driver.StatusMessage`). `WebDriver_NoSeleniumException` covers the first two tags;
 * every other tag is a plain `WebDriver_Exception`.
 */
module Errors {
  import opened Values
  import opened Command

  /** Text of an HTTP 500 failure: the server's own `value.message`, or one
      the client composes from the request and the decoded body. */
  datatype ServerMessage = Reported(text: string) | Synthesized(cmd: Cmd, body: Value)

  datatype Error =
    | ConnectionFailed(errno: int, errorText: string, cmd: Cmd)
    | NoResponse
    | NotRecognized(cmd: Cmd)
    | ServerFailure(serverMessage: ServerMessage)
    | BadStatus(status: int)
    | BadLocatorFormat(locator: string)
    | UnknownStrategy(strategy: string, locator: string)
    | ElementNotFound(locator: string)
    | NotDisplayed(locator: string)
    | UnknownConfigParameter(name: string)
  {
    /** Thrown as `WebDriver_NoSeleniumException`: the server could not be reached. */
    predicate NoSelenium() {
      ConnectionFailed? || NoResponse?
    }

    /** The exception code: the protocol status for a status failure, and
        PHP's default 0 for every other exception. */
    function Code(): int {
      if BadStatus? then status else 0
    }
  }
}
