/** What a node's code can throw, and the businessFail helper. */
module Exceptions {

  /** A Java throwable, by the class of handler that catches it in execute:
      a BusinessException carries a code and a message; any other Exception is
      described only by its class name; an Error (a Throwable that is not an
      Exception) is caught by neither handler. */
  datatype Throwable =
    | BusinessException(code: int, msg: string)
    | OtherException(className: string)
    | JavaError(className: string)

  /** The result of a call that either returns a value or throws. */
  datatype Try<R> = Returned(value: R) | Threw(exc: Throwable)

  /** `businessFail(code, msg)`: never returns normally; it always throws a
      business exception carrying exactly the given code and message. */
  function BusinessFail(code: int, msg: string): (t: Try<()>)
    ensures !t.Returned?
    ensures t.exc.BusinessException? && t.exc.code == code && t.exc.msg == msg
  {
    Threw(BusinessException(code, msg))
  }
}
