/**
 * activemq-cpp commands BrokerError: the error a broker reports, with a message, the
 * broker-side exception class, its stack trace and an optional cause, on top of the
 * BaseCommand fields.
 *
 * copyDataStructure copies the four BrokerError fields after checking that the source
 * is a non-NULL BrokerError; it does not copy the BaseCommand fields.
 */
module BrokerErrorCommand {
  import BaseCommandMarshaller

  /** One element of a broker-side stack trace. */
  datatype StackTraceElement = StackTraceElement(className: string, fileName: string, methodName: string, lineNumber: int)

  /** The argument of copyDataStructure: NULL, a BrokerError, or a data structure of another type. */
  datatype Source = Null | Error(e: BrokerError) | Other(typeTag: int)

  /** The NullPointerException copyDataStructure throws for a NULL or foreign source. */
  datatype CopyError = NullPointer

  datatype Outcome = Copied | Rejected(error: CopyError)

  class BrokerError {
    const base: BaseCommandMarshaller.BaseCommand
    var message: string
    var exceptionClass: string
    var stackTraceElements: seq<StackTraceElement>
    var cause: BrokerError?

    constructor ()
      ensures fresh(base) && !base.responseRequired && base.commandId == 0
      ensures message == "" && exceptionClass == ""
      ensures stackTraceElements == [] && cause == null
    {
      base := new BaseCommandMarshaller.BaseCommand();
      message := "";
      exceptionClass := "";
      stackTraceElements := [];
      cause := null;
    }

    /**
     * A BrokerError source has its four fields copied, the cause by reference as the
     * shared pointer is; any other source is rejected before anything changes.
     */
    method CopyDataStructure(src: Source) returns (r: Outcome)
      modifies this
      ensures src.Error? ==> r == Copied
      ensures src.Error? ==> message == old(src.e.message) && exceptionClass == old(src.e.exceptionClass)
      ensures src.Error? ==> stackTraceElements == old(src.e.stackTraceElements) && cause == old(src.e.cause)
      ensures !src.Error? ==> r == Rejected(NullPointer) && unchanged(this)
      ensures base.Value() == old(base.Value())
    {
      if !src.Error? {
        return Rejected(NullPointer);
      }
      var srcErr := src.e;
      var m, c, s, k := srcErr.message, srcErr.exceptionClass, srcErr.stackTraceElements, srcErr.cause;
      message := m;
      exceptionClass := c;
      stackTraceElements := s;
      cause := k;
      r := Copied;
    }
  }
}
