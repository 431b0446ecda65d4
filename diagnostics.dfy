/**
 * The build host's message channel: messages are (severity, id, argument)
 * triples appended to a sink; locations and formatted texts are not modelled.
 */
module Diagnostics {
  import opened Wrappers

  datatype Severity = Verbose | Error | Fatal

  datatype MessageId =
    | ValidationAspectPassedValidation
    | ErrorValidationExceptionBadType
    | ErrorValidationExceptionImproperType
    | ErrorNullMetadata
    | ErrorNotNullNonNullable

  /** One message: its severity, its id, and the name formatted into it, if any. */
  datatype Diagnostic = Diagnostic(severity: Severity, id: MessageId, argument: Option<string>)

  /** An `IMessageSink`: the messages written to it, in order. */
  class MessageSink {
    var written: seq<Diagnostic>

    constructor ()
      ensures written == []
    {
      written := [];
    }

    /** `IMessageSink.Write`. */
    method Write(d: Diagnostic)
      modifies this
      ensures written == old(written) + [d]
    {
      written := written + [d];
    }
  }
}
