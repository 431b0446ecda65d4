/**
 * The base validation aspect: its two settings (`Exception`, the type thrown
 * on failure, and `FailureMessage`, an optional override of the message),
 * the choice of the exception a failed validation raises, and the
 * build-time self-check that reports a bad configuration to the message sink.
 */
module ValidationBase {
  import opened Wrappers
  import opened Runtime
  import opened Diagnostics

  /** `String.IsNullOrEmpty`. */
  predicate IsNullOrEmpty(s: Option<string>)
  {
    s.None? || s.value == ""
  }

  /** The message a failure is raised with: a set, non-empty `FailureMessage`, else the caller's. */
  function ResolveMessage(failureMessage: Option<string>, message: Text): Text
  {
    if IsNullOrEmpty(failureMessage) then message else Literal(failureMessage.value)
  }

  /** `exception ?? Exception`: an explicit type, else the configured one. */
  function ResolveType(configured: Option<ExnType>, explicitType: Option<ExnType>): Option<ExnType>
  {
    if explicitType.Some? then explicitType else configured
  }

  /** The three argument exceptions the element overload builds with their own constructors. */
  predicate WellKnownArgument(t: ExnType)
  {
    t.ArgumentNull? || t.Argument? || t.ArgumentOutOfRange?
  }

  /** A configured type the build-time check accepts: an exception type with a public `(string)` constructor. */
  predicate Configurable(exception: Option<ExnType>)
  {
    exception.Some? && IsException(exception.value) && HasStringCtor(exception.value)
  }

  /** `new ArgumentNullException("messages", Strings.ValidationNullMessageSink)`. */
  const NullSinkFault: Thrown := Raised(ArgumentNull, NameAndMessage("messages", Formatted(ValidationNullMessageSink, [])))

  /** The message written when every check passes. */
  function PassedMessage(metadata: Metadata): Diagnostic
  {
    Diagnostic(Verbose, ValidationAspectPassedValidation, Some(metadata.name))
  }

  /** One run of a build-time check against a non-null sink: how it ended and what it wrote. */
  datatype Run = Run(outcome: Outcome<()>, written: seq<Diagnostic>)

  /**
   * The checks of `CompileTimeValidate`, given a non-null sink: metadata
   * non-null, then the configured type an exception, then a public `(string)`
   * constructor. The first failure writes one `Fatal` message and ends the
   * call normally; if none fails, one `Verbose` message naming the metadata is
   * written. A null `Exception` fails the type check, but that check formats
   * `Exception.Name` before writing, so the call faults with nothing written.
   */
  function CompileTimeChecks(exception: Option<ExnType>, metadata: Option<Metadata>): (r: Run)
    ensures r.outcome.Abrupt? <==> metadata.Some? && exception.None?
    ensures r.outcome.Abrupt? ==> r.outcome.thrown == NullReference && r.written == []
    ensures r.outcome.Normal? ==> |r.written| == 1 && r.written[0].severity in {Verbose, Fatal}
    ensures r.outcome.Normal? ==> (r.written[0].severity == Verbose <==> metadata.Some? && Configurable(exception))
    ensures metadata.Some? && Configurable(exception) ==> r.written == [PassedMessage(metadata.value)]
    // the metadata is checked first: the exception type is then not looked at
    ensures metadata.None? ==> r == Run(Normal(()), [Diagnostic(Fatal, ErrorNullMetadata, None)])
    // a type that is no exception stops the checks before the constructor is looked for
    ensures metadata.Some? && exception.Some? && !IsException(exception.value) ==>
              r.written == [Diagnostic(Fatal, ErrorValidationExceptionBadType, Some(TypeName(exception.value)))]
    ensures metadata.Some? && exception.Some? && IsException(exception.value) && !HasStringCtor(exception.value) ==>
              r.written == [Diagnostic(Fatal, ErrorValidationExceptionImproperType, Some(TypeName(exception.value)))]
  {
    if metadata.None? then Run(Normal(()), [Diagnostic(Fatal, ErrorNullMetadata, None)])
    else if exception.None? then Run(Abrupt(NullReference), [])
    else if !IsException(exception.value) then
      Run(Normal(()), [Diagnostic(Fatal, ErrorValidationExceptionBadType, Some(TypeName(exception.value)))])
    else if !HasStringCtor(exception.value) then
      Run(Normal(()), [Diagnostic(Fatal, ErrorValidationExceptionImproperType, Some(TypeName(exception.value)))])
    else Run(Normal(()), [PassedMessage(metadata.value)])
  }

  /** `ValidationAttribute`, with its two public settings. */
  class ValidationAttribute {
    var exception: Option<ExnType>
    var failureMessage: Option<string>

    constructor ()
      ensures exception == None && failureMessage == None
    {
      exception := None;
      failureMessage := None;
    }

    /**
     * `ValidationFailed(message, exception)`: the exception a failed
     * validation raises. There is no normal result; the call always throws.
     */
    function ValidationFailed(message: Text, explicitType: Option<ExnType>): (r: Thrown)
      reads this
      // with no type at all the fallback is an InvalidOperationException
      ensures ResolveType(exception, explicitType).None? ==>
                r == Raised(InvalidOperation, StringArg(ResolveMessage(failureMessage, message)))
      // otherwise the resolved type itself, when it can be built, else a reflection error
      ensures var t := ResolveType(exception, explicitType);
              t.Some? ==> (r.Raised? <==> Configurable(t)) && (r.Raised? ==> r.exnType == t.value)
      ensures r.Raised? ==> r.args == StringArg(ResolveMessage(failureMessage, message))
      ensures r != NullReference
      // the reflection failure, if any, is the one `Activator.CreateInstance` runs into
      ensures var t := ResolveType(exception, explicitType);
              t.Some? ==> r == CreateInstance(t.value, ResolveMessage(failureMessage, message))
    {
      var exceptionType := ResolveType(exception, explicitType);
      var errorMessage := ResolveMessage(failureMessage, message);
      if exceptionType.None? then Raised(InvalidOperation, StringArg(errorMessage))
      else CreateInstance(exceptionType.value, errorMessage)
    }

    /**
     * `ValidationFailed(message, elementValue, elementName, exception)`. The
     * three argument exceptions are matched by exact type, in the order
     * argument-null, argument, argument-out-of-range; each carries the element
     * name, only the last the element value, and all three take the caller's
     * raw `message`, not `FailureMessage`. Every other case raises what the
     * short overload raises.
     */
    function ValidationFailedFor(message: Text, elementValue: Value, elementName: string,
                                 explicitType: Option<ExnType>): (r: Thrown)
      reads this
      ensures var t := ResolveType(exception, explicitType);
              t == Some(ArgumentNull) ==> r == Raised(ArgumentNull, NameAndMessage(elementName, message))
      ensures var t := ResolveType(exception, explicitType);
              t == Some(Argument) ==> r == Raised(Argument, NameAndMessage(elementName, message))
      ensures var t := ResolveType(exception, explicitType);
              t == Some(ArgumentOutOfRange) ==>
                r == Raised(ArgumentOutOfRange, NameValueAndMessage(elementName, elementValue, message))
      ensures var t := ResolveType(exception, explicitType);
              !(t.Some? && WellKnownArgument(t.value)) ==> r == ValidationFailed(message, explicitType)
    {
      var exceptionType := ResolveType(exception, explicitType);
      var errorMessage := ResolveMessage(failureMessage, message);
      if exceptionType.None? then Raised(InvalidOperation, StringArg(errorMessage))
      else if exceptionType.value == ArgumentNull then Raised(ArgumentNull, NameAndMessage(elementName, message))
      else if exceptionType.value == Argument then Raised(Argument, NameAndMessage(elementName, message))
      else if exceptionType.value == ArgumentOutOfRange then
        Raised(ArgumentOutOfRange, NameValueAndMessage(elementName, elementValue, message))
      else CreateInstance(exceptionType.value, errorMessage)
    }

    /**
     * `CompileTimeValidate`: a null sink is refused with an
     * `ArgumentNullException` before anything else; otherwise the checks of
     * `CompileTimeChecks` run and append their message. `typeValidated` is
     * not read at this level.
     */
    method CompileTimeValidate(metadata: Option<Metadata>, typeValidated: Option<ClrType>, messages: MessageSink?)
      returns (outcome: Outcome<()>)
      modifies messages
      ensures messages == null ==> outcome == Abrupt(NullSinkFault)
      ensures messages != null ==> outcome == CompileTimeChecks(exception, metadata).outcome
      ensures messages != null ==>
                messages.written == old(messages.written) + CompileTimeChecks(exception, metadata).written
    {
      if messages == null {
        return Abrupt(NullSinkFault);
      }
      var isNotNull := ValidateNonNullMetadata(metadata, messages);
      if !isNotNull {
        return Normal(());
      }
      var isException := ValidateExceptionType(messages);
      if isException.Abrupt? {
        return Abrupt(isException.thrown);
      }
      if !isException.value {
        return Normal(());
      }
      var isInstantiable := ValidateInitializableExceptionType(messages);
      if isInstantiable != Normal(true) {
        return isInstantiable.Discarded();
      }
      messages.Write(PassedMessage(metadata.value));
      return Normal(());
    }

    /** `ValidateExceptionType`: is the configured type an exception? A `Fatal` message if not. */
    method ValidateExceptionType(messages: MessageSink) returns (isException: Outcome<bool>)
      modifies messages
      ensures exception.None? ==> isException == Abrupt(NullReference) && messages.written == old(messages.written)
      ensures exception.Some? ==> isException == Normal(IsException(exception.value))
      ensures exception.Some? ==>
                messages.written == old(messages.written) +
                  if IsException(exception.value) then []
                  else [Diagnostic(Fatal, ErrorValidationExceptionBadType, Some(TypeName(exception.value)))]
    {
      if exception.None? {
        // the message is formatted with `Exception.Name` before it is written
        return Abrupt(NullReference);
      }
      var ok := IsException(exception.value);
      if !ok {
        messages.Write(Diagnostic(Fatal, ErrorValidationExceptionBadType, Some(TypeName(exception.value))));
      }
      return Normal(ok);
    }

    /**
     * `ValidateInitializableExceptionType`: does the configured type have a
     * public `(string)` constructor? A `Fatal` message if not; a null type
     * faults at `Exception.GetConstructor`.
     */
    method ValidateInitializableExceptionType(messages: MessageSink) returns (isInstantiable: Outcome<bool>)
      modifies messages
      ensures exception.None? ==> isInstantiable == Abrupt(NullReference) && messages.written == old(messages.written)
      ensures exception.Some? ==> isInstantiable == Normal(HasStringCtor(exception.value))
      ensures exception.Some? ==>
                messages.written == old(messages.written) +
                  if HasStringCtor(exception.value) then []
                  else [Diagnostic(Fatal, ErrorValidationExceptionImproperType, Some(TypeName(exception.value)))]
    {
      if exception.None? {
        return Abrupt(NullReference);
      }
      var ok := HasStringCtor(exception.value);
      if !ok {
        messages.Write(Diagnostic(Fatal, ErrorValidationExceptionImproperType, Some(TypeName(exception.value))));
      }
      return Normal(ok);
    }

    /** `ValidateNonNullMetadata`: is there metadata? A `Fatal` message if not. */
    static method ValidateNonNullMetadata(metadata: Option<Metadata>, messages: MessageSink) returns (isNotNull: bool)
      modifies messages
      ensures isNotNull == metadata.Some?
      ensures messages.written == old(messages.written) +
                if isNotNull then [] else [Diagnostic(Fatal, ErrorNullMetadata, None)]
    {
      isNotNull := metadata.Some?;
      if !isNotNull {
        messages.Write(Diagnostic(Fatal, ErrorNullMetadata, None));
      }
    }
  }

  /** An explicit exception type overrides the configured one: the configured type plays no part. */
  lemma ExplicitTypeTakesPrecedence(a: ValidationAttribute, b: ValidationAttribute, t: ExnType,
                                    message: Text, elementValue: Value, elementName: string)
    requires b.exception == Some(t) && b.failureMessage == a.failureMessage
    ensures a.ValidationFailed(message, Some(t)) == b.ValidationFailed(message, None)
    ensures a.ValidationFailedFor(message, elementValue, elementName, Some(t))
         == b.ValidationFailedFor(message, elementValue, elementName, None)
  {
  }

  /** The argument exceptions of the element overload ignore `FailureMessage` altogether. */
  lemma ArgumentExceptionsIgnoreFailureMessage(a: ValidationAttribute, b: ValidationAttribute,
                                               message: Text, elementValue: Value, elementName: string,
                                               explicitType: Option<ExnType>)
    requires a.exception == b.exception
    requires ResolveType(a.exception, explicitType).Some? && WellKnownArgument(ResolveType(a.exception, explicitType).value)
    ensures a.ValidationFailedFor(message, elementValue, elementName, explicitType)
         == b.ValidationFailedFor(message, elementValue, elementName, explicitType)
    ensures a.ValidationFailedFor(message, elementValue, elementName, explicitType).args.message == message
  {
  }

  /**
   * A type the build-time check accepted is raised as configured at run
   * time: neither overload then ends in a reflection error.
   */
  lemma AcceptedTypeIsRaised(a: ValidationAttribute, metadata: Metadata,
                             message: Text, elementValue: Value, elementName: string)
    requires CompileTimeChecks(a.exception, Some(metadata)).written == [PassedMessage(metadata)]
    ensures a.ValidationFailed(message, None) == Raised(a.exception.value, StringArg(ResolveMessage(a.failureMessage, message)))
    ensures a.ValidationFailedFor(message, elementValue, elementName, None).Raised?
    ensures a.ValidationFailedFor(message, elementValue, elementName, None).exnType == a.exception.value
  {
  }
}
