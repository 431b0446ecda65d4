/**
 * The parameter validation aspect: a validation aspect that also remembers
 * the name of the method owning the validated parameter, captured by its
 * build-time check for use in run-time messages.
 */
module ParameterValidation {
  import opened Wrappers
  import opened Runtime
  import opened Diagnostics
  import opened ValidationBase

  /**
   * The override of `CompileTimeValidate`, given a non-null sink: the base
   * checks, then `metadata.ParentMember.Name`. Because the base reports a bad
   * configuration by returning, that read happens after a `Fatal` message
   * too; it faults when the metadata or its parent member is null.
   */
  function ParameterChecks(exception: Option<ExnType>, metadata: Option<Metadata>): (r: Run)
    // no message of its own
    ensures r.written == CompileTimeChecks(exception, metadata).written
    ensures r.outcome.Normal? <==> metadata.Some? && metadata.value.parentMember.Some? && exception.Some?
    ensures r.outcome.Abrupt? ==> r.outcome.thrown == NullReference
  {
    var checked := CompileTimeChecks(exception, metadata);
    if checked.outcome.Abrupt? then checked
    else if metadata.None? || metadata.value.parentMember.None? then Run(Abrupt(NullReference), checked.written)
    else checked
  }

  /** `MethodName` after the override ran: the parent member's name if it returned, else unchanged. */
  function MethodNameAfter(exception: Option<ExnType>, metadata: Option<Metadata>, before: Option<string>): Option<string>
  {
    if ParameterChecks(exception, metadata).outcome.Normal? then metadata.value.parentMember else before
  }

  /**
   * `ParameterValidationAttribute`. The model keeps the inherited settings in
   * `base`; `methodName` is the privately set `MethodName`, which only
   * `CompileTimeValidate` changes.
   */
  class ParameterValidationAttribute {
    const base: ValidationAttribute
    var methodName: Option<string>

    constructor ()
      ensures fresh(base) && base.exception == None && base.failureMessage == None
      ensures methodName == None
    {
      base := new ValidationAttribute();
      methodName := None;
    }

    /** `CompileTimeValidate`: the base checks, then `MethodName := metadata.ParentMember.Name`. */
    method CompileTimeValidate(metadata: Option<Metadata>, typeValidated: Option<ClrType>, messages: MessageSink?)
      returns (outcome: Outcome<()>)
      modifies this, messages
      ensures messages == null ==> outcome == Abrupt(NullSinkFault) && methodName == old(methodName)
      ensures messages != null ==> outcome == ParameterChecks(base.exception, metadata).outcome
      ensures messages != null ==>
                messages.written == old(messages.written) + ParameterChecks(base.exception, metadata).written
      ensures messages != null ==> methodName == MethodNameAfter(base.exception, metadata, old(methodName))
      ensures outcome.Normal? ==> methodName == metadata.value.parentMember
    {
      outcome := base.CompileTimeValidate(metadata, typeValidated, messages);
      if outcome.Abrupt? {
        return;
      }
      if metadata.None? || metadata.value.parentMember.None? {
        return Abrupt(NullReference);
      }
      methodName := metadata.value.parentMember;
    }
  }

  /**
   * A rejected exception type does not stop `MethodName` from being set: the
   * base writes its `Fatal` message and returns, and the override goes on.
   */
  lemma MethodNameSetDespiteFatal(exception: ExnType, metadata: Metadata, before: Option<string>)
    requires metadata.parentMember.Some? && !(IsException(exception) && HasStringCtor(exception))
    ensures ParameterChecks(Some(exception), Some(metadata)).written[0].severity == Fatal
    ensures MethodNameAfter(Some(exception), Some(metadata), before) == metadata.parentMember
  {
  }

  /** Null metadata is reported by the base and then faults the override, leaving `MethodName` alone. */
  lemma NullMetadataReportedThenFaults(exception: Option<ExnType>, before: Option<string>)
    ensures ParameterChecks(exception, None) == Run(Abrupt(NullReference), [Diagnostic(Fatal, ErrorNullMetadata, None)])
    ensures MethodNameAfter(exception, None, before) == before
  {
  }
}
