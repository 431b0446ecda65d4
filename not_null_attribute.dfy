/**
 * The not-null aspect: a parameter validation that fails on a null value,
 * raising an `ArgumentNullException` unless configured otherwise, and whose
 * build-time check also rejects value types that can never be null.
 */
module NotNull {
  import opened Wrappers
  import opened Runtime
  import opened Diagnostics
  import opened ValidationBase
  import opened ParameterValidation

  /** A value type other than `Nullable<T>`: it cannot hold null. */
  predicate NonNullable(t: ClrType)
  {
    t.isValueType && !t.isNullableWrapper
  }

  /** The message written for a not-null check on a non-nullable value type; an `Error`, not a `Fatal`. */
  function NonNullableMessage(t: ClrType): Diagnostic
  {
    Diagnostic(Error, ErrorNotNullNonNullable, Some(t.name))
  }

  /** `Strings.ErrorIsNotNullFailedFormat` formatted with the parameter and the method name. */
  function NotNullFailedText(parameterName: string, methodName: Option<string>): Text
  {
    Formatted(ErrorIsNotNullFailedFormat, [Some(parameterName), methodName])
  }

  /**
   * The override of `CompileTimeValidate`, given a non-null sink: the
   * parameter checks, then, whatever they concluded, the value-type check,
   * which faults on a null `typeValidated`.
   */
  function NotNullChecks(exception: Option<ExnType>, metadata: Option<Metadata>, typeValidated: Option<ClrType>): (r: Run)
    ensures ParameterChecks(exception, metadata).written <= r.written
    ensures |r.written| <= |ParameterChecks(exception, metadata).written| + 1
    // the extra message is written exactly for a non-nullable value type
    ensures |r.written| == |ParameterChecks(exception, metadata).written| + 1 <==>
              ParameterChecks(exception, metadata).outcome.Normal? && typeValidated.Some? && NonNullable(typeValidated.value)
    ensures |r.written| > |ParameterChecks(exception, metadata).written| ==> r.written[|r.written| - 1] == NonNullableMessage(typeValidated.value)
    ensures r.outcome.Normal? <==> ParameterChecks(exception, metadata).outcome.Normal? && typeValidated.Some?
    ensures r.outcome.Abrupt? ==> r.outcome.thrown == NullReference
  {
    var checked := ParameterChecks(exception, metadata);
    if checked.outcome.Abrupt? then checked
    else if typeValidated.None? then Run(Abrupt(NullReference), checked.written)
    else if NonNullable(typeValidated.value) then Run(checked.outcome, checked.written + [NonNullableMessage(typeValidated.value)])
    else checked
  }

  /** `NotNullAttribute`; `base` holds the inherited parameter-validation state. */
  class NotNullAttribute {
    const base: ParameterValidationAttribute

    /** The constructor configures `ArgumentNullException`; no failure message is set. */
    constructor ()
      ensures fresh(base) && fresh(base.base)
      ensures base.base.exception == Some(ArgumentNull) && base.base.failureMessage == None
      ensures base.methodName == None
    {
      base := new ParameterValidationAttribute();
      new;
      base.base.exception := Some(ArgumentNull);
    }

    /** `CompileTimeValidate`: the inherited checks, then the non-nullable value-type check. */
    method CompileTimeValidate(metadata: Option<Metadata>, typeValidated: Option<ClrType>, messages: MessageSink?)
      returns (outcome: Outcome<()>)
      modifies base, messages
      ensures messages == null ==> outcome == Abrupt(NullSinkFault) && base.methodName == old(base.methodName)
      ensures messages != null ==> outcome == NotNullChecks(base.base.exception, metadata, typeValidated).outcome
      ensures messages != null ==>
                messages.written == old(messages.written) + NotNullChecks(base.base.exception, metadata, typeValidated).written
      ensures messages != null ==> base.methodName == MethodNameAfter(base.base.exception, metadata, old(base.methodName))
      ensures base.base.exception == old(base.base.exception) && base.base.failureMessage == old(base.base.failureMessage)
    {
      outcome := base.CompileTimeValidate(metadata, typeValidated, messages);
      if outcome.Abrupt? {
        return;
      }
      if typeValidated.None? {
        return Abrupt(NullReference);
      }
      if NonNullable(typeValidated.value) {
        messages.Write(NonNullableMessage(typeValidated.value));
      }
    }

    /**
     * `Validate`: a non-null value passes; a null one raises through the
     * element overload of `ValidationFailed`, with the value, the parameter
     * name and the templated message. `target` is never read.
     */
    function Validate(target: Value, value: Value, parameterName: string): (r: Outcome<()>)
      reads base, base.base
      ensures r.Normal? <==> value != Null
      ensures value == Null ==>
                r == Abrupt(base.base.ValidationFailedFor(NotNullFailedText(parameterName, base.methodName), value, parameterName, None))
    {
      if value == Null then
        Abrupt(base.base.ValidationFailedFor(NotNullFailedText(parameterName, base.methodName), value, parameterName, None))
      else Normal(())
    }
  }

  /**
   * Under the default configuration a null value raises an
   * `ArgumentNullException` naming the parameter, with the templated message
   * even when a `FailureMessage` is set.
   */
  lemma DefaultRaisesArgumentNull(a: NotNullAttribute, target: Value, parameterName: string)
    requires a.base.base.exception == Some(ArgumentNull)
    ensures a.Validate(target, Null, parameterName)
         == Abrupt(Raised(ArgumentNull, NameAndMessage(parameterName, NotNullFailedText(parameterName, a.base.methodName))))
  {
  }

  /** The object hosting the parameter plays no part in the outcome. */
  lemma ValidateIgnoresTarget(a: NotNullAttribute, t1: Value, t2: Value, value: Value, parameterName: string)
    ensures a.Validate(t1, value, parameterName) == a.Validate(t2, value, parameterName)
  {
  }

  /**
   * One call can write two messages: the base's `Fatal` for a rejected
   * exception type, then the `Error` for a non-nullable value type.
   */
  lemma RejectedTypeAndValueTypeWriteTwo(exception: ExnType, metadata: Metadata, typeValidated: ClrType)
    requires metadata.parentMember.Some? && !IsException(exception) && NonNullable(typeValidated)
    ensures NotNullChecks(Some(exception), Some(metadata), Some(typeValidated)).written
         == [Diagnostic(Fatal, ErrorValidationExceptionBadType, Some(TypeName(exception))), NonNullableMessage(typeValidated)]
  {
  }

  /** Reference types and `Nullable<T>` get no message beyond the inherited checks'. */
  lemma NullableTypesAddNothing(exception: Option<ExnType>, metadata: Option<Metadata>, typeValidated: ClrType)
    requires !NonNullable(typeValidated)
    ensures NotNullChecks(exception, metadata, Some(typeValidated)).written == CompileTimeChecks(exception, metadata).written
  {
  }
}
