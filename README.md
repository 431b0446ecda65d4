# PostsharpValidation — a Dafny model of the validation aspects and the weaving task

PostsharpValidation is a set of PostSharp validation aspects. An attribute such as
`[NotNull]` placed on a parameter checks that parameter at run time. When the check
fails, the attribute throws a configurable exception type with an optional fixed
failure message. At build time, each attribute checks its own configuration and
reports each problem to a message sink. A post-compilation task, `ValidationProcessorTask`,
scans the module's declarations. For every validation attribute it finds, it registers
an advice with the code weaver.

This project models and proves:

- **The attribute hierarchy** (`ValidationAttribute` → `ParameterValidationAttribute`
  → `NotNullAttribute`). Each class is a Dafny class. A subclass holds its parent's
  state in a `const base` field.
  - "Throws" is modelled as an `Outcome<T>` (`Normal(value)` or `Abrupt(thrown)`).
  - The exception built is a `Thrown` record. It is `Raised(type, constructor arguments)`
    or one of the runtime failures `MissingMethod`, `InvalidCast` or `NullReference`.
  - Each build-time check is specified by a function returning a `Run`: how the call
    ended and which diagnostics it wrote. The methods on a `MessageSink` are proved
    to append exactly that.
- **The weaving task**, modelled as a class that owns a `Weaver`. The weaver keeps
  the registrations made on it in an append-only sequence.
  - Each method of the task is proved to append exactly the part of a *plan*
    (functions in `AdvicePlan`) that belongs to it.
  - Lemmas about the plan give its structure:
    - it splits into validation pairs and collection triples;
    - parameter advice precedes method advice, in parameter order;
    - property advice goes on parameter 0 of the setter;
    - there is one parameter collection per method-validation attribute;
    - methods are woven before properties.

Files, in dependency order:

- `wrappers.dfy`
- `runtime.dfy`: exception types, `Activator.CreateInstance`, values, metadata
- `diagnostics.dfy`: messages and the sink
- `validation_attribute.dfy`
- `parameter_validation_attribute.dfy`
- `not_null_attribute.dfy`
- `code_model.dfy`: declarations, advices, the weaver, the declaration enumerator and `Enumerate`
- `pairing.dfy` and `registration_shape.dfy`: properties of registration sequences
- `advice_plan.dfy`
- `process_task.dfy`

## Model

All source paths are under `PostsharpValidation.Lib/`.

| member | source | states |
|---|---|---|
| Runtime.CreateInstance | PostsharpValidation.Lib/ValidationAttribute.cs:108 | The configured exception is raised with the message as its single string argument exactly when the type is an exception type with a public `(string)` constructor. A missing constructor gives a missing-method failure. It never gives a null reference. |
| ValidationBase.CompileTimeChecks | PostsharpValidation.Lib/ValidationAttribute.cs:52-70 | The checks run in order: metadata non-null, then the type is an exception, then it has a `(string)` constructor. The first failure writes its one `Fatal` message and returns normally, so later checks never run. If all pass, exactly one `Verbose` message names the metadata. A null `Exception` with non-null metadata faults with a null reference and writes nothing. |
| ValidationBase.ValidationAttribute.ValidationFailed | PostsharpValidation.Lib/ValidationAttribute.cs:97-109 | The explicit type has precedence over the configured one. With neither, an `InvalidOperationException` is raised. A set, non-empty `FailureMessage` replaces the message. The resolved type is raised exactly when it is configurable. Otherwise the result is the reflection failure `CreateInstance` gives for that type. |
| ValidationBase.ValidationAttribute.ValidationFailedFor | PostsharpValidation.Lib/ValidationAttribute.cs:122-145 | The three argument exception types, matched exactly and in source order, are built with the element name (and, for out-of-range, the value) and the caller's raw message. Every other case raises what the short overload raises. |
| ValidationBase.ValidationAttribute.CompileTimeValidate | PostsharpValidation.Lib/ValidationAttribute.cs:46-71 | A null sink throws `ArgumentNullException("messages", …)` before any check. Otherwise the outcome and the appended messages are those of `CompileTimeChecks`. |
| ValidationBase.ValidationAttribute.ValidateExceptionType | PostsharpValidation.Lib/ValidationAttribute.cs:152-171 | The method returns whether the configured type is an exception. On false it appends one `Fatal` bad-type message naming the type. A null type faults without writing. |
| ValidationBase.ValidationAttribute.ValidateInitializableExceptionType | PostsharpValidation.Lib/ValidationAttribute.cs:183-206 | The method returns whether the type has a public `(string)` constructor. On false it appends one `Fatal` improper-type message. A null type faults. |
| ValidationBase.ValidationAttribute.ValidateNonNullMetadata | PostsharpValidation.Lib/ValidationAttribute.cs:214-231 | The method returns whether there is metadata. On false it appends exactly one `Fatal` null-metadata message; on true it appends nothing. |
| ValidationBase.ExplicitTypeTakesPrecedence | PostsharpValidation.Lib/ValidationAttribute.cs:99-101 | Passing an explicit type behaves exactly as configuring that type, in both overloads. |
| ValidationBase.ArgumentExceptionsIgnoreFailureMessage | PostsharpValidation.Lib/ValidationAttribute.cs:135-142 | For the three argument exceptions, the element overload's result does not depend on `FailureMessage` and carries the caller's message. |
| ValidationBase.AcceptedTypeIsRaised | PostsharpValidation.Lib/ValidationAttribute.cs:58-61 | A configuration that passed the build-time check raises its configured type at run time in both overloads, never a reflection failure. This holds for the exception types the model can describe (see "## Left out"). |
| ParameterValidation.ParameterChecks | PostsharpValidation.Lib/ParameterValidationAttribute.cs:33-38 | The override writes exactly what the base writes. It returns normally exactly when metadata, its parent member and the exception type are all non-null. Otherwise it faults with a null reference. |
| ParameterValidation.ParameterValidationAttribute.CompileTimeValidate | PostsharpValidation.Lib/ParameterValidationAttribute.cs:28-38 | It gives the base's outcome and messages, then sets `MethodName` to the parent member's name. A normal return implies `MethodName` is that name. A null sink leaves `MethodName` unchanged. |
| ParameterValidation.MethodNameSetDespiteFatal | PostsharpValidation.Lib/ParameterValidationAttribute.cs:35-37 | A rejected exception type writes a `Fatal` message and `MethodName` is still set. |
| ParameterValidation.NullMetadataReportedThenFaults | PostsharpValidation.Lib/ParameterValidationAttribute.cs:35-37 | Null metadata is reported by the base, then reading `ParentMember` faults, and `MethodName` keeps its old value. |
| NotNull.NotNullChecks | PostsharpValidation.Lib/NotNullAttribute.cs:31-48 | The inherited messages form a prefix. At most one more message is added. It is added exactly when the inherited checks returned and the validated type is a non-`Nullable` value type, and it is the non-nullable `Error`. It returns normally exactly when the inherited part did and the type is non-null. Its only fault is a null reference. |
| NotNull.NotNullAttribute.constructor | PostsharpValidation.Lib/NotNullAttribute.cs:24-27 | The configured exception is `ArgumentNullException`, with no failure message and no method name. |
| NotNull.NotNullAttribute.CompileTimeValidate | PostsharpValidation.Lib/NotNullAttribute.cs:31-48 | The outcome and appended messages are those of `NotNullChecks`. `MethodName` is as in the parameter override. The configuration is unchanged. |
| NotNull.NotNullAttribute.Validate | PostsharpValidation.Lib/NotNullAttribute.cs:51-63 | It passes exactly when the value is non-null. A null value raises what the element overload of `ValidationFailed` raises, given the not-null template, the value and the parameter name. |
| NotNull.DefaultRaisesArgumentNull | PostsharpValidation.Lib/NotNullAttribute.cs:26 | With the default configuration, a null value raises `ArgumentNullException(parameterName, template)`, whatever `FailureMessage` is. |
| NotNull.ValidateIgnoresTarget | PostsharpValidation.Lib/NotNullAttribute.cs:51-63 | The hosting object never affects the outcome. |
| NotNull.RejectedTypeAndValueTypeWriteTwo | PostsharpValidation.Lib/NotNullAttribute.cs:33-35 | A bad exception type on a non-nullable value type writes the `Fatal` message and then the `Error`. |
| NotNull.NullableTypesAddNothing | PostsharpValidation.Lib/NotNullAttribute.cs:35 | Reference types and `Nullable<T>` add no message to the inherited ones. |
| CodeModel.Weaver.AddMethodLevelAdvice | PostsharpValidation.Lib/ValidationProcessTask.cs:109 | It appends one method-level registration and changes nothing else. |
| CodeModel.Weaver.AddTypeLevelAdvice | PostsharpValidation.Lib/ValidationProcessTask.cs:110 | It appends one type-level registration and changes nothing else. |
| CodeModel.Enumerate | PostsharpValidation.Lib/ValidationProcessTask.cs:172-178 | It yields every item the enumerator has left, in order, and leaves the enumerator exhausted. |
| AdvicePlan.FindAdvisable | PostsharpValidation.Lib/ValidationProcessTask.cs:154-160 | An attribute is selected exactly when it is declared and assignable to the category. The result is no longer than the input. |
| AdvicePlan.FindAdvisableAppend | PostsharpValidation.Lib/ValidationProcessTask.cs:154-160 | The filter distributes over concatenation, so declaration order is kept. |
| AdvicePlan.FindAdvisableAllAssignable | PostsharpValidation.Lib/ValidationProcessTask.cs:154-160 | A list whose every attribute is assignable is selected whole, in order. |
| AdvicePlan.FindAdvisableIdempotent | PostsharpValidation.Lib/ValidationProcessTask.cs:154-160 | Filtering twice is filtering once. |
| AdvicePlan.ParameterAdvicePlanAt | PostsharpValidation.Lib/ValidationProcessTask.cs:59-64 | The `k`-th attribute's advice is at positions `2k` (method body) and `2k + 1` (declaring type's static constructor), so the attributes are applied in declaration order. |
| AdvicePlan.ParameterAdvicePlanFacts | PostsharpValidation.Lib/ValidationProcessTask.cs:57-65 | There are two registrations per attribute. Each is a parameter-validation advice with that parameter and index, and the one at position `2k` carries the `k`-th attribute. All are on the method, and they form validation pairs with no collections. |
| AdvicePlan.MethodAdvicePlanAt | PostsharpValidation.Lib/ValidationProcessTask.cs:92-99 | The `k`-th attribute gives positions `3k` to `3k + 2`: the parameter collection on the method, then that attribute's own method-validation advice at the method body and at the static constructor. |
| AdvicePlan.MethodAdvicePlanFacts | PostsharpValidation.Lib/ValidationProcessTask.cs:90-100 | There are three registrations per attribute: a collection immediately before each method-validation pair, and the advice at position `3k + 1` carries the `k`-th attribute. There is one collection per attribute and no parameter advice. |
| AdvicePlan.ParametersPlanFacts | PostsharpValidation.Lib/ValidationProcessTask.cs:35-36 | The advice for parameters `0..n` carries each parameter at its own index, in non-decreasing index order. All of it is on the method, in pairs. |
| AdvicePlan.MethodPlanFacts | PostsharpValidation.Lib/ValidationProcessTask.cs:33-39 | For one method, all parameter advice precedes the method advice, with indices in order and in range. All registrations are on the method. There is one collection per method-validation attribute, and the whole splits into pairs and triples. |
| AdvicePlan.PropertyPlanFacts | PostsharpValidation.Lib/ValidationProcessTask.cs:71-84 | A read-only property gets nothing. A writable one gets two registrations per parameter-validation attribute, on setter parameter 0 with index 0, on the setter, in pairs. The advice at position `2k` carries the `k`-th selected attribute. |
| AdvicePlan.MethodValidationOnPropertyIgnored | PostsharpValidation.Lib/ValidationProcessTask.cs:78-80 | A property with no parameter-validation attribute gets no advice. |
| AdvicePlan.MethodsPlanFacts | PostsharpValidation.Lib/ValidationProcessTask.cs:31-40 | The method phase registers method-level advice only on the module's methods, in pairs and triples. |
| AdvicePlan.PropertiesPlanFacts | PostsharpValidation.Lib/ValidationProcessTask.cs:45-49 | The property phase registers only parameter-validation advice at index 0, on the writable properties' setters, in pairs. |
| AdvicePlan.PlanFacts | PostsharpValidation.Lib/ValidationProcessTask.cs:20-26 | The whole plan is the method phase followed by the property phase, and it splits into pairs and triples. |
| ProcessorTask.ValidationProcessorTask.constructor | PostsharpValidation.Lib/ValidationProcessTask.cs:20-26 | The task creates a fresh weaver, weaves the methods and then the properties. The registrations are exactly the plan, with the structure of `PlanFacts`. |
| ProcessorTask.ValidationProcessorTask.WeaveMethods | PostsharpValidation.Lib/ValidationProcessTask.cs:31-40 | It appends exactly the method phase of the plan. |
| ProcessorTask.ValidationProcessorTask.WeaveProperties | PostsharpValidation.Lib/ValidationProcessTask.cs:45-49 | It appends exactly the property phase of the plan. |
| ProcessorTask.ValidationProcessorTask.ApplyParameterAdvice | PostsharpValidation.Lib/ValidationProcessTask.cs:57-65 | It appends the parameter's advice plan for its filtered attributes, in order. |
| ProcessorTask.ValidationProcessorTask.ApplyPropertyAdvice | PostsharpValidation.Lib/ValidationProcessTask.cs:71-84 | It appends the property's plan, which is empty for a read-only property. |
| ProcessorTask.ValidationProcessorTask.ApplyMethodAdvice | PostsharpValidation.Lib/ValidationProcessTask.cs:90-100 | It appends a collection and then a method-validation pair, once per method-validation attribute. |
| ProcessorTask.ValidationProcessorTask.ApplyAdvice | PostsharpValidation.Lib/ValidationProcessTask.cs:107-111 | It appends the advice before the method body and before the declaring type's static constructor. |
| ProcessorTask.ValidationProcessorTask.ApplyCollectParametersAdvice | PostsharpValidation.Lib/ValidationProcessTask.cs:118-121 | It appends the collection before the method body only. |
| ProcessorTask.ValidationProcessorTask.EnumerateMethods | PostsharpValidation.Lib/ValidationProcessTask.cs:127-132 | It returns the module's method definitions, in order. |
| ProcessorTask.ValidationProcessorTask.EnumerateProperties | PostsharpValidation.Lib/ValidationProcessTask.cs:138-144 | It returns the module's properties, in order. |

## Left out

- Reflection. Exception types, metadata and validated types are descriptors carrying the facts the build-time checks ask for: assignable to `Exception`, has a `(string)` constructor, a value type, a `Nullable<T>`, the parent member's name.
- Message texts. Resource strings, `String.Format`, message locations and the calling assembly's name are not modelled. A message is kept as its severity, its message id and the name it is formatted with.
- `Runtime.CreateInstance`: for `ArgumentNullException` and `ArgumentOutOfRangeException`, the .NET `(string)` constructor takes a parameter name, not a message. The model records only that the single-string constructor was called with the resolved message (`StringArg`). This case arises in the short overload only.
- Runtime.CreateInstance and ValidationBase.AcceptedTypeIsRaised: an exception type is described only by whether it is an exception and whether it has a public `(string)` constructor. Abstract and open generic exception types, and constructors that themselves throw, are not represented. For those, the build-time check passes, but `Activator.CreateInstance` fails at run time. So "never a reflection failure" holds only for the types the model describes.
- Null `message` or `elementName` strings are not modelled. Null `Exception`, `FailureMessage`, metadata, `ParentMember`, validated type and sink are modelled.
- `ValidationAttribute.DeserializeFromString`: binary deserialisation, outside the validation logic.
- `ValidationMethod` and `ReadMethodBase`: reflection over expression trees.
- The abstract `ParameterValidationAttribute.Validate` has no body. It is modelled only through `NotNullAttribute.Validate`.
- `ParameterValidationAttribute` is abstract. The model gives it a constructor only so that `NotNullAttribute` can build its base part.
- `MethodValidationAttribute`: its only member throws `NotImplementedException`. The model keeps only the attribute category that the task scans for.
- The advices' `Weave`, `RequiresWeave` and `Priority` members (in `Advices/`) are not implemented in the source. The advices are plain records here, and the weaver only records registrations. The code PostSharp would emit at each join point is not modelled.
- `ProcessorTask.ValidationProcessorTask.constructor`: the module to weave (`Project.Module`) is a constructor parameter. In the source, the weaving runs in the constructor, before the host would have set `Project`.
- `ProcessorTask.ValidationProcessorTask.constructor` and `ApplyPropertyAdvice` require every writable property's set method to take at least one parameter. The source indexes `Parameters[0]` without a check and relies on CLI metadata rules for this.
- CodeModel.Enumerate drains the enumerator eagerly into a sequence. The source's `yield return` is lazy and interleaves with the weaving loop. Nothing in the weaving touches the enumerator, so the registrations are the same.
- `ProcessorTask.ValidationProcessorTask.ApplyCollectParametersAdvice`: the C# overload chosen at compile time for a `CollectParametersAdvice` is a separate method here.
- The caller's `typeValidated` is not read by the base check, as in the source. The PostSharp message sink is a list of written diagnostics.
