/**
 * The parts of the .NET runtime that the validation attributes observe:
 * exception types and the exceptions built from them, the objects being
 * validated, message texts, and the metadata and type descriptors that
 * reflection would otherwise supply.
 */
module Runtime {
  import opened Wrappers

  /**
   * A configured exception type. The four framework types are told apart by
   * identity; any other type, a subclass of one of them included, is an
   * `Other`, described by the two facts the code asks reflection for:
   * whether `System.Exception` is assignable from it, and whether it has a
   * public instance constructor taking one string.
   */
  datatype ExnType =
    | ArgumentNull
    | Argument
    | ArgumentOutOfRange
    | InvalidOperation
    | Other(name: string, isException: bool, hasStringCtor: bool)

  /** `Type.Name` of an exception type. */
  function TypeName(t: ExnType): string
  {
    match t
    case ArgumentNull => "ArgumentNullException"
    case Argument => "ArgumentException"
    case ArgumentOutOfRange => "ArgumentOutOfRangeException"
    case InvalidOperation => "InvalidOperationException"
    case Other(name, _, _) => name
  }

  /** `typeof(Exception).IsAssignableFrom(t)`. */
  predicate IsException(t: ExnType)
  {
    !t.Other? || t.isException
  }

  /** `t.GetConstructor(Public | Instance, null, new[] { typeof(string) }, null) != null`. */
  predicate HasStringCtor(t: ExnType)
  {
    !t.Other? || t.hasStringCtor
  }

  /** A value handed to a validation method: a null reference or some object. */
  datatype Value = Null | Ref(id: nat)

  /** The resource strings the code formats; their wording is not part of the model. */
  datatype Resource = ValidationNullMessageSink | ErrorIsNotNullFailedFormat

  /**
   * A message text: a string given by the user, or a resource string
   * formatted with arguments (`String.Format`, where a null argument prints
   * as nothing and is kept here as `None`).
   */
  datatype Text =
    | Literal(chars: string)
    | Formatted(resource: Resource, arguments: seq<Option<string>>)

  /**
   * The constructor an exception was built with. `StringArg` is the public
   * single-string constructor; what the framework does with that string
   * (the message for most types, the parameter name for
   * `ArgumentNullException` and `ArgumentOutOfRangeException`) is not modelled.
   */
  datatype CtorArgs =
    | StringArg(arg: Text)
    | NameAndMessage(paramName: string, message: Text)
    | NameValueAndMessage(paramName: string, actualValue: Value, message: Text)

  /** An exception in flight. */
  datatype Thrown =
    | Raised(exnType: ExnType, args: CtorArgs)
      // `Activator.CreateInstance` found no public constructor taking one string
    | MissingMethod(missing: ExnType)
      // the object `Activator.CreateInstance` built is not an `Exception`
    | InvalidCast(notException: ExnType)
      // a member was accessed through a null reference
    | NullReference

  /** How a call ends: it returns a value, or an exception escapes it. */
  datatype Outcome<+T> = Normal(value: T) | Abrupt(thrown: Thrown) {
    /** The same ending with the value dropped: a caller's `return` after it, or its exception passing through. */
    function Discarded(): Outcome<()>
    {
      if Abrupt? then Abrupt(thrown) else Normal(())
    }
  }

  /**
   * `throw (Exception)Activator.CreateInstance(t, arg)`: the exception thrown
   * is the one built when `t` is a constructible exception type, otherwise
   * the reflection failure that construction or the cast runs into.
   */
  function CreateInstance(t: ExnType, arg: Text): (r: Thrown)
    ensures r.Raised? <==> IsException(t) && HasStringCtor(t)
    ensures r.Raised? ==> r == Raised(t, StringArg(arg))
    ensures r.MissingMethod? <==> !HasStringCtor(t)
    ensures r != NullReference
  {
    if !HasStringCtor(t) then MissingMethod(t)
    else if !IsException(t) then InvalidCast(t)
    else Raised(t, StringArg(arg))
  }

  /**
   * What the build-time checks read of an `INamedMetadataDeclaration`: its
   * name and the name of its parent member (`None` when `ParentMember` is null).
   */
  datatype Metadata = Metadata(name: string, parentMember: Option<string>)

  /** What the not-null check reads of the validated `Type`. */
  datatype ClrType = ClrType(name: string, isValueType: bool, isNullableWrapper: bool)
}
