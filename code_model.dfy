/**
 * The slice of the weaving host that advice planning touches: the
 * declarations of a module, the advices built for them, the weaver that
 * records where each advice is added, and the host's declaration enumerator.
 */
module CodeModel {
  import opened Wrappers

  /** The two validation attribute families a declaration can be scanned for. */
  datatype Category = ParameterValidationCategory | MethodValidationCategory

  /**
   * A custom attribute on a declaration: the name of its type and the
   * validation family that type derives from, if any.
   */
  datatype CustomAttribute = CustomAttribute(typeName: string, category: Option<Category>)

  /** `typeof(TValidationAttribute).IsAssignableFrom(attributeType)`. */
  predicate AssignableTo(a: CustomAttribute, c: Category)
  {
    a.category == Some(c)
  }

  datatype ParameterDecl = ParameterDecl(name: string, attributes: seq<CustomAttribute>)

  datatype MethodDecl = MethodDecl(name: string, declaringType: string,
                                   parameters: seq<ParameterDecl>, attributes: seq<CustomAttribute>)

  /** A property; `setter` is its set method, `None` for a read-only property. */
  datatype PropertyDecl = PropertyDecl(name: string, setter: Option<MethodDecl>, attributes: seq<CustomAttribute>) {
    predicate CanWrite()
    {
      setter.Some?
    }
  }

  /** The module being woven: its method definitions and its properties, in declaration order. */
  datatype ModuleDecl = ModuleDecl(methods: seq<MethodDecl>, properties: seq<PropertyDecl>)

  /** A set method takes the assigned value as its parameter 0. */
  predicate SetterTakesValue(p: PropertyDecl)
  {
    p.CanWrite() ==> |p.setter.value.parameters| >= 1
  }

  predicate SettersTakeValue(ps: seq<PropertyDecl>)
  {
    forall p | p in ps :: SetterTakesValue(p)
  }

  /** The advices the task builds; their weaving is not part of the model. */
  datatype Advice =
    | ParameterValidationAdvice(declaration: CustomAttribute, parameter: ParameterDecl, parameterIndex: nat)
    | MethodValidationAdvice(attributeDeclaration: CustomAttribute)
    | CollectParametersAdvice(collectFrom: MethodDecl)

  datatype JoinPointKind = BeforeMethodBody | BeforeStaticConstructor

  /** One call made on the weaver: a method-level or a type-level advice. */
  datatype Registration =
    | MethodLevel(advice: Advice, target: MethodDecl, joinPoint: JoinPointKind)
    | TypeLevel(advice: Advice, joinPoint: JoinPointKind, declaringType: string)

  /** The code weaver. Its only state in the model is the registrations made on it, in order. */
  class Weaver {
    var registrations: seq<Registration>

    constructor ()
      ensures registrations == []
    {
      registrations := [];
    }

    /** `AddMethodLevelAdvice(advice, new[] { target }, joinPoint, null)`. */
    method AddMethodLevelAdvice(advice: Advice, target: MethodDecl, joinPoint: JoinPointKind)
      modifies this
      ensures registrations == old(registrations) + [MethodLevel(advice, target, joinPoint)]
    {
      registrations := registrations + [MethodLevel(advice, target, joinPoint)];
    }

    /** `AddTypeLevelAdvice(advice, joinPoint, new[] { declaringType })`. */
    method AddTypeLevelAdvice(advice: Advice, joinPoint: JoinPointKind, declaringType: string)
      modifies this
      ensures registrations == old(registrations) + [TypeLevel(advice, joinPoint, declaringType)]
    {
      registrations := registrations + [TypeLevel(advice, joinPoint, declaringType)];
    }
  }

  /**
   * An `IEnumerator<T>` over a fixed sequence of declarations: `MoveNext`
   * advances to the next item, which `current` then holds.
   */
  class DeclarationEnumerator<T> {
    const items: seq<T>
    var next: nat
    var current: Option<T>

    ghost predicate Valid()
      reads this
    {
      next <= |items|
    }

    constructor (items: seq<T>)
      ensures Valid() && this.items == items && next == 0 && current == None
    {
      this.items := items;
      next := 0;
      current := None;
    }

    method MoveNext() returns (moved: bool)
      requires Valid()
      modifies this
      ensures Valid()
      ensures moved <==> old(next) < |items|
      ensures moved ==> next == old(next) + 1 && current == Some(items[old(next)])
      ensures !moved ==> next == old(next) && current == old(current)
    {
      moved := next < |items|;
      if moved {
        current := Some(items[next]);
        next := next + 1;
      }
    }
  }

  /** `Enumerate`: drains an enumerator, yielding every item it has left, in order. */
  method Enumerate<T>(enumerator: DeclarationEnumerator<T>) returns (s: seq<T>)
    requires enumerator.Valid()
    modifies enumerator
    ensures s == enumerator.items[old(enumerator.next)..]
    ensures enumerator.Valid() && enumerator.next == |enumerator.items|
  {
    ghost var start := enumerator.next;
    s := [];
    var more := enumerator.MoveNext();
    while more
      invariant enumerator.Valid() && start <= enumerator.next
      invariant more ==> start < enumerator.next && enumerator.current == Some(enumerator.items[enumerator.next - 1])
      invariant more ==> s == enumerator.items[start..enumerator.next - 1]
      invariant !more ==> enumerator.next == |enumerator.items| && s == enumerator.items[start..]
      decreases |enumerator.items| - enumerator.next + (if more then 1 else 0)
    {
      s := s + [enumerator.current.value];
      more := enumerator.MoveNext();
    }
  }
}
