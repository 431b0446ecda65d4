/**
 * The post-compilation task that scans a module for validation attributes
 * and registers the matching advice on the code weaver: parameter advice
 * and method advice for every method definition, then parameter advice on
 * the set method of every writable property.
 */
module ProcessorTask {
  import opened Wrappers
  import opened CodeModel
  import opened RegistrationShape
  import opened AdvicePlan

  class ValidationProcessorTask {
    /** The module of the project being woven. */
    const targetModule: ModuleDecl
    const codeWeaver: Weaver

    /** Creates the weaver, then weaves the methods and then the properties. */
    constructor (targetModule: ModuleDecl)
      requires SettersTakeValue(targetModule.properties)
      ensures this.targetModule == targetModule && fresh(codeWeaver)
      ensures codeWeaver.registrations == Plan(targetModule)
      ensures Paired(codeWeaver.registrations)
      ensures MethodLevelWithin(codeWeaver.registrations[..|MethodsPlan(targetModule.methods)|],
                                set m | m in targetModule.methods)
      ensures PropertyPhase(codeWeaver.registrations[|MethodsPlan(targetModule.methods)|..],
                            Setters(targetModule.properties))
    {
      this.targetModule := targetModule;
      codeWeaver := new Weaver();
      new;
      WeaveMethods();
      WeaveProperties();
      PlanFacts(targetModule);
    }

    /** Parameter advice, parameter by parameter, then method advice, for every method definition. */
    method WeaveMethods()
      modifies codeWeaver
      ensures codeWeaver.registrations == old(codeWeaver.registrations) + MethodsPlan(targetModule.methods)
    {
      ghost var start := codeWeaver.registrations;
      var methods := EnumerateMethods();
      assert methods[..0] == [];
      for j := 0 to |methods|
        invariant codeWeaver.registrations == start + MethodsPlan(methods[..j])
      {
        var target := methods[j];
        ghost var before := codeWeaver.registrations;
        for i := 0 to |target.parameters|
          invariant codeWeaver.registrations == before + ParametersPlan(target, i)
        {
          ApplyParameterAdvice(target.parameters[i], target, i);
          ParametersPlanStep(before, target, i);
        }
        ApplyMethodAdvice(target);
        MethodPlanStep(before, target);
        MethodsPlanStep(start, methods, j);
      }
      assert methods[..|methods|] == methods;
    }

    /** Parameter advice on the set method of every property. */
    method WeaveProperties()
      requires SettersTakeValue(targetModule.properties)
      modifies codeWeaver
      ensures codeWeaver.registrations == old(codeWeaver.registrations) + PropertiesPlan(targetModule.properties)
    {
      ghost var start := codeWeaver.registrations;
      var properties := EnumerateProperties();
      assert properties[..0] == [];
      for j := 0 to |properties|
        invariant SettersTakeValue(properties[..j])
        invariant codeWeaver.registrations == start + PropertiesPlan(properties[..j])
      {
        assert properties[j] in properties;
        ApplyPropertyAdvice(properties[j]);
        PropertiesPlanStep(start, properties, j);
      }
      assert properties[..|properties|] == properties;
    }

    /** One parameter-validation advice per parameter-validation attribute of `target`, on `target` of `owner`. */
    method ApplyParameterAdvice(target: ParameterDecl, owner: MethodDecl, parameterIndex: nat)
      modifies codeWeaver
      ensures codeWeaver.registrations == old(codeWeaver.registrations)
        + ParameterAdvicePlan(FindAdvisable(target.attributes, ParameterValidationCategory), target, parameterIndex, owner)
    {
      ghost var start := codeWeaver.registrations;
      var attributes := FindAdvisable(target.attributes, ParameterValidationCategory);
      assert attributes[..0] == [];
      for k := 0 to |attributes|
        invariant codeWeaver.registrations == start + ParameterAdvicePlan(attributes[..k], target, parameterIndex, owner)
      {
        ApplyAdvice(ParameterValidationAdvice(attributes[k], target, parameterIndex), owner);
        ParameterAdvicePlanStep(start, attributes, k, target, parameterIndex, owner);
      }
      assert attributes[..|attributes|] == attributes;
    }

    /**
     * Nothing for a read-only property; otherwise one parameter-validation
     * advice per parameter-validation attribute of the property, on
     * parameter 0 of its set method.
     */
    method ApplyPropertyAdvice(target: PropertyDecl)
      requires SetterTakesValue(target)
      modifies codeWeaver
      ensures codeWeaver.registrations == old(codeWeaver.registrations) + PropertyPlan(target)
    {
      if !target.CanWrite() {
        return;
      }
      ghost var start := codeWeaver.registrations;
      var setter := target.setter.value;
      var attributes := FindAdvisable(target.attributes, ParameterValidationCategory);
      assert attributes[..0] == [];
      for k := 0 to |attributes|
        invariant codeWeaver.registrations == start + ParameterAdvicePlan(attributes[..k], setter.parameters[0], 0, setter)
      {
        ApplyAdvice(ParameterValidationAdvice(attributes[k], setter.parameters[0], 0), setter);
        ParameterAdvicePlanStep(start, attributes, k, setter.parameters[0], 0, setter);
      }
      assert attributes[..|attributes|] == attributes;
    }

    /** Per method-validation attribute of `target`: a parameter collection, then the method-validation advice. */
    method ApplyMethodAdvice(target: MethodDecl)
      modifies codeWeaver
      ensures codeWeaver.registrations == old(codeWeaver.registrations)
        + MethodAdvicePlan(FindAdvisable(target.attributes, MethodValidationCategory), target)
    {
      ghost var start := codeWeaver.registrations;
      var attributes := FindAdvisable(target.attributes, MethodValidationCategory);
      assert attributes[..0] == [];
      for k := 0 to |attributes|
        invariant codeWeaver.registrations == start + MethodAdvicePlan(attributes[..k], target)
      {
        ApplyCollectParametersAdvice(CollectParametersAdvice(target), target);
        ApplyAdvice(MethodValidationAdvice(attributes[k]), target);
        MethodAdvicePlanStep(start, attributes, k, target);
      }
      assert attributes[..|attributes|] == attributes;
    }

    /** `ApplyAdvice(IAdvice, method)`: before the method body, and before its declaring type's static constructor. */
    method ApplyAdvice(advice: Advice, owner: MethodDecl)
      modifies codeWeaver
      ensures codeWeaver.registrations == old(codeWeaver.registrations) + AdviceRegistrations(advice, owner)
    {
      codeWeaver.AddMethodLevelAdvice(advice, owner, BeforeMethodBody);
      codeWeaver.AddTypeLevelAdvice(advice, BeforeStaticConstructor, owner.declaringType);
    }

    /**
     * `ApplyAdvice(CollectParametersAdvice, method)`, the overload chosen for a
     * parameter collection: before the method body only.
     */
    method ApplyCollectParametersAdvice(advice: Advice, owner: MethodDecl)
      requires advice.CollectParametersAdvice?
      modifies codeWeaver
      ensures codeWeaver.registrations == old(codeWeaver.registrations) + [MethodLevel(advice, owner, BeforeMethodBody)]
    {
      codeWeaver.AddMethodLevelAdvice(advice, owner, BeforeMethodBody);
    }

    /** The module's method definitions, in declaration order. */
    method EnumerateMethods() returns (methods: seq<MethodDecl>)
      ensures methods == targetModule.methods
    {
      var methodEnumerator := new DeclarationEnumerator(targetModule.methods);
      methods := Enumerate(methodEnumerator);
    }

    /** The module's properties, in declaration order. */
    method EnumerateProperties() returns (properties: seq<PropertyDecl>)
      ensures properties == targetModule.properties
    {
      var propertyEnumerator := new DeclarationEnumerator(targetModule.properties);
      properties := Enumerate(propertyEnumerator);
    }
  }
}
