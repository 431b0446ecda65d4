/**
 * The registrations the validation task makes on the weaver, as functions of
 * the module's declarations, and what they guarantee about order and pairing.
 */
module AdvicePlan {
  import opened Wrappers
  import opened CodeModel
  import opened RegistrationShape

  /**
   * `FindAdvisableAttributes<T>`: the attributes whose type is assignable to
   * the category, keeping their declaration order (see `FindAdvisableAppend`).
   */
  function FindAdvisable(attributes: seq<CustomAttribute>, c: Category): (r: seq<CustomAttribute>)
    ensures forall a :: a in r <==> a in attributes && AssignableTo(a, c)
    ensures |r| <= |attributes|
  {
    if attributes == [] then []
    else (if AssignableTo(attributes[0], c) then [attributes[0]] else []) + FindAdvisable(attributes[1..], c)
  }

  /** The filter commutes with concatenation: selected attributes stay in declaration order. */
  lemma {:induction false} FindAdvisableAppend(x: seq<CustomAttribute>, y: seq<CustomAttribute>, c: Category)
    ensures FindAdvisable(x + y, c) == FindAdvisable(x, c) + FindAdvisable(y, c)
  {
    if x == [] {
      assert x + y == y;
    } else {
      assert (x + y)[0] == x[0];
      assert (x + y)[1..] == x[1..] + y;
      FindAdvisableAppend(x[1..], y, c);
    }
  }

  /** An attribute list whose every member is assignable is selected whole. */
  lemma {:induction false} FindAdvisableAllAssignable(attributes: seq<CustomAttribute>, c: Category)
    requires forall k | 0 <= k < |attributes| :: AssignableTo(attributes[k], c)
    ensures FindAdvisable(attributes, c) == attributes
  {
    if attributes != [] {
      FindAdvisableAllAssignable(attributes[1..], c);
      assert [attributes[0]] + attributes[1..] == attributes;
    }
  }

  /** Filtering twice is filtering once: the result holds only assignable attributes. */
  lemma {:induction false} FindAdvisableIdempotent(attributes: seq<CustomAttribute>, c: Category)
    ensures FindAdvisable(FindAdvisable(attributes, c), c) == FindAdvisable(attributes, c)
  {
    if attributes != [] {
      FindAdvisableIdempotent(attributes[1..], c);
      if AssignableTo(attributes[0], c) {
        var rest := FindAdvisable(attributes[1..], c);
        assert ([attributes[0]] + rest)[0] == attributes[0];
        assert ([attributes[0]] + rest)[1..] == rest;
      } else {
        assert [] + FindAdvisable(attributes[1..], c) == FindAdvisable(attributes[1..], c);
      }
    }
  }

  /** `ApplyAdvice(IAdvice, method)`: the advice at the method body, then at its declaring type's static constructor. */
  function AdviceRegistrations(advice: Advice, target: MethodDecl): seq<Registration>
  {
    [MethodLevel(advice, target, BeforeMethodBody), TypeLevel(advice, BeforeStaticConstructor, target.declaringType)]
  }

  /** `ApplyAdvice(CollectParametersAdvice, method)`: at the method body only. */
  function CollectRegistration(target: MethodDecl): seq<Registration>
  {
    [MethodLevel(CollectParametersAdvice(target), target, BeforeMethodBody)]
  }

  /** One parameter-validation advice per attribute, for parameter `index` of `target`, in order. */
  function ParameterAdvicePlan(attributes: seq<CustomAttribute>, parameter: ParameterDecl, index: nat,
                               target: MethodDecl): seq<Registration>
  {
    if attributes == [] then []
    else ParameterAdvicePlan(attributes[..|attributes| - 1], parameter, index, target)
         + AdviceRegistrations(ParameterValidationAdvice(attributes[|attributes| - 1], parameter, index), target)
  }

  /** `ApplyParameterAdvice(method.Parameters[index], method, index)`. */
  function ParameterPlan(target: MethodDecl, index: nat): seq<Registration>
    requires index < |target.parameters|
  {
    var parameter := target.parameters[index];
    ParameterAdvicePlan(FindAdvisable(parameter.attributes, ParameterValidationCategory), parameter, index, target)
  }

  /** The parameter advice of the first `n` parameters of `target`. */
  function ParametersPlan(target: MethodDecl, n: nat): seq<Registration>
    requires n <= |target.parameters|
  {
    if n == 0 then [] else ParametersPlan(target, n - 1) + ParameterPlan(target, n - 1)
  }

  /** A parameter collection, then the method-validation advice, per attribute, in order. */
  function MethodAdvicePlan(attributes: seq<CustomAttribute>, target: MethodDecl): seq<Registration>
  {
    if attributes == [] then []
    else MethodAdvicePlan(attributes[..|attributes| - 1], target)
         + CollectRegistration(target)
         + AdviceRegistrations(MethodValidationAdvice(attributes[|attributes| - 1]), target)
  }

  /** One method of `WeaveMethods`: its parameters' advice, then `ApplyMethodAdvice`. */
  function MethodPlan(target: MethodDecl): seq<Registration>
  {
    ParametersPlan(target, |target.parameters|)
    + MethodAdvicePlan(FindAdvisable(target.attributes, MethodValidationCategory), target)
  }

  /** `WeaveMethods` over the given methods. */
  function MethodsPlan(methods: seq<MethodDecl>): seq<Registration>
  {
    if methods == [] then [] else MethodsPlan(methods[..|methods| - 1]) + MethodPlan(methods[|methods| - 1])
  }

  /** One more attribute of `ApplyParameterAdvice`. */
  lemma ParameterAdvicePlanStep(start: seq<Registration>, attributes: seq<CustomAttribute>, k: nat,
                                parameter: ParameterDecl, index: nat, target: MethodDecl)
    requires k < |attributes|
    ensures start + ParameterAdvicePlan(attributes[..k], parameter, index, target)
            + AdviceRegistrations(ParameterValidationAdvice(attributes[k], parameter, index), target)
            == start + ParameterAdvicePlan(attributes[..k + 1], parameter, index, target)
  {
    assert attributes[..k + 1][..k] == attributes[..k];
  }

  /** One more attribute of `ApplyMethodAdvice`. */
  lemma MethodAdvicePlanStep(start: seq<Registration>, attributes: seq<CustomAttribute>, k: nat, target: MethodDecl)
    requires k < |attributes|
    ensures start + MethodAdvicePlan(attributes[..k], target) + CollectRegistration(target)
            + AdviceRegistrations(MethodValidationAdvice(attributes[k]), target)
            == start + MethodAdvicePlan(attributes[..k + 1], target)
  {
    assert attributes[..k + 1][..k] == attributes[..k];
  }

  /** One more property of `WeaveProperties`. */
  lemma PropertiesPlanStep(start: seq<Registration>, properties: seq<PropertyDecl>, j: nat)
    requires j < |properties| && SettersTakeValue(properties)
    ensures SettersTakeValue(properties[..j]) && SettersTakeValue(properties[..j + 1])
    ensures start + PropertiesPlan(properties[..j]) + PropertyPlan(properties[j])
            == start + PropertiesPlan(properties[..j + 1])
  {
    SettersTakeValuePrefix(properties, j);
    SettersTakeValuePrefix(properties, j + 1);
    assert properties[..j + 1][..j] == properties[..j];
  }

  lemma SettersTakeValuePrefix(properties: seq<PropertyDecl>, j: nat)
    requires j <= |properties| && SettersTakeValue(properties)
    ensures SettersTakeValue(properties[..j])
  {
    forall p | p in properties[..j] ensures SetterTakesValue(p) {
      assert p in properties;
    }
  }

  /** One more parameter of a method of `WeaveMethods`. */
  lemma ParametersPlanStep(start: seq<Registration>, target: MethodDecl, i: nat)
    requires i < |target.parameters|
    ensures start + ParametersPlan(target, i) + ParameterPlan(target, i) == start + ParametersPlan(target, i + 1)
  {
  }

  /** The method advice of a method of `WeaveMethods`, after its parameters. */
  lemma MethodPlanStep(start: seq<Registration>, target: MethodDecl)
    ensures start + ParametersPlan(target, |target.parameters|)
            + MethodAdvicePlan(FindAdvisable(target.attributes, MethodValidationCategory), target)
            == start + MethodPlan(target)
  {
  }

  /** One more method of `WeaveMethods`. */
  lemma MethodsPlanStep(start: seq<Registration>, methods: seq<MethodDecl>, j: nat)
    requires j < |methods|
    ensures start + MethodsPlan(methods[..j]) + MethodPlan(methods[j]) == start + MethodsPlan(methods[..j + 1])
  {
    assert methods[..j + 1][..j] == methods[..j];
  }

  /**
   * `ApplyPropertyAdvice`: nothing for a read-only property; otherwise its
   * parameter-validation attributes, on the setter's parameter 0.
   */
  function PropertyPlan(p: PropertyDecl): seq<Registration>
    requires SetterTakesValue(p)
  {
    if !p.CanWrite() then []
    else
      var setter := p.setter.value;
      ParameterAdvicePlan(FindAdvisable(p.attributes, ParameterValidationCategory), setter.parameters[0], 0, setter)
  }

  /** `WeaveProperties` over the given properties. */
  function PropertiesPlan(properties: seq<PropertyDecl>): seq<Registration>
    requires SettersTakeValue(properties)
  {
    if properties == [] then []
    else PropertiesPlan(properties[..|properties| - 1]) + PropertyPlan(properties[|properties| - 1])
  }

  /** Everything the task's constructor registers: the methods, then the properties. */
  function Plan(m: ModuleDecl): seq<Registration>
    requires SettersTakeValue(m.properties)
  {
    MethodsPlan(m.methods) + PropertiesPlan(m.properties)
  }

  /** The set methods of the writable properties. */
  function Setters(properties: seq<PropertyDecl>): set<MethodDecl>
  {
    set p | p in properties && p.CanWrite() :: p.setter.value
  }

  /**
   * The `k`-th attribute's advice sits at positions `2k` and `2k + 1`: the
   * attributes are applied one by one, in declaration order.
   */
  lemma {:induction false} ParameterAdvicePlanAt(attributes: seq<CustomAttribute>, parameter: ParameterDecl,
                                                 index: nat, target: MethodDecl)
    ensures |ParameterAdvicePlan(attributes, parameter, index, target)| == 2 * |attributes|
    ensures forall k | 0 <= k < |attributes| ::
              && ParameterAdvicePlan(attributes, parameter, index, target)[2 * k]
                 == MethodLevel(ParameterValidationAdvice(attributes[k], parameter, index), target, BeforeMethodBody)
              && ParameterAdvicePlan(attributes, parameter, index, target)[2 * k + 1]
                 == TypeLevel(ParameterValidationAdvice(attributes[k], parameter, index), BeforeStaticConstructor,
                              target.declaringType)
  {
    if attributes != [] {
      var init := attributes[..|attributes| - 1];
      ParameterAdvicePlanAt(init, parameter, index, target);
      var head := ParameterAdvicePlan(init, parameter, index, target);
      var r := ParameterAdvicePlan(attributes, parameter, index, target);
      forall k | 0 <= k < |attributes|
        ensures r[2 * k] == MethodLevel(ParameterValidationAdvice(attributes[k], parameter, index), target, BeforeMethodBody)
        ensures r[2 * k + 1] == TypeLevel(ParameterValidationAdvice(attributes[k], parameter, index),
                                          BeforeStaticConstructor, target.declaringType)
      {
        if k < |init| {
          assert attributes[k] == init[k];
          assert r[2 * k] == head[2 * k] && r[2 * k + 1] == head[2 * k + 1];
        }
      }
    }
  }

  /**
   * The `k`-th attribute's advice sits at positions `3k` to `3k + 2`: a
   * parameter collection, then that attribute's own method-validation advice.
   */
  lemma {:induction false} MethodAdvicePlanAt(attributes: seq<CustomAttribute>, target: MethodDecl)
    ensures |MethodAdvicePlan(attributes, target)| == 3 * |attributes|
    ensures forall k | 0 <= k < |attributes| ::
              && MethodAdvicePlan(attributes, target)[3 * k]
                 == MethodLevel(CollectParametersAdvice(target), target, BeforeMethodBody)
              && MethodAdvicePlan(attributes, target)[3 * k + 1]
                 == MethodLevel(MethodValidationAdvice(attributes[k]), target, BeforeMethodBody)
              && MethodAdvicePlan(attributes, target)[3 * k + 2]
                 == TypeLevel(MethodValidationAdvice(attributes[k]), BeforeStaticConstructor, target.declaringType)
  {
    if attributes != [] {
      var init := attributes[..|attributes| - 1];
      MethodAdvicePlanAt(init, target);
      var head := MethodAdvicePlan(init, target);
      var r := MethodAdvicePlan(attributes, target);
      forall k | 0 <= k < |attributes|
        ensures r[3 * k] == MethodLevel(CollectParametersAdvice(target), target, BeforeMethodBody)
        ensures r[3 * k + 1] == MethodLevel(MethodValidationAdvice(attributes[k]), target, BeforeMethodBody)
        ensures r[3 * k + 2] == TypeLevel(MethodValidationAdvice(attributes[k]), BeforeStaticConstructor,
                                          target.declaringType)
      {
        if k < |init| {
          assert attributes[k] == init[k];
          assert r[3 * k] == head[3 * k] && r[3 * k + 1] == head[3 * k + 1] && r[3 * k + 2] == head[3 * k + 2];
        }
      }
    }
  }

  /**
   * The advice for one parameter: two registrations per attribute, each a
   * parameter-validation advice tagged with that parameter and its index,
   * all on `target`.
   */
  lemma {:induction false} ParameterAdvicePlanFacts(attributes: seq<CustomAttribute>, parameter: ParameterDecl,
                                                    index: nat, target: MethodDecl)
    ensures |ParameterAdvicePlan(attributes, parameter, index, target)| == 2 * |attributes|
    ensures ParameterAdviceFrom(ParameterAdvicePlan(attributes, parameter, index, target), attributes, parameter, index)
    ensures AllOn(ParameterAdvicePlan(attributes, parameter, index, target), target)
    ensures Paired(ParameterAdvicePlan(attributes, parameter, index, target))
    ensures CollectCount(ParameterAdvicePlan(attributes, parameter, index, target)) == 0
    ensures forall k | 0 <= k < |attributes| ::
              ParameterAdvicePlan(attributes, parameter, index, target)[2 * k].advice
              == ParameterValidationAdvice(attributes[k], parameter, index)
  {
    ParameterAdvicePlanAt(attributes, parameter, index, target);
    var r := ParameterAdvicePlan(attributes, parameter, index, target);
    if attributes != [] {
      var init := attributes[..|attributes| - 1];
      var last := attributes[|attributes| - 1];
      ParameterAdvicePlanFacts(init, parameter, index, target);
      var head := ParameterAdvicePlan(init, parameter, index, target);
      var tail := AdviceRegistrations(ParameterValidationAdvice(last, parameter, index), target);
      assert r == head + tail;
      assert Paired(tail) by {
        assert tail[2..] == [];
      }
      PairedAppend(r, head, tail);
      AllOnAppend(head, tail, target);
      forall k | 0 <= k < |r|
        ensures r[k].advice.ParameterValidationAdvice? && r[k].advice.parameter == parameter
        ensures r[k].advice.parameterIndex == index && r[k].advice.declaration in attributes
      {
        if k < |head| {
          assert r[k] == head[k];
          assert r[k].advice.declaration in init;
        } else {
          assert r[k] == tail[k - |head|];
        }
      }
    }
    NoCollectCountsZero(r);
  }

  /**
   * The method-level advice: three registrations per attribute, a parameter
   * collection immediately before each method-validation advice, so there
   * are as many collections as attributes; no parameter advice among them.
   */
  lemma {:induction false} MethodAdvicePlanFacts(attributes: seq<CustomAttribute>, target: MethodDecl)
    ensures |MethodAdvicePlan(attributes, target)| == 3 * |attributes|
    ensures forall k | 0 <= k < |MethodAdvicePlan(attributes, target)| ::
              !MethodAdvicePlan(attributes, target)[k].advice.ParameterValidationAdvice?
    ensures AllOn(MethodAdvicePlan(attributes, target), target)
    ensures Paired(MethodAdvicePlan(attributes, target))
    ensures CollectCount(MethodAdvicePlan(attributes, target)) == |attributes|
    ensures forall k | 0 <= k < |attributes| ::
              && MethodAdvicePlan(attributes, target)[3 * k].advice == CollectParametersAdvice(target)
              && MethodAdvicePlan(attributes, target)[3 * k + 1].advice == MethodValidationAdvice(attributes[k])
  {
    MethodAdvicePlanAt(attributes, target);
    var r := MethodAdvicePlan(attributes, target);
    if attributes != [] {
      var init := attributes[..|attributes| - 1];
      var last := attributes[|attributes| - 1];
      MethodAdvicePlanFacts(init, target);
      var head := MethodAdvicePlan(init, target);
      var collect := CollectRegistration(target);
      var pair := AdviceRegistrations(MethodValidationAdvice(last), target);
      var tail := collect + pair;
      assert r == head + tail;
      assert Paired(tail) by {
        assert tail[3..] == [];
      }
      PairedAppend(r, head, tail);
      assert AllOn(tail, target);
      AllOnAppend(head, tail, target);
      assert CollectCount(collect) == 1 by {
        assert collect[..0] == [];
      }
      NoCollectCountsZero(pair);
      CollectCountAppend(collect, pair);
      CollectCountAppend(head, tail);
      forall k | 0 <= k < |r| ensures !r[k].advice.ParameterValidationAdvice? {
        if k < |head| {
          assert r[k] == head[k];
        } else {
          assert r[k] == tail[k - |head|];
        }
      }
    }
  }

  /**
   * The parameter advice of the first `n` parameters of `target`: each
   * carries the parameter at its own index, and the indices never decrease
   * along the sequence.
   */
  lemma ParametersPlanFacts(target: MethodDecl, n: nat)
    requires n <= |target.parameters|
    ensures TaggedBelow(ParametersPlan(target, n), target, n)
    ensures IndicesInOrder(ParametersPlan(target, n))
    ensures AllOn(ParametersPlan(target, n), target)
    ensures Paired(ParametersPlan(target, n))
    ensures CollectCount(ParametersPlan(target, n)) == 0
  {
    ParametersPlanTagged(target, n);
    ParametersPlanOn(target, n);
    ParametersPlanPaired(target, n);
  }

  /** `ParameterAdvicePlanFacts` for the advice of parameter `i` of `target`. */
  lemma ParameterPlanFacts(target: MethodDecl, i: nat)
    requires i < |target.parameters|
    ensures ParameterAdviceFrom(ParameterPlan(target, i),
                                FindAdvisable(target.parameters[i].attributes, ParameterValidationCategory),
                                target.parameters[i], i)
    ensures AllOn(ParameterPlan(target, i), target)
    ensures CollectCount(ParameterPlan(target, i)) == 0
  {
    ParameterAdvicePlanFacts(FindAdvisable(target.parameters[i].attributes, ParameterValidationCategory),
                             target.parameters[i], i, target);
  }

  lemma ParameterPlanPaired(target: MethodDecl, i: nat)
    requires i < |target.parameters|
    ensures Paired(ParameterPlan(target, i))
  {
    ParameterAdvicePlanFacts(FindAdvisable(target.parameters[i].attributes, ParameterValidationCategory),
                             target.parameters[i], i, target);
  }

  lemma ParametersPlanUnfold(target: MethodDecl, n: nat)
    requires 0 < n <= |target.parameters|
    ensures ParametersPlan(target, n) == ParametersPlan(target, n - 1) + ParameterPlan(target, n - 1)
  {
  }

  lemma {:induction false} ParametersPlanPaired(target: MethodDecl, n: nat)
    requires n <= |target.parameters|
    ensures Paired(ParametersPlan(target, n))
  {
    if n > 0 {
      ParametersPlanPaired(target, n - 1);
      ParameterPlanPaired(target, n - 1);
      ParametersPlanUnfold(target, n);
      PairedAppend(ParametersPlan(target, n), ParametersPlan(target, n - 1), ParameterPlan(target, n - 1));
    }
  }

  lemma {:induction false} ParametersPlanTagged(target: MethodDecl, n: nat)
    requires n <= |target.parameters|
    ensures TaggedBelow(ParametersPlan(target, n), target, n)
    ensures IndicesInOrder(ParametersPlan(target, n))
  {
    if n > 0 {
      ParametersPlanTagged(target, n - 1);
      ParameterPlanFacts(target, n - 1);
      ParametersPlanUnfold(target, n);
      TaggedAppend(ParametersPlan(target, n - 1), ParameterPlan(target, n - 1), target, n,
                   FindAdvisable(target.parameters[n - 1].attributes, ParameterValidationCategory));
    }
  }

  lemma {:induction false} ParametersPlanOn(target: MethodDecl, n: nat)
    requires n <= |target.parameters|
    ensures AllOn(ParametersPlan(target, n), target)
    ensures CollectCount(ParametersPlan(target, n)) == 0
  {
    if n > 0 {
      ParametersPlanOn(target, n - 1);
      ParameterPlanFacts(target, n - 1);
      ParametersPlanUnfold(target, n);
      AllOnAppend(ParametersPlan(target, n - 1), ParameterPlan(target, n - 1), target);
      CollectCountAppend(ParametersPlan(target, n - 1), ParameterPlan(target, n - 1));
    }
  }

  /**
   * One method's registrations: all its parameter advice, in increasing
   * parameter index and tagged with its own parameter, precedes its
   * method-level advice; all are on the method or its declaring type; the
   * parameter collections number the method's method-validation attributes.
   */
  lemma {:induction false} MethodPlanFacts(target: MethodDecl)
    ensures ParameterAdviceFirst(MethodPlan(target))
    ensures IndicesInOrder(MethodPlan(target))
    ensures forall k | 0 <= k < |MethodPlan(target)| && MethodPlan(target)[k].advice.ParameterValidationAdvice? ::
              && MethodPlan(target)[k].advice.parameterIndex < |target.parameters|
              && MethodPlan(target)[k].advice.parameter == target.parameters[MethodPlan(target)[k].advice.parameterIndex]
    ensures AllOn(MethodPlan(target), target)
    ensures CollectCount(MethodPlan(target)) == |FindAdvisable(target.attributes, MethodValidationCategory)|
    ensures Paired(MethodPlan(target))
  {
    var head := ParametersPlan(target, |target.parameters|);
    var attributes := FindAdvisable(target.attributes, MethodValidationCategory);
    var tail := MethodAdvicePlan(attributes, target);
    ParametersPlanFacts(target, |target.parameters|);
    MethodAdvicePlanFacts(attributes, target);
    var r := MethodPlan(target);
    assert r == head + tail;
    PairedAppend(r, head, tail);
    AllOnAppend(head, tail, target);
    CollectCountAppend(head, tail);
    ParameterAdviceThenOther(head, tail);
    forall k | 0 <= k < |r| && r[k].advice.ParameterValidationAdvice?
      ensures r[k].advice.parameterIndex < |target.parameters|
      ensures r[k].advice.parameter == target.parameters[r[k].advice.parameterIndex]
    {
      assert r[k] == head[k];
    }
  }

  /**
   * One property's registrations: none unless it is writable; then two per
   * parameter-validation attribute, each a parameter-validation advice on the
   * setter's parameter 0 with index 0, on the setter or its declaring type.
   */
  lemma {:induction false} PropertyPlanFacts(p: PropertyDecl)
    requires SetterTakesValue(p)
    ensures !p.CanWrite() ==> PropertyPlan(p) == []
    ensures p.CanWrite() ==> |PropertyPlan(p)| == 2 * |FindAdvisable(p.attributes, ParameterValidationCategory)|
    ensures p.CanWrite() ==>
              ParameterAdviceFrom(PropertyPlan(p), FindAdvisable(p.attributes, ParameterValidationCategory),
                                  p.setter.value.parameters[0], 0)
    ensures p.CanWrite() ==> AllOn(PropertyPlan(p), p.setter.value)
    ensures Paired(PropertyPlan(p))
    ensures p.CanWrite() ==>
              forall k | 0 <= k < |FindAdvisable(p.attributes, ParameterValidationCategory)| ::
                PropertyPlan(p)[2 * k].advice
                == ParameterValidationAdvice(FindAdvisable(p.attributes, ParameterValidationCategory)[k],
                                             p.setter.value.parameters[0], 0)
  {
    if p.CanWrite() {
      var setter := p.setter.value;
      ParameterAdvicePlanFacts(FindAdvisable(p.attributes, ParameterValidationCategory), setter.parameters[0], 0, setter);
    }
  }

  /**
   * Properties are scanned for parameter validation only: a property whose
   * attributes are all method validations, or unrelated, gets no advice.
   */
  lemma {:induction false} MethodValidationOnPropertyIgnored(p: PropertyDecl)
    requires SetterTakesValue(p)
    requires forall a | a in p.attributes :: !AssignableTo(a, ParameterValidationCategory)
    ensures PropertyPlan(p) == []
  {
    PropertyPlanFacts(p);
  }

  lemma {:induction false} MethodsPlanFacts(methods: seq<MethodDecl>)
    ensures MethodLevelWithin(MethodsPlan(methods), set m | m in methods)
    ensures Paired(MethodsPlan(methods))
  {
    if methods != [] {
      var init := methods[..|methods| - 1];
      var last := methods[|methods| - 1];
      MethodsPlanFacts(init);
      MethodPlanFacts(last);
      var head := MethodsPlan(init);
      var tail := MethodPlan(last);
      assert (set m | m in init) <= (set m | m in methods);
      assert MethodLevelWithin(tail, set m | m in methods);
      MethodLevelWithinAppend(head, tail, set m | m in methods);
      PairedAppend(MethodsPlan(methods), head, tail);
    }
  }

  lemma {:induction false} PropertiesPlanFacts(properties: seq<PropertyDecl>)
    requires SettersTakeValue(properties)
    ensures PropertyPhase(PropertiesPlan(properties), Setters(properties))
    ensures Paired(PropertiesPlan(properties))
  {
    if properties != [] {
      var init := properties[..|properties| - 1];
      var last := properties[|properties| - 1];
      assert forall p | p in init :: p in properties;
      PropertiesPlanFacts(init);
      PropertyPlanFacts(last);
      var head := PropertiesPlan(init);
      var tail := PropertyPlan(last);
      PairedAppend(PropertiesPlan(properties), head, tail);
      assert Setters(init) <= Setters(properties);
      assert PropertyPhase(head, Setters(properties));
      assert PropertyPhase(tail, Setters(properties)) by {
        if last.CanWrite() {
          assert last.setter.value in Setters(properties);
        }
      }
      PropertyPhaseAppend(head, tail, Setters(properties));
    }
  }

  /**
   * The whole plan splits into validation pairs and collection triples; the
   * method phase comes first and registers only on the module's methods;
   * everything after it is the property phase.
   */
  lemma {:induction false} PlanFacts(m: ModuleDecl)
    requires SettersTakeValue(m.properties)
    ensures Paired(Plan(m))
    ensures Plan(m)[..|MethodsPlan(m.methods)|] == MethodsPlan(m.methods)
    ensures MethodLevelWithin(MethodsPlan(m.methods), set x | x in m.methods)
    ensures PropertyPhase(Plan(m)[|MethodsPlan(m.methods)|..], Setters(m.properties))
  {
    var head := MethodsPlan(m.methods);
    var tail := PropertiesPlan(m.properties);
    MethodsPlanFacts(m.methods);
    PropertiesPlanFacts(m.properties);
    PairedAppend(Plan(m), head, tail);
    assert Plan(m) == head + tail;
    assert Plan(m)[..|head|] == head;
    assert Plan(m)[|head|..] == tail;
  }
}
