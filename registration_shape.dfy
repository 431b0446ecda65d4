/**
 * Properties of a sequence of weaver registrations, independent of how the
 * registrations were planned: their pairing shape, the methods they target,
 * the parameter advice they carry, and how each property survives
 * concatenation.
 */
module RegistrationShape {
  import opened CodeModel
  import opened Pairing

  /** The registration is made on `target` itself or on its declaring type. */
  predicate Targets(r: Registration, target: MethodDecl)
  {
    if r.MethodLevel? then r.target == target else r.declaringType == target.declaringType
  }

  /** How many parameter collections are registered. */
  function CollectCount(rs: seq<Registration>): nat
  {
    if rs == [] then 0
    else CollectCount(rs[..|rs| - 1]) + (if rs[|rs| - 1].advice.CollectParametersAdvice? then 1 else 0)
  }

  /**
   * The shape of every registration sequence the task produces: every
   * validation advice is registered twice, at the method body and then at the
   * static constructor, and every parameter collection once, right before the
   * method validation it serves. The grammar itself lives in `Pairing`; the
   * lemmas about plans use this name.
   */
  ghost predicate Paired(rs: seq<Registration>)
  {
    PairsAndTriples(rs)
  }

  lemma PairedAppend(r: seq<Registration>, a: seq<Registration>, b: seq<Registration>)
    requires r == a + b && Paired(a) && Paired(b)
    ensures Paired(r)
  {
    PairsAndTriplesAppend(a, b);
  }

  lemma {:induction false} CollectCountAppend(a: seq<Registration>, b: seq<Registration>)
    ensures CollectCount(a + b) == CollectCount(a) + CollectCount(b)
  {
    if b != [] {
      assert (a + b)[..|a + b| - 1] == a + b[..|b| - 1];
      CollectCountAppend(a, b[..|b| - 1]);
    } else {
      assert a + b == a;
    }
  }

  lemma {:induction false} NoCollectCountsZero(rs: seq<Registration>)
    requires forall k | 0 <= k < |rs| :: !rs[k].advice.CollectParametersAdvice?
    ensures CollectCount(rs) == 0
  {
    if rs != [] {
      NoCollectCountsZero(rs[..|rs| - 1]);
    }
  }

  /** Every registration is made on `target` or on its declaring type. */
  ghost predicate AllOn(rs: seq<Registration>, target: MethodDecl)
  {
    forall k | 0 <= k < |rs| :: Targets(rs[k], target)
  }

  /** Every method-level registration is made on one of `methods`. */
  ghost predicate MethodLevelWithin(rs: seq<Registration>, methods: set<MethodDecl>)
  {
    forall k | 0 <= k < |rs| && rs[k].MethodLevel? :: rs[k].target in methods
  }

  /** Every registration is parameter advice for `parameter` at `index`, built from one of `attributes`. */
  ghost predicate ParameterAdviceFrom(rs: seq<Registration>, attributes: seq<CustomAttribute>,
                                      parameter: ParameterDecl, index: nat)
  {
    forall k | 0 <= k < |rs| ::
      && rs[k].advice.ParameterValidationAdvice?
      && rs[k].advice.parameter == parameter && rs[k].advice.parameterIndex == index
      && rs[k].advice.declaration in attributes
  }

  /** Every registration is parameter advice for a parameter of `target` below `n`, tagged with its own index. */
  ghost predicate TaggedBelow(rs: seq<Registration>, target: MethodDecl, n: nat)
    requires n <= |target.parameters|
  {
    forall k | 0 <= k < |rs| ::
      && rs[k].advice.ParameterValidationAdvice?
      && rs[k].advice.parameterIndex < n
      && rs[k].advice.parameter == target.parameters[rs[k].advice.parameterIndex]
  }

  /** Parameter advice appears in never-decreasing parameter index. */
  ghost predicate IndicesInOrder(rs: seq<Registration>)
  {
    forall i, j | 0 <= i < j < |rs| && rs[i].advice.ParameterValidationAdvice? && rs[j].advice.ParameterValidationAdvice? ::
      rs[i].advice.parameterIndex <= rs[j].advice.parameterIndex
  }

  /** No parameter advice follows any other kind of advice. */
  ghost predicate ParameterAdviceFirst(rs: seq<Registration>)
  {
    forall i, j | 0 <= i < j < |rs| && rs[j].advice.ParameterValidationAdvice? :: rs[i].advice.ParameterValidationAdvice?
  }

  lemma AllOnAppend(a: seq<Registration>, b: seq<Registration>, target: MethodDecl)
    requires AllOn(a, target) && AllOn(b, target)
    ensures AllOn(a + b, target)
  {
    forall k | 0 <= k < |a + b| ensures Targets((a + b)[k], target) {
      if k >= |a| {
        assert (a + b)[k] == b[k - |a|];
      }
    }
  }

  lemma MethodLevelWithinAppend(a: seq<Registration>, b: seq<Registration>, methods: set<MethodDecl>)
    requires MethodLevelWithin(a, methods) && MethodLevelWithin(b, methods)
    ensures MethodLevelWithin(a + b, methods)
  {
    forall k | 0 <= k < |a + b| && (a + b)[k].MethodLevel? ensures (a + b)[k].target in methods {
      if k >= |a| {
        assert (a + b)[k] == b[k - |a|];
      }
    }
  }

  /** Parameter advice below `n - 1`, then advice for parameter `n - 1`: tagged below `n`, still in order. */
  lemma TaggedAppend(head: seq<Registration>, tail: seq<Registration>, target: MethodDecl, n: nat,
                     attributes: seq<CustomAttribute>)
    requires 0 < n <= |target.parameters|
    requires TaggedBelow(head, target, n - 1) && IndicesInOrder(head)
    requires ParameterAdviceFrom(tail, attributes, target.parameters[n - 1], n - 1)
    ensures TaggedBelow(head + tail, target, n) && IndicesInOrder(head + tail)
  {
    var r := head + tail;
    forall k | 0 <= k < |r|
      ensures r[k].advice.ParameterValidationAdvice? && r[k].advice.parameterIndex < n
      ensures r[k].advice.parameter == target.parameters[r[k].advice.parameterIndex]
    {
      if k >= |head| {
        assert r[k] == tail[k - |head|];
      }
    }
    forall i, j | 0 <= i < j < |r| && r[i].advice.ParameterValidationAdvice? && r[j].advice.ParameterValidationAdvice?
      ensures r[i].advice.parameterIndex <= r[j].advice.parameterIndex
    {
      if j < |head| {
        assert r[i] == head[i] && r[j] == head[j];
      } else if i < |head| {
        assert r[i] == head[i] && r[j] == tail[j - |head|];
      } else {
        assert r[i] == tail[i - |head|] && r[j] == tail[j - |head|];
      }
    }
  }

  /** Parameter advice followed by advice of other kinds keeps parameter advice first and in order. */
  lemma ParameterAdviceThenOther(head: seq<Registration>, tail: seq<Registration>)
    requires forall k | 0 <= k < |head| :: head[k].advice.ParameterValidationAdvice?
    requires forall k | 0 <= k < |tail| :: !tail[k].advice.ParameterValidationAdvice?
    requires IndicesInOrder(head)
    ensures ParameterAdviceFirst(head + tail) && IndicesInOrder(head + tail)
    ensures forall k | 0 <= k < |head + tail| && (head + tail)[k].advice.ParameterValidationAdvice? ::
              k < |head| && (head + tail)[k] == head[k]
  {
    var r := head + tail;
    forall k | 0 <= k < |r| && r[k].advice.ParameterValidationAdvice? ensures k < |head| && r[k] == head[k] {
    }
  }

  /**
   * The property phase: parameter advice only, at index 0, its method-level
   * registrations on the given set methods.
   */
  ghost predicate PropertyPhase(rs: seq<Registration>, setters: set<MethodDecl>)
  {
    && (forall k | 0 <= k < |rs| :: rs[k].advice.ParameterValidationAdvice? && rs[k].advice.parameterIndex == 0)
    && MethodLevelWithin(rs, setters)
  }

  lemma PropertyPhaseAppend(a: seq<Registration>, b: seq<Registration>, setters: set<MethodDecl>)
    requires PropertyPhase(a, setters) && PropertyPhase(b, setters)
    ensures PropertyPhase(a + b, setters)
  {
    MethodLevelWithinAppend(a, b, setters);
    forall k | 0 <= k < |a + b|
      ensures (a + b)[k].advice.ParameterValidationAdvice? && (a + b)[k].advice.parameterIndex == 0
    {
      if k >= |a| {
        assert (a + b)[k] == b[k - |a|];
      }
    }
  }
}
