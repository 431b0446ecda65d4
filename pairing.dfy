/**
 * The grammar of a registration sequence: validation pairs and collection
 * triples, read from the front.
 */
module Pairing {
  import opened CodeModel

  /**
   * A validation advice registered at the method body, immediately followed
   * by the same advice on that method's declaring type, at its static
   * constructor.
   */
  predicate ValidationPair(first: Registration, second: Registration)
  {
    && first.MethodLevel? && first.joinPoint == BeforeMethodBody
    && !first.advice.CollectParametersAdvice?
    && second == TypeLevel(first.advice, BeforeStaticConstructor, first.target.declaringType)
  }

  /**
   * A parameter collection for a method, registered at its body only, and
   * immediately followed by a method-validation advice on the same method.
   */
  predicate CollectTriple(collect: Registration, first: Registration, second: Registration)
  {
    && collect.MethodLevel? && collect.joinPoint == BeforeMethodBody
    && collect.advice == CollectParametersAdvice(collect.target)
    && ValidationPair(first, second)
    && first.advice.MethodValidationAdvice? && first.target == collect.target
  }

  /** Splits, from the front, into validation pairs and collection triples. */
  ghost predicate PairsAndTriples(rs: seq<Registration>)
    decreases |rs|
  {
    if rs == [] then true
    else if rs[0].advice.CollectParametersAdvice? then
      |rs| >= 3 && CollectTriple(rs[0], rs[1], rs[2]) && PairsAndTriples(rs[3..])
    else
      |rs| >= 2 && ValidationPair(rs[0], rs[1]) && PairsAndTriples(rs[2..])
  }

  lemma {:induction false} PairsAndTriplesAppend(a: seq<Registration>, b: seq<Registration>)
    requires PairsAndTriples(a) && PairsAndTriples(b)
    ensures PairsAndTriples(a + b)
    decreases |a|
  {
    if a == [] {
      assert a + b == b;
    } else {
      var n := if a[0].advice.CollectParametersAdvice? then 3 else 2;
      PairsAndTriplesAppend(a[n..], b);
      assert (a + b)[n..] == a[n..] + b;
      assert (a + b)[0] == a[0] && (a + b)[1] == a[1];
      if n == 3 {
        assert (a + b)[2] == a[2];
      }
    }
  }
}
